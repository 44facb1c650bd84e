/**
 * What normalize and denormalize promise: the shape of a normalized object,
 * which keys it has and what each holds, when the placeholder replaces it,
 * which input keys denormalize uses, and the round trip for value-only
 * entities.
 */
module SerializerProperties {
  import opened Wrappers
  import opened Graph
  import opened GraphSerializer

  /** The keys of an array, in order. */
  function KeysOf(es: seq<(Key, Value)>): (r: seq<Key>)
    ensures |r| == |es| && forall i :: 0 <= i < |es| ==> r[i] == es[i].0
  {
    if es == [] then [] else [es[0].0] + KeysOf(es[1..])
  }

  /** `$a[$k]`: the value stored under key `k`, if any. */
  function Lookup(es: seq<(Key, Value)>, k: Key): (r: Option<Value>)
    ensures r.Some? <==> k in KeysOf(es)
  {
    if es == [] then None
    else if es[0].0 == k then Some(es[0].1)
    else Lookup(es[1..], k)
  }

  /** Class `cls` has an edge named `p`. */
  predicate HasEdge(g: Graph, cls: ClassName, p: PropertyName)
    requires cls in g.vertices
  {
    FirstEdgeNamed(g.vertices[cls].edges, p).Some?
  }

  /** The depth budget the value of a property with edge `e` is normalized with. */
  function FieldDepth(e: Edge, depth: Option<int>): Option<int>
  {
    if e.cls.Some? then Decrement(depth) else depth
  }

  /** Writing a key appends it when it is new and keeps the keys otherwise. */
  lemma {:induction false} PutKeys(es: seq<(Key, Value)>, k: Key, v: Value)
    ensures KeysOf(Put(es, k, v)) == if k in KeysOf(es) then KeysOf(es) else KeysOf(es) + [k]
  {
    if es != [] {
      assert KeysOf(es) == [es[0].0] + KeysOf(es[1..]);
      if es[0].0 != k {
        PutKeys(es[1..], k, v);
        assert KeysOf(Put(es, k, v)) == [es[0].0] + KeysOf(Put(es[1..], k, v));
      } else {
        assert KeysOf(Put(es, k, v)) == [k] + KeysOf(es[1..]);
      }
    }
  }

  /** Writing a key makes it hold the new value and leaves the other keys alone. */
  lemma {:induction false} PutValues(es: seq<(Key, Value)>, k: Key, v: Value)
    ensures Lookup(Put(es, k, v), k) == Some(v)
    ensures forall k' :: k' != k ==> Lookup(Put(es, k, v), k') == Lookup(es, k')
  {
    if es != [] && es[0].0 != k {
      PutValues(es[1..], k, v);
      assert Put(es, k, v) == [es[0]] + Put(es[1..], k, v);
    }
  }

  /** Writing a key: it then holds the new value, other keys are untouched, and keys stay distinct. */
  lemma {:induction false} PutLookup(es: seq<(Key, Value)>, k: Key, v: Value)
    ensures Lookup(Put(es, k, v), k) == Some(v)
    ensures forall k' :: k' != k ==> Lookup(Put(es, k, v), k') == Lookup(es, k')
    ensures forall k' :: k' in KeysOf(Put(es, k, v)) <==> k' in KeysOf(es) || k' == k
    ensures Distinct(KeysOf(es)) ==> Distinct(KeysOf(Put(es, k, v)))
  {
    PutKeys(es, k, v);
    PutValues(es, k, v);
  }

  /** The entry of a normalized object for property `p` holds `p`'s value normalized with the edge's budget. */
  ghost predicate EntryFor(rt: Runtime, g: Graph, h: Heap, o: ObjId, depth: Option<int>, visited: set<ObjId>,
                           es: seq<(Key, Value)>, p: PropertyName)
    requires Closed(h) && o in h.objects && h.objects[o].cls in g.vertices && HasEdge(g, h.objects[o].cls, p)
  {
    var obj := h.objects[o];
    var e := FirstEdgeNamed(g.vertices[obj.cls].edges, p).value;
    p in obj.fields && (e.cls.Some? ==> depth.None? || depth.value > 0) &&
    Lookup(es, StrKey(p)).Some? &&
    NormalizedValue(rt, Some(g), h, obj.fields[p], FieldDepth(e, depth), visited + {o}) == Success(Lookup(es, StrKey(p)).value)
  }

  /** What the property loop has built from the properties `props`: see `FieldsWhenGoing`. */
  ghost predicate BuiltFrom(rt: Runtime, g: Graph, h: Heap, o: ObjId, depth: Option<int>, visited: set<ObjId>,
                            props: seq<PropertyName>, es: seq<(Key, Value)>)
    requires Closed(h) && o in h.objects && h.objects[o].cls in g.vertices
  {
    && Distinct(KeysOf(es))
    && (forall k :: k in KeysOf(es) <==> k.StrKey? && k.s in props && HasEdge(g, h.objects[o].cls, k.s))
    && (forall p :: p in props && HasEdge(g, h.objects[o].cls, p) ==> EntryFor(rt, g, h, o, depth, visited, es, p))
  }

  /** One turn of the property loop keeps `BuiltFrom`. */
  lemma {:induction false} FieldStep(rt: Runtime, g: Graph, h: Heap, o: ObjId, depth: Option<int>, visited: set<ObjId>,
                                     props: seq<PropertyName>, acc: seq<(Key, Value)>, p: PropertyName, es: seq<(Key, Value)>)
    requires Closed(h) && o in h.objects && o !in visited && h.objects[o].cls in g.vertices
    requires BuiltFrom(rt, g, h, o, depth, visited, props, acc)
    requires NormalizedField(rt, g, h, o, depth, visited, acc, p) == Going(es)
    ensures BuiltFrom(rt, g, h, o, depth, visited, props + [p], es)
  {
    var obj := h.objects[o];
    if HasEdge(g, obj.cls, p) {
      var e := FirstEdgeNamed(g.vertices[obj.cls].edges, p).value;
      var v := NormalizedValue(rt, Some(g), h, obj.fields[p], FieldDepth(e, depth), visited + {o}).value;
      assert es == Put(acc, StrKey(p), v);
      PutLookup(acc, StrKey(p), v);
      assert EntryFor(rt, g, h, o, depth, visited, es, p);
      forall q | q in props + [p] && HasEdge(g, obj.cls, q) ensures EntryFor(rt, g, h, o, depth, visited, es, q) {
        if q != p {
          assert q in props;
          assert EntryFor(rt, g, h, o, depth, visited, acc, q);
        }
      }
    } else {
      assert es == acc;
      forall q | q in props + [p] && HasEdge(g, obj.cls, q) ensures EntryFor(rt, g, h, o, depth, visited, es, q) {
        assert q in props;
      }
    }
  }

  /**
   * When the property loop runs to its end, its array has one key per listed
   * property that has an edge, and each property's entry is its value
   * normalized one level down.
   */
  lemma {:induction false} FieldsWhenGoing(rt: Runtime, g: Graph, h: Heap, o: ObjId, depth: Option<int>, visited: set<ObjId>,
                                           props: seq<PropertyName>, es: seq<(Key, Value)>)
    requires Closed(h) && o in h.objects && o !in visited && h.objects[o].cls in g.vertices
    requires NormalizedFields(rt, g, h, o, depth, visited, props) == Going(es)
    ensures BuiltFrom(rt, g, h, o, depth, visited, props, es)
    decreases |props|
  {
    if props != [] {
      var prefix, p := props[..|props| - 1], props[|props| - 1];
      assert props == prefix + [p];
      var acc := NormalizedFields(rt, g, h, o, depth, visited, prefix);
      assert acc.Going?;
      FieldsWhenGoing(rt, g, h, o, depth, visited, prefix, acc.entries);
      FieldStep(rt, g, h, o, depth, visited, prefix, acc.entries, p, es);
    }
  }

  /** A property loop that returns early returns the placeholder or an error, and with no budget only an error. */
  lemma {:induction false} FieldsWhenHalted(rt: Runtime, g: Graph, h: Heap, o: ObjId, depth: Option<int>, visited: set<ObjId>,
                                            props: seq<PropertyName>)
    requires Closed(h) && o in h.objects && o !in visited && h.objects[o].cls in g.vertices
    requires NormalizedFields(rt, g, h, o, depth, visited, props).Halted?
    ensures var r := NormalizedFields(rt, g, h, o, depth, visited, props).result;
      r.Failure? || (depth.Some? && r == Success(Str(CircularReferenceHandler(rt, h.objects[o]))))
    decreases |props|
  {
    var prefix := props[..|props| - 1];
    if NormalizedFields(rt, g, h, o, depth, visited, prefix).Halted? {
      FieldsWhenHalted(rt, g, h, o, depth, visited, prefix);
    }
  }

  /**
   * The outcomes of `normalize`: the placeholder for an object already on the
   * path, `null` without a graph or for a class that is not a vertex, and
   * otherwise an array, the placeholder (only with a depth budget) or an
   * error.
   */
  lemma {:induction false} NormalizeOutcomes(rt: Runtime, g: Option<Graph>, h: Heap, o: ObjId, depth: Option<int>, visited: set<ObjId>)
    requires Closed(h) && o in h.objects
    ensures var r := NormalizedObject(rt, g, h, o, depth, visited);
      var placeholder := Success(Str(CircularReferenceHandler(rt, h.objects[o])));
      && (o in visited ==> r == placeholder)
      && (o !in visited && (g.None? || h.objects[o].cls !in g.value.vertices) ==> r == Success(Null))
      && (o !in visited && g.Some? && h.objects[o].cls in g.value.vertices ==>
            r.Failure? || r.value.Arr? || (depth.Some? && r == placeholder))
  {
    if o !in visited && g.Some? && h.objects[o].cls in g.value.vertices {
      var props := rt.getProperties(h.objects[o].cls);
      if NormalizedFields(rt, g.value, h, o, depth, visited, props).Halted? {
        FieldsWhenHalted(rt, g.value, h, o, depth, visited, props);
      }
    }
  }

  /** An object `supportsNormalization` accepts is never normalized to `null`. */
  lemma {:induction false} SupportedIsNotNull(rt: Runtime, g: Option<Graph>, h: Heap, o: ObjId, depth: Option<int>, visited: set<ObjId>)
    requires Closed(h) && o in h.objects && SupportsNormalization(g, h, Ref(o))
    ensures NormalizedObject(rt, g, h, o, depth, visited) != Success(Null)
  {
    NormalizeOutcomes(rt, g, h, o, depth, visited);
  }

  /** For an object not on the path, the normalizer supports it exactly when normalizing it does not give null. */
  lemma {:induction false} SupportedExactlyWhenNotNull(rt: Runtime, g: Option<Graph>, h: Heap, o: ObjId,
                                                      depth: Option<int>, visited: set<ObjId>)
    requires Closed(h) && o in h.objects && o !in visited
    ensures SupportsNormalization(g, h, Ref(o)) <==> NormalizedObject(rt, g, h, o, depth, visited) != Success(Null)
  {
    NormalizeOutcomes(rt, g, h, o, depth, visited);
  }

  /**
   * What a normalized object holds: one distinct key per listed property
   * with an edge, and under it the property's value normalized with the
   * budget one lower for a relation or collection edge and unchanged for a
   * value edge, with the object added to the path.
   */
  lemma {:induction false} NormalizedArray(rt: Runtime, g: Option<Graph>, h: Heap, o: ObjId, depth: Option<int>, visited: set<ObjId>,
                        es: seq<(Key, Value)>)
    requires Closed(h) && o in h.objects
    requires NormalizedObject(rt, g, h, o, depth, visited) == Success(Arr(es))
    ensures o !in visited && g.Some? && h.objects[o].cls in g.value.vertices
    ensures BuiltFrom(rt, g.value, h, o, depth, visited, rt.getProperties(h.objects[o].cls), es)
  {
    NormalizeOutcomes(rt, g, h, o, depth, visited);
    var props := rt.getProperties(h.objects[o].cls);
    var f := NormalizedFields(rt, g.value, h, o, depth, visited, props);
    if f.Halted? {
      FieldsWhenHalted(rt, g.value, h, o, depth, visited, props);
    } else {
      FieldsWhenGoing(rt, g.value, h, o, depth, visited, props, es);
    }
  }

  /** With the budget spent, reaching any relation or collection edge stops the property loop. */
  lemma {:induction false} SpentBudgetHalts(rt: Runtime, g: Graph, h: Heap, o: ObjId, depth: Option<int>, visited: set<ObjId>,
                                            props: seq<PropertyName>, i: nat)
    requires Closed(h) && o in h.objects && o !in visited && h.objects[o].cls in g.vertices
    requires depth.Some? && depth.value <= 0
    requires i < |props| && HasEdge(g, h.objects[o].cls, props[i])
    requires FirstEdgeNamed(g.vertices[h.objects[o].cls].edges, props[i]).value.cls.Some?
    ensures NormalizedFields(rt, g, h, o, depth, visited, props).Halted?
    decreases |props|
  {
    var prefix := props[..|props| - 1];
    if i < |props| - 1 {
      assert prefix[i] == props[i];
      SpentBudgetHalts(rt, g, h, o, depth, visited, prefix, i);
    }
  }

  /**
   * With the budget set and spent, an object of a vertex class with a
   * relation or collection edge among its properties becomes the
   * placeholder (or an error), whatever was collected before.
   */
  lemma {:induction false} SpentBudgetGivesPlaceholder(rt: Runtime, g: Graph, h: Heap, o: ObjId, depth: Option<int>, visited: set<ObjId>, i: nat)
    requires Closed(h) && o in h.objects && o !in visited && h.objects[o].cls in g.vertices
    requires depth.Some? && depth.value <= 0
    requires var props := rt.getProperties(h.objects[o].cls);
      i < |props| && HasEdge(g, h.objects[o].cls, props[i]) &&
      FirstEdgeNamed(g.vertices[h.objects[o].cls].edges, props[i]).value.cls.Some?
    ensures var r := NormalizedObject(rt, Some(g), h, o, depth, visited);
      r.Failure? || r == Success(Str(CircularReferenceHandler(rt, h.objects[o])))
  {
    var props := rt.getProperties(h.objects[o].cls);
    SpentBudgetHalts(rt, g, h, o, depth, visited, props, i);
    FieldsWhenHalted(rt, g, h, o, depth, visited, props);
  }

  /**
   * An object whose relation property refers back to the object itself:
   * without a budget, normalizing it puts the placeholder under that
   * property.
   */
  lemma {:induction false} SelfReferenceGivesPlaceholder(rt: Runtime, g: Graph, h: Heap, o: ObjId, visited: set<ObjId>, p: PropertyName,
                                      es: seq<(Key, Value)>)
    requires Closed(h) && o in h.objects && h.objects[o].cls in g.vertices
    requires p in rt.getProperties(h.objects[o].cls) && HasEdge(g, h.objects[o].cls, p)
    requires FirstEdgeNamed(g.vertices[h.objects[o].cls].edges, p).value.cls.Some?
    requires p in h.objects[o].fields && h.objects[o].fields[p] == Ref(o)
    requires NormalizedObject(rt, Some(g), h, o, None, visited) == Success(Arr(es))
    ensures Lookup(es, StrKey(p)) == Some(Str(CircularReferenceHandler(rt, h.objects[o])))
  {
    NormalizedArray(rt, Some(g), h, o, None, visited, es);
    assert EntryFor(rt, g, h, o, None, visited, es, p);
    NormalizeOutcomes(rt, Some(g), h, o, None, visited + {o});
  }

  // ---------------------------------------------------------------- denormalize

  /** The value of field `p` of object `id`, if it has one. */
  function FieldOf(h: Heap, id: ObjId, p: PropertyName): Option<Value>
    requires id in h.objects
  {
    if p in h.objects[id].fields then Some(h.objects[id].fields[p]) else None
  }

  /** The entries of `es` whose key names an edge of `cls`, in order. */
  function Known(g: Graph, cls: ClassName, es: seq<(Key, Value)>): seq<(Key, Value)>
    requires cls in g.vertices
  {
    if es == [] then []
    else
      var e := es[|es| - 1];
      var rest := Known(g, cls, es[..|es| - 1]);
      if e.0.StrKey? && HasEdge(g, cls, e.0.s) then rest + [e] else rest
  }

  /** The entry loop up to `k` reads only the first `k` entries. */
  lemma {:induction false} EntriesReadPrefix(rt: Runtime, g: Graph, h: Heap, id: ObjId, cls: ClassName,
                                             d1: Value, d2: Value, k: nat)
    requires h.Valid() && id in h.objects && cls in g.vertices
    requires d1.Arr? && d2.Arr? && k <= |d1.entries| && k <= |d2.entries| && d1.entries[..k] == d2.entries[..k]
    ensures DenormalizedEntries(rt, g, h, id, cls, d1, k) == DenormalizedEntries(rt, g, h, id, cls, d2, k)
  {
    if k > 0 {
      assert d1.entries[..k - 1] == d1.entries[..k][..k - 1];
      assert d2.entries[..k - 1] == d2.entries[..k][..k - 1];
      EntriesReadPrefix(rt, g, h, id, cls, d1, d2, k - 1);
      assert d1.entries[k - 1] == d1.entries[..k][k - 1];
    }
  }

  /** Two entry loops in the same state take the same turn on the same entry. */
  lemma {:induction false} EntriesSameTurn(rt: Runtime, g: Graph, h: Heap, id: ObjId, cls: ClassName,
                                           es: seq<(Key, Value)>, k: nat, before: seq<(Key, Value)>)
    requires h.Valid() && id in h.objects && cls in g.vertices && k < |es|
    requires DenormalizedEntries(rt, g, h, id, cls, Arr(es), k) == DenormalizedEntries(rt, g, h, id, cls, Arr(before), |before|)
    ensures DenormalizedEntries(rt, g, h, id, cls, Arr(es), k + 1)
         == DenormalizedEntries(rt, g, h, id, cls, Arr(before + [es[k]]), |before| + 1)
  {
    var after := before + [es[k]];
    assert after[..|before|] == before[..|before|];
    EntriesReadPrefix(rt, g, h, id, cls, Arr(after), Arr(before), |before|);
    match DenormalizedEntries(rt, g, h, id, cls, Arr(es), k)
    case Failure(_) =>
    case Success(h1) =>
      assert DenormalizedEntry(rt, g, h1, id, cls, Arr(es), k) == DenormalizedEntry(rt, g, h1, id, cls, Arr(after), |before|);
  }

  /** The entry loop skips an entry whose key names no edge. */
  lemma {:induction false} EntriesSkipUnknown(rt: Runtime, g: Graph, h: Heap, id: ObjId, cls: ClassName,
                                              data: Value, k: nat)
    requires h.Valid() && id in h.objects && cls in g.vertices && data.Arr? && k < |data.entries|
    requires !(data.entries[k].0.StrKey? && HasEdge(g, cls, data.entries[k].0.s))
    ensures DenormalizedEntries(rt, g, h, id, cls, data, k + 1) == DenormalizedEntries(rt, g, h, id, cls, data, k)
  {
  }

  /** The entries kept from one more entry: that entry is added when its key names an edge. */
  lemma {:induction false} KnownStep(g: Graph, cls: ClassName, es: seq<(Key, Value)>, k: nat)
    requires cls in g.vertices && 0 < k <= |es|
    ensures Known(g, cls, es[..k]) == Known(g, cls, es[..k - 1])
      + (if es[k - 1].0.StrKey? && HasEdge(g, cls, es[k - 1].0.s) then [es[k - 1]] else [])
  {
    assert es[..k][..k - 1] == es[..k - 1];
    assert es[..k][k - 1] == es[k - 1];
  }

  /** Dropping the entries without an edge does not change what the entry loop does. */
  lemma {:induction false} EntriesIgnoreUnknown(rt: Runtime, g: Graph, h: Heap, id: ObjId, cls: ClassName,
                                                es: seq<(Key, Value)>, k: nat)
    requires h.Valid() && id in h.objects && cls in g.vertices && k <= |es|
    ensures var known := Known(g, cls, es[..k]);
      DenormalizedEntries(rt, g, h, id, cls, Arr(es), k) == DenormalizedEntries(rt, g, h, id, cls, Arr(known), |known|)
  {
    if k > 0 {
      EntriesIgnoreUnknown(rt, g, h, id, cls, es, k - 1);
      KnownStep(g, cls, es, k);
      var e := es[k - 1];
      var before := Known(g, cls, es[..k - 1]);
      var known := Known(g, cls, es[..k]);
      var r := DenormalizedEntries(rt, g, h, id, cls, Arr(es), k);
      if e.0.StrKey? && HasEdge(g, cls, e.0.s) {
        assert known == before + [e];
        EntriesSameTurn(rt, g, h, id, cls, es, k - 1, before);
        assert r == DenormalizedEntries(rt, g, h, id, cls, Arr(before + [e]), |before| + 1);
      } else {
        assert known == before;
        EntriesSkipUnknown(rt, g, h, id, cls, Arr(es), k - 1);
        assert r == DenormalizedEntries(rt, g, h, id, cls, Arr(es), k - 1);
      }
    } else {
      assert es[..k] == [];
      assert Known(g, cls, es[..k]) == [];
    }
  }

  /** An entry loop that ends well went well at every earlier turn. */
  lemma {:induction false} EntriesSucceededBefore(rt: Runtime, g: Graph, h: Heap, id: ObjId, cls: ClassName, data: Value,
                                                  j: nat, k: nat)
    requires h.Valid() && id in h.objects && cls in g.vertices
    requires data.Arr? && j <= k <= |data.entries|
    requires DenormalizedEntries(rt, g, h, id, cls, data, k).Success?
    ensures DenormalizedEntries(rt, g, h, id, cls, data, j).Success?
    decreases k
  {
    if j < k {
      EntriesSucceededBefore(rt, g, h, id, cls, data, j, k - 1);
    }
  }

  /** `denormalize` ignores input keys that name no edge of the class. */
  lemma {:induction false} UnknownKeysIgnored(rt: Runtime, g: Graph, h: Heap, es: seq<(Key, Value)>, cls: ClassName)
    requires h.Valid() && cls in g.vertices
    ensures Denormalized(rt, Some(g), h, Arr(es), cls) == Denormalized(rt, Some(g), h, Arr(Known(g, cls, es)), cls)
  {
    EntriesIgnoreUnknown(rt, g, Allocate(rt, h, cls), h.next, cls, es, |es|);
    assert es[..|es|] == es;
  }

  /** Integer keys never name an edge. */
  lemma {:induction false} KnownOfIntKeys(g: Graph, cls: ClassName, es: seq<(Key, Value)>)
    requires cls in g.vertices && forall j :: 0 <= j < |es| ==> es[j].0.IntKey?
    ensures Known(g, cls, es) == []
    decreases |es|
  {
    if es != [] {
      KnownOfIntKeys(g, cls, es[..|es| - 1]);
    }
  }

  /**
   * A list (every key an integer) handed to the chain for the element class
   * of a collection edge becomes one fresh element object with its
   * defaults: the list's items name no edge, so none of them is used.
   */
  lemma {:induction false} ListBecomesOneBlankObject(rt: Runtime, g: Graph, h: Heap, es: seq<(Key, Value)>, elem: ClassName)
    requires h.Valid() && elem in g.vertices && es != []
    requires forall j :: 0 <= j < |es| ==> es[j].0.IntKey?
    ensures DenormalizedValue(rt, g, h, Arr(es), elem) == Success((Allocate(rt, h, elem), Ref(h.next)))
  {
    UnknownKeysIgnored(rt, g, h, es, elem);
    KnownOfIntKeys(g, elem, es);
  }

  /** A turn of the entry loop for another key leaves field `p` of the object being filled as it was. */
  lemma {:induction false} EntryKeepsOtherField(rt: Runtime, g: Graph, h: Heap, id: ObjId, cls: ClassName, data: Value,
                                                i: nat, p: PropertyName)
    requires h.Valid() && id in h.objects && cls in g.vertices
    requires data.Arr? && i < |data.entries| && data.entries[i].0 != StrKey(p)
    requires DenormalizedEntry(rt, g, h, id, cls, data, i).Success?
    ensures FieldOf(DenormalizedEntry(rt, g, h, id, cls, data, i).value, id, p) == FieldOf(h, id, p)
  {
    var (key, value) := data.entries[i];
    var edge := if key.StrKey? then FirstEdgeNamed(g.vertices[cls].edges, key.s) else None;
    if edge.Some? && rt.hasSetter(cls, key.s) && edge.value.cls.Some? && value != Null {
      var h2 := DenormalizedValue(rt, g, h, value, edge.value.cls.value).value.0;
      assert h2.objects[id] == h.objects[id];
    }
  }

  /**
   * Between turns `k1` and `k2` of the entry loop, when no entry in between
   * has key `p`, field `p` of the object being filled keeps its value and
   * every other object of the heap is unchanged.
   */
  lemma {:induction false} EntriesKeepField(rt: Runtime, g: Graph, h: Heap, id: ObjId, cls: ClassName, data: Value,
                                            k1: nat, k2: nat, p: PropertyName)
    requires h.Valid() && id in h.objects && cls in g.vertices
    requires data.Arr? && k1 <= k2 <= |data.entries|
    requires forall j :: k1 <= j < k2 ==> data.entries[j].0 != StrKey(p)
    requires DenormalizedEntries(rt, g, h, id, cls, data, k1).Success?
    requires DenormalizedEntries(rt, g, h, id, cls, data, k2).Success?
    ensures var hA := DenormalizedEntries(rt, g, h, id, cls, data, k1).value;
      var hB := DenormalizedEntries(rt, g, h, id, cls, data, k2).value;
      && FieldOf(hB, id, p) == FieldOf(hA, id, p)
      && forall j :: j in hA.objects && j != id ==> j in hB.objects && hB.objects[j] == hA.objects[j]
    decreases k2
  {
    if k2 > k1 {
      EntriesKeepField(rt, g, h, id, cls, data, k1, k2 - 1, p);
      var hM := DenormalizedEntries(rt, g, h, id, cls, data, k2 - 1).value;
      EntryKeepsOtherField(rt, g, hM, id, cls, data, k2 - 1, p);
    }
  }

  /** Scalar PHP values: what a value-only field holds. */
  predicate Scalar(v: Value)
  {
    v.Null? || v.Bool? || v.Int? || v.Str?
  }

  /**
   * What the setter receives for an entry `(p, v)` with an edge, when the
   * turn for that entry starts on heap `turn`: the raw value for a value
   * edge; for a relation or collection edge, `null` as it is, and otherwise
   * what the serializer chain makes of `v` on that heap. When this
   * denormalizer supports `v`, that is the object the recursive
   * `denormalize` built, at the id that was free at the turn, and `after`
   * still holds it as the recursion left it.
   */
  ghost predicate Assigned(rt: Runtime, g: Graph, turn: Heap, after: Heap, cls: ClassName, p: PropertyName,
                           v: Value, id: ObjId)
    requires turn.Valid() && cls in g.vertices && HasEdge(g, cls, p) && id in after.objects
  {
    var e := FirstEdgeNamed(g.vertices[cls].edges, p).value;
    if e.cls.None? || v == Null then FieldOf(after, id, p) == Some(v)
    else
      var d := DenormalizedValue(rt, g, turn, v, e.cls.value);
      && d.Success? && FieldOf(after, id, p) == Some(d.value.1)
      && (SupportsDenormalization(Some(g), v, e.cls.value) ==>
            turn.next in d.value.0.objects && turn.next in after.objects
            && after.objects[turn.next] == d.value.0.objects[turn.next])
  }

  /** The turn of the entry loop for an entry with an edge and a setter calls the setter as `Assigned` says. */
  lemma {:induction false} EntryAssigns(rt: Runtime, g: Graph, h: Heap, id: ObjId, cls: ClassName, data: Value,
                                        i: nat, p: PropertyName)
    requires h.Valid() && id in h.objects && cls in g.vertices
    requires data.Arr? && i < |data.entries| && data.entries[i].0 == StrKey(p)
    requires HasEdge(g, cls, p) && rt.hasSetter(cls, p)
    requires DenormalizedEntry(rt, g, h, id, cls, data, i).Success?
    ensures Assigned(rt, g, h, DenormalizedEntry(rt, g, h, id, cls, data, i).value, cls, p, data.entries[i].1, id)
  {
    var v := data.entries[i].1;
    var e := FirstEdgeNamed(g.vertices[cls].edges, p).value;
    if e.cls.Some? && v != Null && SupportsDenormalization(Some(g), v, e.cls.value) {
      assert id < h.next;
    }
  }

  /**
   * `denormalize` calls the setter of each entry with an edge and a setter
   * as `Assigned` says, for the heap its turn starts on, and the last such
   * call for a key is what the new object keeps; later entries for other
   * keys undo neither it nor the object a relation built.
   */
  lemma {:induction false} DenormalizeAssigns(rt: Runtime, g: Graph, h: Heap, data: Value, cls: ClassName, i: nat)
    requires h.Valid() && cls in g.vertices
    requires data.Arr? && i < |data.entries| && data.entries[i].0.StrKey?
    requires var p := data.entries[i].0.s; HasEdge(g, cls, p) && rt.hasSetter(cls, p)
    requires forall j :: i < j < |data.entries| ==> data.entries[j].0 != data.entries[i].0
    requires Denormalized(rt, Some(g), h, data, cls).Success?
    ensures var turn := DenormalizedEntries(rt, g, Allocate(rt, h, cls), h.next, cls, data, i);
      var (h', r) := Denormalized(rt, Some(g), h, data, cls).value;
      && r == Ref(h.next) && turn.Success?
      && Assigned(rt, g, turn.value, h', cls, data.entries[i].0.s, data.entries[i].1, h.next)
  {
    var p := data.entries[i].0.s;
    var h1 := Allocate(rt, h, cls);
    var id := h.next;
    EntriesSucceededBefore(rt, g, h1, id, cls, data, i + 1, |data.entries|);
    var hB := DenormalizedEntries(rt, g, h1, id, cls, data, i);
    EntryAssigns(rt, g, hB.value, id, cls, data, i, p);
    EntriesKeepField(rt, g, h1, id, cls, data, i + 1, |data.entries|, p);
    var hA := DenormalizedEntries(rt, g, h1, id, cls, data, i + 1).value;
    var e := FirstEdgeNamed(g.vertices[cls].edges, p).value;
    if e.cls.Some? && data.entries[i].1 != Null && SupportsDenormalization(Some(g), data.entries[i].1, e.cls.value) {
      var j := hB.value.next;
      assert j in hA.objects && j != id;
    }
  }

  /**
   * The chain hands data to this denormalizer exactly when it is supported,
   * and then gets a fresh object of the requested class; any other data,
   * such as an empty array, goes to the other denormalizers and allocates
   * nothing.
   */
  lemma {:induction false} ChainDenormalizeOutcomes(rt: Runtime, g: Graph, h: Heap, v: Value, cls: ClassName)
    requires h.Valid()
    ensures var r := DenormalizedValue(rt, g, h, v, cls);
      && (SupportsDenormalization(Some(g), v, cls) && r.Success? ==>
            r.value.1 == Ref(h.next) && h.next in r.value.0.objects && r.value.0.objects[h.next].cls == cls)
      && (!SupportsDenormalization(Some(g), v, cls) ==> r == Success((h, rt.denormalizeOther(v, cls))))
  {
  }

  /** An entry with an edge but no setter makes `denormalize` fail unless an earlier entry already has. */
  lemma {:induction false} MissingSetterFails(rt: Runtime, g: Graph, h: Heap, data: Value, cls: ClassName, i: nat)
    requires h.Valid() && cls in g.vertices
    requires data.Arr? && i < |data.entries| && data.entries[i].0.StrKey?
    requires var p := data.entries[i].0.s; HasEdge(g, cls, p) && !rt.hasSetter(cls, p)
    ensures Denormalized(rt, Some(g), h, data, cls).Failure?
  {
    var h1 := Allocate(rt, h, cls);
    assert DenormalizedEntries(rt, g, h1, h.next, cls, data, i + 1).Failure?;
    DenormalizedEntriesFailureStays(rt, g, h1, h.next, cls, data, i + 1);
  }

  /** A field that no input key names keeps the value the constructor gave it. */
  lemma {:induction false} AbsentKeepsDefault(rt: Runtime, g: Graph, h: Heap, data: Value, cls: ClassName, p: PropertyName)
    requires h.Valid() && cls in g.vertices
    requires data.Arr? ==> forall j :: 0 <= j < |data.entries| ==> data.entries[j].0 != StrKey(p)
    requires Denormalized(rt, Some(g), h, data, cls).Success?
    ensures var h' := Denormalized(rt, Some(g), h, data, cls).value.0;
      FieldOf(h', h.next, p) == if p in rt.defaults(cls) then Some(rt.defaults(cls)[p]) else None
  {
    if data.Arr? {
      EntriesKeepField(rt, g, Allocate(rt, h, cls), h.next, cls, data, 0, |data.entries|, p);
    }
  }

  // ---------------------------------------------------------------- round trip

  /** The class has only value edges: no relation or collection is followed. */
  predicate ValueOnly(g: Graph, cls: ClassName)
    requires cls in g.vertices
  {
    forall e :: e in g.vertices[cls].edges ==> e.cls.None?
  }

  /** Every listed property of `obj` with an edge has a getter returning a scalar, and a setter. */
  predicate PlainEntity(rt: Runtime, g: Graph, obj: Obj)
    requires obj.cls in g.vertices
  {
    forall p :: p in rt.getProperties(obj.cls) && HasEdge(g, obj.cls, p) ==>
      p in obj.fields && Scalar(obj.fields[p]) && rt.hasSetter(obj.cls, p)
  }

  /** The property loop over a value-only class whose fields are scalars never returns early. */
  lemma {:induction false} ValueOnlyFieldsGo(rt: Runtime, g: Graph, h: Heap, o: ObjId, depth: Option<int>, visited: set<ObjId>,
                                             props: seq<PropertyName>)
    requires Closed(h) && o in h.objects && o !in visited && h.objects[o].cls in g.vertices
    requires ValueOnly(g, h.objects[o].cls)
    requires forall p :: p in props && HasEdge(g, h.objects[o].cls, p) ==>
      p in h.objects[o].fields && Scalar(h.objects[o].fields[p])
    ensures NormalizedFields(rt, g, h, o, depth, visited, props).Going?
    decreases |props|
  {
    if props != [] {
      var prefix, p := props[..|props| - 1], props[|props| - 1];
      ValueOnlyFieldsGo(rt, g, h, o, depth, visited, prefix);
      var edge := FirstEdgeNamed(g.vertices[h.objects[o].cls].edges, p);
      if edge.Some? {
        assert edge.value in g.vertices[h.objects[o].cls].edges;
        assert p in props;
        var d := FieldDepth(edge.value, depth);
        assert NormalizedValue(rt, Some(g), h, h.objects[o].fields[p], d, visited + {o}).Success?;
      }
    }
  }

  /** The entry loop cannot fail when every entry with an edge has a setter and a value edge. */
  lemma {:induction false} ValueEntriesSucceed(rt: Runtime, g: Graph, h: Heap, id: ObjId, cls: ClassName, data: Value, k: nat)
    requires h.Valid() && id in h.objects && cls in g.vertices && data.Arr? && k <= |data.entries|
    requires forall j :: 0 <= j < |data.entries| && data.entries[j].0.StrKey? && HasEdge(g, cls, data.entries[j].0.s) ==>
      rt.hasSetter(cls, data.entries[j].0.s) && FirstEdgeNamed(g.vertices[cls].edges, data.entries[j].0.s).value.cls.None?
    ensures DenormalizedEntries(rt, g, h, id, cls, data, k).Success?
  {
    if k > 0 {
      ValueEntriesSucceed(rt, g, h, id, cls, data, k - 1);
    }
  }

  /** The position of a key in an array with distinct keys. */
  lemma {:induction false} LookupIndex(es: seq<(Key, Value)>, k: Key) returns (i: nat)
    requires k in KeysOf(es) && Distinct(KeysOf(es))
    ensures i < |es| && es[i] == (k, Lookup(es, k).value)
    ensures forall j :: 0 <= j < |es| && j != i ==> es[j].0 != k
  {
    if es[0].0 == k {
      i := 0;
      forall j | 0 < j < |es| ensures es[j].0 != k {
        assert KeysOf(es)[0] != KeysOf(es)[j];
      }
    } else {
      assert KeysOf(es) == [es[0].0] + KeysOf(es[1..]);
      assert Distinct(KeysOf(es[1..])) by {
        forall a, b | 0 <= a < b < |es[1..]| ensures KeysOf(es[1..])[a] != KeysOf(es[1..])[b] {
          assert KeysOf(es)[a + 1] != KeysOf(es)[b + 1];
        }
      }
      var i' := LookupIndex(es[1..], k);
      i := i' + 1;
    }
  }

  /**
   * The round trip for value-only entities: normalizing an object whose
   * class has only value edges and whose properties hold scalars gives an
   * array, and denormalizing that array into the same class gives a new
   * object with the same value in every property that has an edge.
   */
  lemma {:induction false} ValueOnlyRoundTrip(rt: Runtime, g: Graph, h: Heap, o: ObjId, depth: Option<int>, visited: set<ObjId>,
                                              h2: Heap)
    requires Closed(h) && o in h.objects && o !in visited && h.objects[o].cls in g.vertices
    requires ValueOnly(g, h.objects[o].cls) && PlainEntity(rt, g, h.objects[o])
    requires h2.Valid()
    ensures var n := NormalizedObject(rt, Some(g), h, o, depth, visited);
      n.Success? && n.value.Arr? &&
      var d := Denormalized(rt, Some(g), h2, n.value, h.objects[o].cls);
      d.Success? && d.value.1 == Ref(h2.next) &&
      forall p :: p in rt.getProperties(h.objects[o].cls) && HasEdge(g, h.objects[o].cls, p) ==>
        FieldOf(d.value.0, h2.next, p) == Some(h.objects[o].fields[p])
  {
    var obj := h.objects[o];
    var props := rt.getProperties(obj.cls);
    ValueOnlyFieldsGo(rt, g, h, o, depth, visited, props);
    var es := NormalizedFields(rt, g, h, o, depth, visited, props).entries;
    FieldsWhenGoing(rt, g, h, o, depth, visited, props, es);
    var data := Arr(es);
    var h1 := Allocate(rt, h2, obj.cls);
    forall j | 0 <= j < |es| && es[j].0.StrKey? && HasEdge(g, obj.cls, es[j].0.s)
      ensures rt.hasSetter(obj.cls, es[j].0.s) && FirstEdgeNamed(g.vertices[obj.cls].edges, es[j].0.s).value.cls.None?
    {
      assert es[j].0 == KeysOf(es)[j];
      assert FirstEdgeNamed(g.vertices[obj.cls].edges, es[j].0.s).value in g.vertices[obj.cls].edges;
    }
    ValueEntriesSucceed(rt, g, h1, h2.next, obj.cls, data, |es|);
    forall p | p in props && HasEdge(g, obj.cls, p)
      ensures FieldOf(Denormalized(rt, Some(g), h2, data, obj.cls).value.0, h2.next, p) == Some(obj.fields[p])
    {
      assert EntryFor(rt, g, h, o, depth, visited, es, p);
      var i := LookupIndex(es, StrKey(p));
      assert FirstEdgeNamed(g.vertices[obj.cls].edges, p).value in g.vertices[obj.cls].edges;
      DenormalizeAssigns(rt, g, h2, data, obj.cls, i);
    }
  }

  // ---------------------------------------------------------------- placeholder

  /** The number a string of decimal digits stands for. */
  function DecimalValue(s: string): nat
    requires forall i :: 0 <= i < |s| ==> '0' <= s[i] <= '9'
  {
    if s == [] then 0 else 10 * DecimalValue(s[..|s| - 1]) + (s[|s| - 1] as int - '0' as int)
  }

  /** Reading back the decimal rendering of a number gives the number. */
  lemma {:induction false} DecimalRoundTrip(n: nat)
    ensures DecimalValue(NatToString(n)) == n
  {
    var s := NatToString(n);
    if n >= 10 {
      DecimalRoundTrip(n / 10);
      assert s[..|s| - 1] == NatToString(n / 10);
    }
  }

  /**
   * The three forms of the placeholder: with `getId`, `Class(#id)` for a
   * truthy id and `Class(#null)` for a falsy one, whatever the string
   * conversion says; without `getId`, `Class(#text)` for a Stringable object;
   * the bare class name otherwise.
   */
  lemma {:induction false} PlaceholderForms(rt: Runtime, o: Obj)
    ensures var s := CircularReferenceHandler(rt, o);
      && (rt.getId(o).Some? && Truthy(rt.getId(o).value) ==> s == o.cls + "(#" + IdToString(rt.getId(o).value) + ")")
      && (rt.getId(o).Some? && !Truthy(rt.getId(o).value) ==> s == o.cls + "(#null)")
      && (rt.getId(o).None? && rt.toString(o).Some? ==> s == o.cls + "(#" + rt.toString(o).value + ")")
      && (rt.getId(o).None? && rt.toString(o).None? ==> s == o.cls)
  {
  }

  /** When the object has `getId`, its string conversion does not matter to the placeholder. */
  lemma {:induction false} PlaceholderPrefersId(rt: Runtime, o: Obj, toString: Obj -> Option<string>)
    requires rt.getId(o).Some?
    ensures CircularReferenceHandler(rt.(toString := toString), o) == CircularReferenceHandler(rt, o)
  {
  }

  /** A truthy integer id appears in the placeholder in decimal. */
  lemma {:induction false} PlaceholderIntId(rt: Runtime, o: Obj, n: int)
    requires rt.getId(o) == Some(IntId(n)) && n != 0
    ensures CircularReferenceHandler(rt, o) == o.cls + "(#" + IntToString(n) + ")"
    ensures n > 0 ==> DecimalValue(IntToString(n)) == n
  {
    if n > 0 {
      DecimalRoundTrip(n);
    }
  }
}
