/**
 * The graph-driven serializer: turns live objects into arrays by walking
 * the traversal graph (normalize), and arrays into fresh objects
 * (denormalize). Objects live in a finite heap; the rest of the serializer
 * chain and the entity classes' own methods are parameters.
 */
module GraphSerializer {
  import opened Wrappers
  import opened Graph

  type ObjId = nat

  /** A PHP array key. */
  datatype Key = IntKey(i: int) | StrKey(s: string)

  /** PHP values: scalars, ordered arrays, and references to objects of the heap. */
  datatype Value =
    | Null
    | Bool(b: bool)
    | Int(i: int)
    | Str(s: string)
    | Arr(entries: seq<(Key, Value)>)
    | Ref(id: ObjId)

  /** An object: its class and what its getters return, by property name. */
  datatype Obj = Obj(cls: ClassName, fields: map<PropertyName, Value>)

  /** The live objects; `next` is the id the next new object gets. */
  datatype Heap = Heap(objects: map<ObjId, Obj>, next: ObjId)
  {
    ghost predicate Valid()
    {
      forall id :: id in objects ==> id < next
    }
  }

  /** What an object's `getId` method returns. */
  datatype Id = NullId | IntId(n: int) | StrId(s: string)

  /**
   * What the serializer needs from outside its own code: the properties of a
   * class, whether a class has a setter for a property, the field values of
   * a freshly constructed instance, an object's `getId` (absent when the
   * method does not exist) and string conversion (absent when it is not
   * Stringable), and the other normalizers and denormalizers of the chain.
   */
  datatype Runtime = Runtime(
    getProperties: ClassName -> seq<PropertyName>,
    hasSetter: (ClassName, PropertyName) -> bool,
    defaults: ClassName -> map<PropertyName, Value>,
    getId: Obj -> Option<Id>,
    toString: Obj -> Option<string>,
    normalizeOther: Obj -> Value,
    denormalizeOther: (Value, ClassName) -> Value)

  /** Calling a getter or a setter that the class does not declare. */
  datatype Error = UndefinedGetter(cls: ClassName, prop: PropertyName) | UndefinedSetter(cls: ClassName, prop: PropertyName)

  // ---------------------------------------------------------------- placeholder

  /** The decimal digits of `n`. */
  function NatToString(n: nat): (r: string)
    ensures |r| > 0 && forall i :: 0 <= i < |r| ==> '0' <= r[i] <= '9'
  {
    var d := [(n % 10) as char + '0' as char];
    if n < 10 then d else NatToString(n / 10) + d
  }

  /** PHP's decimal rendering of an integer. */
  function IntToString(n: int): string
  {
    if n < 0 then "-" + NatToString(-n) else NatToString(n)
  }

  /** PHP truthiness of an id. */
  predicate Truthy(id: Id)
  {
    match id
    case NullId => false
    case IntId(n) => n != 0
    case StrId(s) => s != "" && s != "0"
  }

  function IdToString(id: Id): string
  {
    match id
    case NullId => ""
    case IntId(n) => IntToString(n)
    case StrId(s) => s
  }

  /**
   * The text that stands for an object in a cycle or past the depth budget:
   * `Class(#id)` when the object has `getId` (`Class(#null)` for a falsy id),
   * `Class(#text)` for a Stringable object, the class name otherwise.
   */
  function CircularReferenceHandler(rt: Runtime, o: Obj): (r: string)
    ensures |r| >= |o.cls| && r[..|o.cls|] == o.cls
    ensures r == o.cls <==> rt.getId(o).None? && rt.toString(o).None?
  {
    match rt.getId(o)
    case Some(id) => o.cls + "(#" + (if Truthy(id) then IdToString(id) else "null") + ")"
    case None =>
      match rt.toString(o)
      case Some(text) => o.cls + "(#" + text + ")"
      case None => o.cls
  }

  // ---------------------------------------------------------------- normalize

  /** Every reference inside `v` points into `dom`. */
  ghost predicate RefsIn(v: Value, dom: set<ObjId>)
    decreases v
  {
    match v
    case Ref(id) => id in dom
    case Arr(es) => forall i :: 0 <= i < |es| ==> RefsIn(es[i].1, dom)
    case _ => true
  }

  /** No getter of a live object returns a dangling reference. */
  ghost predicate Closed(h: Heap)
  {
    forall id, p :: id in h.objects && p in h.objects[id].fields ==> RefsIn(h.objects[id].fields[p], h.objects.Keys)
  }

  /** The depth budget for a relation one level down; `None` is unbounded. */
  function Decrement(depth: Option<int>): Option<int>
  {
    if depth.Some? then Some(depth.value - 1) else None
  }

  /** PHP's `$a[$k] = $v`: replace the value of an existing key in place, or append. */
  function Put(es: seq<(Key, Value)>, k: Key, v: Value): (r: seq<(Key, Value)>)
  {
    if es == [] then [(k, v)]
    else if es[0].0 == k then [(k, v)] + es[1..]
    else [es[0]] + Put(es[1..], k, v)
  }

  /** `supportsNormalization`: an object whose class is a vertex of the graph. */
  predicate SupportsNormalization(g: Option<Graph>, h: Heap, data: Value): (r: bool)
    ensures r ==> data.Ref? && data.id in h.objects && g.Some?
    ensures g.Some? && data.Ref? && data.id in h.objects ==>
              (r <==> h.objects[data.id].cls in g.value.vertices)
  {
    data.Ref? && g.Some? && data.id in h.objects && h.objects[data.id].cls in g.value.vertices
  }

  /** How many objects are not yet on the path being normalized. */
  function Unvisited(h: Heap, visited: set<ObjId>): nat
  {
    |h.objects.Keys - visited|
  }

  lemma UnvisitedShrinks(h: Heap, visited: set<ObjId>, o: ObjId)
    requires o in h.objects && o !in visited
    ensures Unvisited(h, visited + {o}) < Unvisited(h, visited)
  {
    var before, after := h.objects.Keys - visited, h.objects.Keys - (visited + {o});
    assert before == after + {o} && o !in after;
    assert |before| == |after| + 1;
  }

  /** The state of the loop over properties: still collecting, or returned early. */
  datatype Fold = Going(entries: seq<(Key, Value)>) | Halted(result: Result<Value, Error>)

  /**
   * `normalize` for object `o`, with depth budget `depth` and the objects
   * `visited` on the path from the root: the placeholder for an object
   * already on the path, `null` for one that is not a vertex, otherwise the
   * array the property loop builds.
   */
  function NormalizedObject(rt: Runtime, g: Option<Graph>, h: Heap, o: ObjId, depth: Option<int>, visited: set<ObjId>)
    : Result<Value, Error>
    requires Closed(h) && o in h.objects
    decreases Unvisited(h, visited), 1
  {
    var obj := h.objects[o];
    if o in visited then Success(Str(CircularReferenceHandler(rt, obj)))
    else if g.None? || obj.cls !in g.value.vertices then Success(Null)
    else
      match NormalizedFields(rt, g.value, h, o, depth, visited, rt.getProperties(obj.cls))
      case Going(es) => Success(Arr(es))
      case Halted(r) => r
  }

  /** The property loop of `normalize` over the properties `props`. */
  function NormalizedFields(rt: Runtime, g: Graph, h: Heap, o: ObjId, depth: Option<int>, visited: set<ObjId>,
                            props: seq<PropertyName>): Fold
    requires Closed(h) && o in h.objects && o !in visited && h.objects[o].cls in g.vertices
    decreases Unvisited(h, visited), 0, |props|
  {
    if props == [] then Going([])
    else
      var acc := NormalizedFields(rt, g, h, o, depth, visited, props[..|props| - 1]);
      if acc.Halted? then acc
      else NormalizedField(rt, g, h, o, depth, visited, acc.entries, props[|props| - 1])
  }

  /**
   * One turn of the property loop: skip a property without an edge; for a
   * relation or collection edge, return the placeholder when the budget is
   * spent, else normalize the value one level down; for a value edge,
   * normalize the value with the budget unchanged.
   */
  function NormalizedField(rt: Runtime, g: Graph, h: Heap, o: ObjId, depth: Option<int>, visited: set<ObjId>,
                           entries: seq<(Key, Value)>, p: PropertyName): Fold
    requires Closed(h) && o in h.objects && o !in visited && h.objects[o].cls in g.vertices
    decreases Unvisited(h, visited), 0, 0
  {
    var obj := h.objects[o];
    var edge := FirstEdgeNamed(g.vertices[obj.cls].edges, p);
    if edge.Some? && edge.value.cls.Some? && depth.Some? && depth.value <= 0 then
      Halted(Success(Str(CircularReferenceHandler(rt, obj))))
    else if edge.Some? then
      if p !in obj.fields then Halted(Failure(UndefinedGetter(obj.cls, p)))
      else
        var d := if edge.value.cls.Some? then Decrement(depth) else depth;
        UnvisitedShrinks(h, visited, o);
        match NormalizedValue(rt, Some(g), h, obj.fields[p], d, visited + {o})
        case Failure(e) => Halted(Failure(e))
        case Success(v) => Going(Put(entries, StrKey(p), v))
    else Going(entries)
  }

  /**
   * The serializer chain's `normalize`: this normalizer for an object whose
   * class is a vertex, the other normalizers for any other object, element by
   * element for an array, and a scalar as it is.
   */
  function NormalizedValue(rt: Runtime, g: Option<Graph>, h: Heap, v: Value, depth: Option<int>, visited: set<ObjId>)
    : Result<Value, Error>
    requires Closed(h) && RefsIn(v, h.objects.Keys)
    decreases Unvisited(h, visited), 2, v
  {
    match v
    case Ref(id) =>
      if SupportsNormalization(g, h, v) then NormalizedObject(rt, g, h, id, depth, visited)
      else Success(rt.normalizeOther(h.objects[id]))
    case Arr(es) =>
      (match NormalizedEntries(rt, g, h, v, |es|, depth, visited)
       case Failure(e) => Failure(e)
       case Success(es') => Success(Arr(es')))
    case _ => Success(v)
  }

  /** The chain's loop over the first `k` entries of an array, keeping each key. */
  function NormalizedEntries(rt: Runtime, g: Option<Graph>, h: Heap, parent: Value, k: nat,
                             depth: Option<int>, visited: set<ObjId>): Result<seq<(Key, Value)>, Error>
    requires Closed(h) && parent.Arr? && k <= |parent.entries| && RefsIn(parent, h.objects.Keys)
    decreases Unvisited(h, visited), 2, parent, k
  {
    if k == 0 then Success([])
    else
      match NormalizedEntries(rt, g, h, parent, k - 1, depth, visited)
      case Failure(e) => Failure(e)
      case Success(es) =>
        match NormalizedValue(rt, g, h, parent.entries[k - 1].1, depth, visited)
        case Failure(e) => Failure(e)
        case Success(v) => Success(es + [(parent.entries[k - 1].0, v)])
  }

  /** A property loop that has returned stays returned. */
  lemma {:induction false} HaltedStays(rt: Runtime, g: Graph, h: Heap, o: ObjId, depth: Option<int>, visited: set<ObjId>,
                                       props: seq<PropertyName>, k: nat)
    requires Closed(h) && o in h.objects && o !in visited && h.objects[o].cls in g.vertices
    requires k <= |props| && NormalizedFields(rt, g, h, o, depth, visited, props[..k]).Halted?
    ensures NormalizedFields(rt, g, h, o, depth, visited, props) == NormalizedFields(rt, g, h, o, depth, visited, props[..k])
    decreases |props| - k
  {
    if k < |props| {
      assert props[..k + 1][..k] == props[..k];
      HaltedStays(rt, g, h, o, depth, visited, props, k + 1);
    } else {
      assert props[..k] == props;
    }
  }

  /** The first-match edge lookup: the loop runs over every edge and keeps the first whose name matches. */
  method FindEdge(edges: seq<Edge>, property: PropertyName) returns (edge: Option<Edge>)
    ensures edge == FirstEdgeNamed(edges, property)
  {
    edge := None;
    var i := 0;
    while i < |edges|
      invariant 0 <= i <= |edges|
      invariant edge == FirstEdgeNamed(edges[..i], property)
    {
      var item := edges[i];
      FirstEdgeNamedAppend(edges[..i], [item], property);
      assert edges[..i + 1] == edges[..i] + [item];
      if edge.None? {
        edge := if item.name == property then Some(item) else None;
      }
      i := i + 1;
    }
    assert edges[..i] == edges;
  }

  /** `normalize`. */
  method Normalize(rt: Runtime, g: Option<Graph>, h: Heap, o: ObjId, depth: Option<int>, visited: set<ObjId>)
    returns (r: Result<Value, Error>)
    requires Closed(h) && o in h.objects
    ensures r == NormalizedObject(rt, g, h, o, depth, visited)
    decreases Unvisited(h, visited), 1
  {
    var obj := h.objects[o];
    if o in visited {
      return Success(Str(CircularReferenceHandler(rt, obj)));
    }
    if g.None? || obj.cls !in g.value.vertices {
      return Success(Null);
    }
    var properties := rt.getProperties(obj.cls);
    var results: seq<(Key, Value)> := [];
    var i := 0;
    while i < |properties|
      invariant 0 <= i <= |properties|
      invariant NormalizedFields(rt, g.value, h, o, depth, visited, properties[..i]) == Going(results)
    {
      var property := properties[i];
      assert properties[..i + 1][..i] == properties[..i];
      var turn := NormalizeField(rt, g.value, h, o, depth, visited, results, property);
      if turn.Halted? {
        HaltedStays(rt, g.value, h, o, depth, visited, properties, i + 1);
        return turn.result;
      }
      results := turn.entries;
      i := i + 1;
    }
    assert properties[..i] == properties;
    r := Success(Arr(results));
  }

  /** One turn of the property loop of `normalize`, for property `property`. */
  method NormalizeField(rt: Runtime, g: Graph, h: Heap, o: ObjId, depth: Option<int>, visited: set<ObjId>,
                        results: seq<(Key, Value)>, property: PropertyName) returns (turn: Fold)
    requires Closed(h) && o in h.objects && o !in visited && h.objects[o].cls in g.vertices
    ensures turn == NormalizedField(rt, g, h, o, depth, visited, results, property)
    decreases Unvisited(h, visited), 0, 0
  {
    var obj := h.objects[o];
    var edge := FindEdge(g.vertices[obj.cls].edges, property);
    if edge.None? {
      return Going(results);
    }
    if edge.value.cls.Some? && depth.Some? && depth.value <= 0 {
      return Halted(Success(Str(CircularReferenceHandler(rt, obj))));
    }
    if property !in obj.fields {
      return Halted(Failure(UndefinedGetter(obj.cls, property)));
    }
    var newDepth := if edge.value.cls.Some? then Decrement(depth) else depth;
    UnvisitedShrinks(h, visited, o);
    var value := ChainNormalize(rt, Some(g), h, obj.fields[property], newDepth, visited + {o});
    if value.Failure? {
      return Halted(Failure(value.error));
    }
    turn := Going(Put(results, StrKey(property), value.value));
  }

  /** The serializer chain's `normalize`, as `NormalizedValue` describes it. */
  method ChainNormalize(rt: Runtime, g: Option<Graph>, h: Heap, v: Value, depth: Option<int>, visited: set<ObjId>)
    returns (r: Result<Value, Error>)
    requires Closed(h) && RefsIn(v, h.objects.Keys)
    ensures r == NormalizedValue(rt, g, h, v, depth, visited)
    decreases Unvisited(h, visited), 2, v
  {
    match v
    case Ref(id) =>
      if SupportsNormalization(g, h, v) {
        r := Normalize(rt, g, h, id, depth, visited);
      } else {
        r := Success(rt.normalizeOther(h.objects[id]));
      }
    case Arr(es) =>
      var normalized: seq<(Key, Value)> := [];
      var i := 0;
      while i < |es|
        invariant 0 <= i <= |es|
        invariant NormalizedEntries(rt, g, h, v, i, depth, visited) == Success(normalized)
      {
        var item := ChainNormalize(rt, g, h, es[i].1, depth, visited);
        if item.Failure? {
          NormalizedEntriesFailureStays(rt, g, h, v, i + 1, depth, visited);
          return Failure(item.error);
        }
        normalized := normalized + [(es[i].0, item.value)];
        i := i + 1;
      }
      r := Success(Arr(normalized));
    case _ =>
      r := Success(v);
  }

  /** An error in the chain's array loop is the loop's result. */
  lemma {:induction false} NormalizedEntriesFailureStays(rt: Runtime, g: Option<Graph>, h: Heap, parent: Value, k: nat,
                                                         depth: Option<int>, visited: set<ObjId>)
    requires Closed(h) && parent.Arr? && k <= |parent.entries| && RefsIn(parent, h.objects.Keys)
    requires NormalizedEntries(rt, g, h, parent, k, depth, visited).Failure?
    ensures NormalizedEntries(rt, g, h, parent, |parent.entries|, depth, visited)
            == NormalizedEntries(rt, g, h, parent, k, depth, visited)
    decreases |parent.entries| - k
  {
    if k < |parent.entries| {
      NormalizedEntriesFailureStays(rt, g, h, parent, k + 1, depth, visited);
    }
  }

  // ---------------------------------------------------------------- denormalize

  /** A call of the setter for `p` on object `id`: the getter for `p` then returns `v`. */
  function Set(h: Heap, id: ObjId, p: PropertyName, v: Value): (r: Heap)
    requires id in h.objects
    ensures r.objects.Keys == h.objects.Keys && r.next == h.next
    ensures r.objects[id] == h.objects[id].(fields := h.objects[id].fields[p := v])
    ensures forall j :: j in h.objects && j != id ==> r.objects[j] == h.objects[j]
  {
    Heap(h.objects[id := h.objects[id].(fields := h.objects[id].fields[p := v])], h.next)
  }

  /** `new $type()`: a fresh object of class `cls` with its default field values. */
  function Allocate(rt: Runtime, h: Heap, cls: ClassName): (r: Heap)
    requires h.Valid()
    ensures r.Valid() && r.next == h.next + 1
    ensures r.objects.Keys == h.objects.Keys + {h.next} && h.next !in h.objects
    ensures r.objects[h.next] == Obj(cls, rt.defaults(cls))
    ensures forall j :: j in h.objects ==> r.objects[j] == h.objects[j]
  {
    Heap(h.objects[h.next := Obj(cls, rt.defaults(cls))], h.next + 1)
  }

  /**
   * `supportsDenormalization`: a non-empty (so truthy) array to be turned into
   * a class that is a vertex of the graph.
   */
  predicate SupportsDenormalization(g: Option<Graph>, data: Value, cls: ClassName): (r: bool)
    ensures r ==> data.Arr? && data.entries != [] && g.Some?
    ensures g.Some? && data.Arr? && data.entries != [] ==> (r <==> cls in g.value.vertices)
  {
    data.Arr? && |data.entries| > 0 && g.Some? && cls in g.value.vertices
  }

  /** The heap `after` keeps every object of `before` as it was and is still well formed. */
  ghost predicate Grows(before: Heap, after: Heap)
  {
    after.Valid() && after.next >= before.next &&
    forall j :: j in before.objects ==> j in after.objects && after.objects[j] == before.objects[j]
  }

  /**
   * `denormalize` of `data` into class `cls`: `null` when `cls` is not a
   * vertex, otherwise a new instance whose setters the entry loop has called.
   */
  function Denormalized(rt: Runtime, g: Option<Graph>, h: Heap, data: Value, cls: ClassName)
    : (r: Result<(Heap, Value), Error>)
    requires h.Valid()
    ensures r.Success? ==> Grows(h, r.value.0)
    ensures r.Success? && (g.None? || cls !in g.value.vertices) ==> r.value == (h, Null)
    ensures r.Success? && g.Some? && cls in g.value.vertices ==>
      r.value.1 == Ref(h.next) && h.next in r.value.0.objects && r.value.0.objects[h.next].cls == cls
    decreases data, 1
  {
    if g.None? || cls !in g.value.vertices then Success((h, Null))
    else
      var h1 := Allocate(rt, h, cls);
      if !data.Arr? then Success((h1, Ref(h.next)))
      else
        match DenormalizedEntries(rt, g.value, h1, h.next, cls, data, |data.entries|)
        case Failure(e) => Failure(e)
        case Success(h2) => Success((h2, Ref(h.next)))
  }

  /** The entry loop of `denormalize` over the first `k` entries of `data`, filling object `id` of class `cls`. */
  function DenormalizedEntries(rt: Runtime, g: Graph, h: Heap, id: ObjId, cls: ClassName, data: Value, k: nat)
    : (r: Result<Heap, Error>)
    requires h.Valid() && id in h.objects && cls in g.vertices
    requires data.Arr? && k <= |data.entries|
    ensures r.Success? ==> Filled(h, r.value, id)
    decreases data, 0, k
  {
    if k == 0 then Success(h)
    else
      match DenormalizedEntries(rt, g, h, id, cls, data, k - 1)
      case Failure(e) => Failure(e)
      case Success(h1) => DenormalizedEntry(rt, g, h1, id, cls, data, k - 1)
  }

  /**
   * One turn of the entry loop, for entry `i`: an entry without an edge of
   * that name is ignored; with a setter and a relation or collection edge,
   * `null` is passed as it is and anything else is first denormalized into
   * the edge's class; otherwise the setter gets the raw value, and a missing
   * setter is an error.
   */
  function DenormalizedEntry(rt: Runtime, g: Graph, h: Heap, id: ObjId, cls: ClassName, data: Value, i: nat)
    : (r: Result<Heap, Error>)
    requires h.Valid() && id in h.objects && cls in g.vertices
    requires data.Arr? && i < |data.entries|
    ensures r.Success? ==> Filled(h, r.value, id)
    decreases data, 0, 0
  {
    var (key, value) := data.entries[i];
    var edge := if key.StrKey? then FirstEdgeNamed(g.vertices[cls].edges, key.s) else None;
    if edge.None? then Success(h)
    else
      var p := key.s;
      if rt.hasSetter(cls, p) && edge.value.cls.Some? then
        if value == Null then Success(Set(h, id, p, Null))
        else
          match DenormalizedValue(rt, g, h, value, edge.value.cls.value)
          case Failure(e) => Failure(e)
          case Success((h2, v)) => Success(Set(h2, id, p, v))
      else if rt.hasSetter(cls, p) then Success(Set(h, id, p, value))
      else Failure(UndefinedSetter(cls, p))
  }

  /**
   * `after` is `before` with object `id` filled in: well formed, still of its
   * class, and every other object of `before` as it was.
   */
  ghost predicate Filled(before: Heap, after: Heap, id: ObjId)
    requires id in before.objects
  {
    after.Valid() && after.next >= before.next && id in after.objects &&
    after.objects[id].cls == before.objects[id].cls &&
    forall j :: j in before.objects ==> j in after.objects && (j != id ==> after.objects[j] == before.objects[j])
  }

  /**
   * The serializer chain's `denormalize`: this denormalizer when it supports
   * the data, the other denormalizers otherwise.
   */
  function DenormalizedValue(rt: Runtime, g: Graph, h: Heap, v: Value, cls: ClassName)
    : (r: Result<(Heap, Value), Error>)
    requires h.Valid()
    ensures r.Success? ==> Grows(h, r.value.0)
    decreases v, 2
  {
    if SupportsDenormalization(Some(g), v, cls) then Denormalized(rt, Some(g), h, v, cls)
    else Success((h, rt.denormalizeOther(v, cls)))
  }

  /** An error in the entry loop is the loop's result. */
  lemma {:induction false} DenormalizedEntriesFailureStays(rt: Runtime, g: Graph, h: Heap, id: ObjId, cls: ClassName,
                                                           data: Value, k: nat)
    requires h.Valid() && id in h.objects && cls in g.vertices
    requires data.Arr? && k <= |data.entries|
    requires DenormalizedEntries(rt, g, h, id, cls, data, k).Failure?
    ensures DenormalizedEntries(rt, g, h, id, cls, data, |data.entries|) == DenormalizedEntries(rt, g, h, id, cls, data, k)
    decreases |data.entries| - k
  {
    if k < |data.entries| {
      DenormalizedEntriesFailureStays(rt, g, h, id, cls, data, k + 1);
    }
  }

  /** `denormalize`. */
  method Denormalize(rt: Runtime, g: Option<Graph>, h: Heap, data: Value, cls: ClassName)
    returns (r: Result<(Heap, Value), Error>)
    requires h.Valid()
    ensures r == Denormalized(rt, g, h, data, cls)
    decreases data, 1
  {
    if g.None? || cls !in g.value.vertices {
      return Success((h, Null));
    }
    var id := h.next;
    var heap := Allocate(rt, h, cls);
    if !data.Arr? {
      return Success((heap, Ref(id)));
    }
    ghost var h1 := heap;
    var i := 0;
    while i < |data.entries|
      invariant 0 <= i <= |data.entries|
      invariant DenormalizedEntries(rt, g.value, h1, id, cls, data, i) == Success(heap)
      invariant heap.Valid() && id in heap.objects
    {
      var next := DenormalizeEntry(rt, g.value, heap, id, cls, data, i);
      if next.Failure? {
        DenormalizedEntriesFailureStays(rt, g.value, h1, id, cls, data, i + 1);
        return Failure(next.error);
      }
      heap := next.value;
      i := i + 1;
    }
    r := Success((heap, Ref(id)));
  }

  /** One turn of the entry loop of `denormalize`. */
  method DenormalizeEntry(rt: Runtime, g: Graph, h: Heap, id: ObjId, cls: ClassName, data: Value, i: nat)
    returns (r: Result<Heap, Error>)
    requires h.Valid() && id in h.objects && cls in g.vertices
    requires data.Arr? && i < |data.entries|
    ensures r == DenormalizedEntry(rt, g, h, id, cls, data, i)
    decreases data, 0, 0
  {
    var (property, value) := data.entries[i];
    var edge := None;
    if property.StrKey? {
      edge := FindEdge(g.vertices[cls].edges, property.s);
    }
    if edge.None? {
      return Success(h);
    }
    var p := property.s;
    if rt.hasSetter(cls, p) && edge.value.cls.Some? {
      if value == Null {
        r := Success(Set(h, id, p, Null));
      } else {
        var item := ChainDenormalize(rt, g, h, value, edge.value.cls.value);
        if item.Failure? {
          return Failure(item.error);
        }
        r := Success(Set(item.value.0, id, p, item.value.1));
      }
    } else if rt.hasSetter(cls, p) {
      r := Success(Set(h, id, p, value));
    } else {
      r := Failure(UndefinedSetter(cls, p));
    }
  }

  /** The serializer chain's `denormalize`, as `DenormalizedValue` describes it. */
  method ChainDenormalize(rt: Runtime, g: Graph, h: Heap, v: Value, cls: ClassName)
    returns (r: Result<(Heap, Value), Error>)
    requires h.Valid()
    ensures r == DenormalizedValue(rt, g, h, v, cls)
    decreases v, 2
  {
    if SupportsDenormalization(Some(g), v, cls) {
      r := Denormalize(rt, Some(g), h, v, cls);
    } else {
      r := Success((h, rt.denormalizeOther(v, cls)));
    }
  }
}
