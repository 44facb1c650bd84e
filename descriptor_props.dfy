/** Properties of the type merge and of the edges the graph descriptor creates. */
module DescriptorProperties {
  import opened Wrappers
  import opened Graph
  import opened Permission
  import opened Descriptor

  /** Candidate `k` is the first one that has attribute `f`. */
  predicate FirstWith<T>(cs: seq<PropType>, f: PropType -> Option<T>, k: int)
  {
    0 <= k < |cs| && f(cs[k]).Some? && forall j :: 0 <= j < k ==> f(cs[j]).None?
  }

  /** The `??` fold ends in `null` exactly when no candidate has the attribute. */
  lemma {:induction false} FoldCoalesceNone<T>(cs: seq<PropType>, f: PropType -> Option<T>)
    ensures FoldCoalesce(cs, f).None? <==> forall i :: 0 <= i < |cs| ==> f(cs[i]).None?
  {
    if cs != [] {
      var n := |cs| - 1;
      FoldCoalesceNone(cs[..n], f);
      assert forall i :: 0 <= i < n ==> cs[..n][i] == cs[i];
    }
  }

  /** The `??` fold keeps the attribute of the first candidate that has one. */
  lemma {:induction false} FoldCoalesceFirst<T>(cs: seq<PropType>, f: PropType -> Option<T>, k: int)
    requires FirstWith(cs, f, k)
    ensures FoldCoalesce(cs, f) == f(cs[k])
  {
    var n := |cs| - 1;
    if k < n {
      assert cs[..n][k] == cs[k];
      FoldCoalesceFirst(cs[..n], f, k);
    } else {
      FoldCoalesceNone(cs[..n], f);
      assert forall i :: 0 <= i < n ==> cs[..n][i] == cs[i];
    }
  }

  /** The merge gives no type exactly when there are no candidates or none has a builtin type. */
  lemma MergeTypesNone(cs: seq<PropType>)
    ensures MergeTypes(cs).None? <==> (cs == [] || forall i :: 0 <= i < |cs| ==> cs[i].builtinType.None?)
  {
    FoldCoalesceNone(cs, BuiltinOf);
  }

  /**
   * Each of builtin type, class name, key type and value type of a merged
   * type comes from the first candidate that has it, independently of the
   * others; `nullable` and `collection` are always false.
   */
  lemma MergeTypesFirstWins(cs: seq<PropType>)
    requires MergeTypes(cs).Some?
    ensures !MergeTypes(cs).value.nullable && !MergeTypes(cs).value.collection
    ensures forall k :: FirstWith(cs, BuiltinOf, k) ==> MergeTypes(cs).value.builtinType == cs[k].builtinType
    ensures forall k :: FirstWith(cs, ClassNameOf, k) ==> MergeTypes(cs).value.className == cs[k].className
    ensures forall k :: FirstWith(cs, KeyTypeOf, k) ==> MergeTypes(cs).value.collectionKeyType == cs[k].collectionKeyType
    ensures forall k :: FirstWith(cs, ValueTypeOf, k) ==> MergeTypes(cs).value.collectionValueType == cs[k].collectionValueType
    ensures (forall i :: 0 <= i < |cs| ==> cs[i].className.None?) ==> MergeTypes(cs).value.className.None?
  {
    forall k | FirstWith(cs, BuiltinOf, k) ensures MergeTypes(cs).value.builtinType == cs[k].builtinType {
      FoldCoalesceFirst(cs, BuiltinOf, k);
    }
    forall k | FirstWith(cs, ClassNameOf, k) ensures MergeTypes(cs).value.className == cs[k].className {
      FoldCoalesceFirst(cs, ClassNameOf, k);
    }
    forall k | FirstWith(cs, KeyTypeOf, k) ensures MergeTypes(cs).value.collectionKeyType == cs[k].collectionKeyType {
      FoldCoalesceFirst(cs, KeyTypeOf, k);
    }
    forall k | FirstWith(cs, ValueTypeOf, k) ensures MergeTypes(cs).value.collectionValueType == cs[k].collectionValueType {
      FoldCoalesceFirst(cs, ValueTypeOf, k);
    }
    FoldCoalesceNone(cs, ClassNameOf);
  }

  /** Two candidates naming different classes: the first one's class wins. */
  lemma MergeFirstClassWins(first: PropType, second: PropType)
    requires first.builtinType.Some? && first.className.Some? && second.className.Some?
    ensures MergeTypes([first, second]).Some?
    ensures MergeTypes([first, second]).value.className == first.className
  {
    assert FirstWith([first, second], BuiltinOf, 0);
    FoldCoalesceFirst([first, second], BuiltinOf, 0);
    assert FirstWith([first, second], ClassNameOf, 0);
    MergeTypesFirstWins([first, second]);
  }

  /** Because the merged `collection` is false, only an array-typed property can get a collection edge. */
  lemma CollectionEdgeOnlyForArrays(policy: Policy, meta: Metadata, c: ClassName, p: PropertyName)
    requires PropertyEdge(policy, meta, c, p).Some? && PropertyEdge(policy, meta, c, p).value.kind == Collection
    ensures MergeTypes(meta.getTypes(c, p)).value.builtinType == Some(ArrayType)
  {
  }

  /** The properties, in order, that get an edge. */
  function EdgedProperties(policy: Policy, meta: Metadata, c: ClassName, props: seq<PropertyName>): seq<PropertyName>
  {
    if props == [] then []
    else EdgedProperties(policy, meta, c, props[..|props| - 1])
         + (if PropertyEdge(policy, meta, c, props[|props| - 1]).Some? then [props[|props| - 1]] else [])
  }

  /** The edges of one visit follow the property order, one per property that gets an edge. */
  lemma {:induction false} PropertyEdgesNames(policy: Policy, meta: Metadata, c: ClassName, props: seq<PropertyName>)
    ensures Names(PropertyEdges(policy, meta, c, props)) == EdgedProperties(policy, meta, c, props)
  {
    if props != [] {
      var n := |props| - 1;
      PropertyEdgesNames(policy, meta, c, props[..n]);
      var a := PropertyEdges(policy, meta, c, props[..n]);
      var e := PropertyEdge(policy, meta, c, props[n]);
      assert PropertyEdges(policy, meta, c, props) == a + OptionToSeq(e);
      NamesAppend(a, OptionToSeq(e));
      if e.Some? {
        assert Names([e.value]) == [props[n]];
      } else {
        assert Names([]) == [];
      }
    }
  }

  /** Every property that gets an edge is one of the listed properties. */
  lemma {:induction false} EdgedPropertiesWithin(policy: Policy, meta: Metadata, c: ClassName, props: seq<PropertyName>)
    ensures forall q :: q in EdgedProperties(policy, meta, c, props) ==> q in props
  {
    if props != [] {
      var n := |props| - 1;
      EdgedPropertiesWithin(policy, meta, c, props[..n]);
      assert forall q :: q in props[..n] ==> q in props;
    }
  }

  /** Every edge of a visit points at the leaf and carries a related class exactly when it is not a value edge. */
  lemma {:induction false} PropertyEdgesShape(policy: Policy, meta: Metadata, c: ClassName, props: seq<PropertyName>)
    ensures forall e :: e in PropertyEdges(policy, meta, c, props) ==>
              e.target == Leaf && e.name in props && (e.kind == Value <==> e.cls.None?)
  {
    if props != [] {
      var n := |props| - 1;
      PropertyEdgesShape(policy, meta, c, props[..n]);
      assert forall q :: q in props[..n] ==> q in props;
    }
  }

  /** A policy that rejects every relation yields value edges only. */
  lemma {:induction false} RejectingPolicyValueEdgesOnly(policy: Policy, meta: Metadata, c: ClassName, props: seq<PropertyName>)
    requires forall f, n, t :: !policy.isRelationPermitted(f, n, t)
    ensures forall e :: e in PropertyEdges(policy, meta, c, props) ==> e.kind == Value && e.cls.None?
  {
    if props != [] {
      RejectingPolicyValueEdgesOnly(policy, meta, c, props[..|props| - 1]);
    }
  }

  /** With distinct property names a vertex has at most one edge per name. */
  lemma OneEdgePerName(policy: Policy, meta: Metadata, c: ClassName, props: seq<PropertyName>)
    requires Distinct(props)
    ensures Distinct(Names(PropertyEdges(policy, meta, c, props)))
  {
    PropertyEdgesNames(policy, meta, c, props);
    EdgedPropertiesDistinct(policy, meta, c, props);
  }

  lemma {:induction false} EdgedPropertiesDistinct(policy: Policy, meta: Metadata, c: ClassName, props: seq<PropertyName>)
    requires Distinct(props)
    ensures Distinct(EdgedProperties(policy, meta, c, props))
  {
    if props != [] {
      var n := |props| - 1;
      assert Distinct(props[..n]);
      EdgedPropertiesDistinct(policy, meta, c, props[..n]);
      EdgedPropertiesWithin(policy, meta, c, props[..n]);
      assert props[n] !in props[..n];
    }
  }

  /**
   * Looking property `p` up by name among the edges of a visit finds exactly
   * the edge its merged type classifies it as, and nothing for a property
   * that is not listed.
   */
  lemma {:induction false} LookupFindsClassifiedEdge(policy: Policy, meta: Metadata, c: ClassName,
                                                     props: seq<PropertyName>, p: PropertyName)
    requires Distinct(props)
    ensures FirstEdgeNamed(PropertyEdges(policy, meta, c, props), p)
            == if p in props then PropertyEdge(policy, meta, c, p) else None
  {
    if props != [] {
      var n := |props| - 1;
      var a := PropertyEdges(policy, meta, c, props[..n]);
      var b := OptionToSeq(PropertyEdge(policy, meta, c, props[n]));
      assert Distinct(props[..n]);
      LookupFindsClassifiedEdge(policy, meta, c, props[..n], p);
      FirstEdgeNamedAppend(a, b, p);
      assert p in props <==> p in props[..n] || p == props[n];
      if p == props[n] {
        assert p !in props[..n];
      }
    }
  }
}
