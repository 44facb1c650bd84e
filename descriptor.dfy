/**
 * The graph descriptor: merges the type candidates of each property and
 * builds the traversal graph of the classes a permission policy exposes.
 */
module Descriptor {
  import opened Wrappers
  import opened Graph
  import opened Permission

  /** The builtin types a property type can have. */
  datatype Builtin =
    | IntType | FloatType | StringType | BoolType | ResourceType | ObjectType
    | ArrayType | NullType | FalseType | TrueType | CallableType | IterableType

  /**
   * A property type as the metadata extractors describe it. A candidate may
   * lack a builtin type; a merged type never does.
   */
  datatype PropType = PropType(
    builtinType: Option<Builtin>,
    nullable: bool,
    className: Option<ClassName>,
    collection: bool,
    collectionKeyType: Option<PropType>,
    collectionValueType: Option<PropType>)

  /**
   * The metadata source: the properties of a class in declaration order, the
   * type candidates of a property (most authoritative first), the `name` of
   * the class's entity annotation, and the camel-casing of a class name.
   */
  datatype Metadata = Metadata(
    getProperties: ClassName -> seq<PropertyName>,
    getTypes: (ClassName, PropertyName) -> seq<PropType>,
    entityName: ClassName -> Option<string>,
    camel: string -> string)

  datatype GraphError = DuplicateVertex(id: VertexId)

  function BuiltinOf(c: PropType): Option<Builtin> { c.builtinType }
  function ClassNameOf(c: PropType): Option<ClassName> { c.className }
  function KeyTypeOf(c: PropType): Option<PropType> { c.collectionKeyType }
  function ValueTypeOf(c: PropType): Option<PropType> { c.collectionValueType }

  /** PHP's `$a ?? $b`. */
  function Coalesce<T>(a: Option<T>, b: Option<T>): Option<T>
  {
    if a.Some? then a else b
  }

  /** The accumulator `$x = $x ?? f($c)` after a left-to-right pass over `cs`, starting from `null`. */
  function FoldCoalesce<T>(cs: seq<PropType>, f: PropType -> Option<T>): Option<T>
  {
    if cs == [] then None else Coalesce(FoldCoalesce(cs[..|cs| - 1], f), f(cs[|cs| - 1]))
  }

  /**
   * The merge of the type candidates of one property: no type when there
   * is no candidate or none has a builtin type; otherwise builtin type,
   * class name, key type and value type come each from the fold, while
   * `nullable` and `collection` keep their initial `false`.
   */
  function MergeTypes(cs: seq<PropType>): Option<PropType>
  {
    if cs == [] then None
    else
      match FoldCoalesce(cs, BuiltinOf)
      case None => None
      case Some(b) =>
        Some(PropType(
          Some(b), false,
          FoldCoalesce(cs, ClassNameOf),
          false,
          FoldCoalesce(cs, KeyTypeOf),
          FoldCoalesce(cs, ValueTypeOf)))
  }

  /** The six-accumulator loop that merges type candidates. */
  method SumPropertyTypes(properties: seq<PropType>) returns (r: Option<PropType>)
    ensures r == MergeTypes(properties)
    ensures r.Some? ==> r.value.builtinType.Some? && !r.value.nullable && !r.value.collection
  {
    if properties == [] {
      return None;
    }
    var builtinType: Option<Builtin> := None;
    var nullable: Option<bool> := Some(false);
    var className: Option<ClassName> := None;
    var collection: Option<bool> := Some(false);
    var collectionKeyType: Option<PropType> := None;
    var collectionValueType: Option<PropType> := None;
    var i := 0;
    while i < |properties|
      invariant 0 <= i <= |properties|
      invariant builtinType == FoldCoalesce(properties[..i], BuiltinOf)
      invariant nullable == Some(false) && collection == Some(false)
      invariant className == FoldCoalesce(properties[..i], ClassNameOf)
      invariant collectionKeyType == FoldCoalesce(properties[..i], KeyTypeOf)
      invariant collectionValueType == FoldCoalesce(properties[..i], ValueTypeOf)
    {
      var property := properties[i];
      assert properties[..i + 1][..i] == properties[..i];
      builtinType := Coalesce(builtinType, property.builtinType);
      nullable := Coalesce(nullable, Some(property.nullable));
      className := Coalesce(className, property.className);
      collection := Coalesce(collection, Some(property.collection));
      collectionKeyType := Coalesce(collectionKeyType, property.collectionKeyType);
      collectionValueType := Coalesce(collectionValueType, property.collectionValueType);
      i := i + 1;
    }
    assert properties[..i] == properties;
    if builtinType.Some? {
      r := Some(PropType(builtinType, nullable.value, className, collection.value,
                         collectionKeyType, collectionValueType));
    } else {
      r := None;
    }
  }

  /** The `name` attribute of a class vertex: the annotation's name, else the camel-cased class name. */
  function DisplayName(meta: Metadata, c: ClassName): (r: string)
    ensures meta.entityName(c).Some? ==> r == meta.entityName(c).value
    ensures meta.entityName(c).None? ==> r == meta.camel(c)
  {
    match meta.entityName(c)
    case Some(n) => n
    case None => meta.camel(c)
  }

  /** A merged type naming a class: the property holds one object (`getClassName()` is set). */
  predicate IsClassType(t: Option<PropType>)
  {
    t.Some? && t.value.className.Some?
  }

  /** The class a merged array or collection type names for its elements, if any. */
  function ElementClass(t: Option<PropType>): Option<ClassName>
  {
    if t.Some? && (t.value.builtinType == Some(ArrayType) || t.value.collection)
       && t.value.collectionValueType.Some?
    then t.value.collectionValueType.value.className
    else None
  }

  /**
   * The edge, if any, that property `p` of class `c` gets from its merged
   * type `t`: a relation edge for a class-typed property, a collection edge
   * for an array or collection of a class, each only when the policy permits
   * the relation and otherwise none; a value edge for everything else.
   */
  function EdgeFor(policy: Policy, c: ClassName, p: PropertyName, t: Option<PropType>): (r: Option<Edge>)
    ensures r.Some? ==> r.value.target == Leaf && r.value.name == p
    ensures r.Some? ==> (r.value.kind == Value <==> r.value.cls.None?)
    ensures IsClassType(t) ==>
              (r.Some? <==> policy.isRelationPermitted(c, p, t.value.className.value))
              && (r.Some? ==> r.value == Edge(Leaf, p, t.value.className, Relation))
    ensures !IsClassType(t) && ElementClass(t).Some? ==>
              (r.Some? <==> policy.isRelationPermitted(c, p, ElementClass(t).value))
              && (r.Some? ==> r.value == Edge(Leaf, p, ElementClass(t), Collection))
    ensures !IsClassType(t) && ElementClass(t).None? ==> r == Some(Edge(Leaf, p, None, Value))
    ensures r.Some? && r.value.kind == Relation ==>
              IsClassType(t) && r.value.cls == t.value.className && policy.isRelationPermitted(c, p, r.value.cls.value)
    ensures r.Some? && r.value.kind == Collection ==>
              !IsClassType(t) && ElementClass(t).Some? && r.value.cls == ElementClass(t)
              && (t.value.builtinType == Some(ArrayType) || t.value.collection)
              && policy.isRelationPermitted(c, p, r.value.cls.value)
    ensures r.None? ==>
              (if IsClassType(t) then !policy.isRelationPermitted(c, p, t.value.className.value)
               else ElementClass(t).Some? && !policy.isRelationPermitted(c, p, ElementClass(t).value))
  {
    if t.Some? && t.value.className.Some? then
      if policy.isRelationPermitted(c, p, t.value.className.value)
      then Some(Edge(Leaf, p, t.value.className, Relation))
      else None
    else if t.Some? && (t.value.builtinType == Some(ArrayType) || t.value.collection)
            && t.value.collectionValueType.Some? && t.value.collectionValueType.value.className.Some? then
      if policy.isRelationPermitted(c, p, t.value.collectionValueType.value.className.value)
      then Some(Edge(Leaf, p, t.value.collectionValueType.value.className, Collection))
      else None
    else Some(Edge(Leaf, p, None, Value))
  }

  function OptionToSeq<T>(o: Option<T>): seq<T>
  {
    if o.Some? then [o.value] else []
  }

  /** The edge property `p` of class `c` gets, from its merged candidates. */
  function PropertyEdge(policy: Policy, meta: Metadata, c: ClassName, p: PropertyName): Option<Edge>
  {
    EdgeFor(policy, c, p, MergeTypes(meta.getTypes(c, p)))
  }

  /** The edges one visit of class `c` in the edge pass creates for the properties `props`, in order. */
  function PropertyEdges(policy: Policy, meta: Metadata, c: ClassName, props: seq<PropertyName>): seq<Edge>
  {
    if props == [] then []
    else PropertyEdges(policy, meta, c, props[..|props| - 1])
         + OptionToSeq(PropertyEdge(policy, meta, c, props[|props| - 1]))
  }

  /** The edges the edge pass over `classes` gives vertex `v`: one batch per occurrence of `v`. */
  function PassEdges(policy: Policy, meta: Metadata, classes: seq<ClassName>, v: VertexId): seq<Edge>
  {
    if classes == [] then []
    else PassEdges(policy, meta, classes[..|classes| - 1], v)
         + (if classes[|classes| - 1] == v then PropertyEdges(policy, meta, v, meta.getProperties(v)) else [])
  }

  /**
   * The graph library refuses a second vertex with an existing id, so the
   * build succeeds only when no permitted class is named like the leaf and
   * no permitted class occurs twice.
   */
  predicate UniqueVertexIds(policy: Policy, classes: seq<ClassName>)
  {
    && (forall i :: 0 <= i < |classes| && policy.isPermitted(classes[i]) ==> classes[i] != Leaf)
    && (forall i, j :: 0 <= i < j < |classes| && policy.isPermitted(classes[i]) ==> classes[i] != classes[j])
  }

  /** `PassEdges` of a class listed exactly once is the batch of that one visit. */
  lemma {:induction false} PassEdgesSingle(policy: Policy, meta: Metadata, classes: seq<ClassName>, k: nat)
    requires k < |classes|
    requires forall j :: 0 <= j < |classes| && j != k ==> classes[j] != classes[k]
    ensures PassEdges(policy, meta, classes, classes[k])
            == PropertyEdges(policy, meta, classes[k], meta.getProperties(classes[k]))
  {
    var n := |classes|;
    var prefix := classes[..n - 1];
    if k == n - 1 {
      PassEdgesAbsent(policy, meta, prefix, classes[k]);
    } else {
      assert prefix[k] == classes[k];
      PassEdgesSingle(policy, meta, prefix, k);
    }
  }

  /** One more class in the edge pass adds its batch to its own vertex only. */
  lemma PassEdgesStep(policy: Policy, meta: Metadata, classes: seq<ClassName>, i: nat, v: VertexId)
    requires i < |classes|
    ensures PassEdges(policy, meta, classes[..i + 1], v)
              == PassEdges(policy, meta, classes[..i], v)
                 + (if classes[i] == v then PropertyEdges(policy, meta, v, meta.getProperties(v)) else [])
  {
    assert classes[..i + 1][..i] == classes[..i];
  }

  /** A vertex that no listed class names gets no edges from the edge pass. */
  lemma {:induction false} PassEdgesAbsent(policy: Policy, meta: Metadata, classes: seq<ClassName>, v: VertexId)
    requires v !in classes
    ensures PassEdges(policy, meta, classes, v) == []
  {
    if classes != [] {
      PassEdgesAbsent(policy, meta, classes[..|classes| - 1], v);
    }
  }

  /** The vertex pass: the leaf, then a vertex with its name and class attributes per permitted class. */
  method CreateVertices(classes: seq<ClassName>, policy: Policy, meta: Metadata)
    returns (r: Result<map<VertexId, Vertex>, GraphError>)
    ensures r.Failure? <==> !UniqueVertexIds(policy, classes)
    ensures r.Success? ==> forall v :: v in r.value <==> v == Leaf || (v in classes && policy.isPermitted(v))
    ensures r.Success? ==> Leaf in r.value && r.value[Leaf] == LeafVertex
    ensures r.Success? ==> forall v :: v in r.value && v != Leaf ==>
              r.value[v] == Vertex(Some(DisplayName(meta, v)), Some(v), [])
  {
    var vertices: map<VertexId, Vertex> := map[Leaf := LeafVertex];
    var i := 0;
    while i < |classes|
      invariant 0 <= i <= |classes|
      invariant UniqueVertexIds(policy, classes[..i])
      invariant forall v :: v in vertices <==> v == Leaf || (v in classes[..i] && policy.isPermitted(v))
      invariant Leaf in vertices && vertices[Leaf] == LeafVertex
      invariant forall v :: v in vertices && v != Leaf ==> vertices[v] == Vertex(Some(DisplayName(meta, v)), Some(v), [])
    {
      var cls := classes[i];
      assert classes[..i + 1] == classes[..i] + [cls];
      if policy.isPermitted(cls) {
        if cls in vertices {
          assert !UniqueVertexIds(policy, classes) by {
            if cls == Leaf {
              assert policy.isPermitted(classes[i]) && classes[i] == Leaf;
            } else {
              var k :| 0 <= k < i && classes[..i][k] == cls;
              assert classes[k] == classes[i];
            }
          }
          return Failure(DuplicateVertex(cls));
        }
        vertices := vertices[cls := Vertex(Some(DisplayName(meta, cls)), Some(cls), [])];
      }
      i := i + 1;
    }
    assert classes[..i] == classes;
    r := Success(vertices);
  }

  /** The branches of the property loop: the edge property `propertyName` of `cls` gets, if any. */
  method ClassifyProperty(cls: ClassName, propertyName: PropertyName, policy: Policy, meta: Metadata)
    returns (edge: Option<Edge>)
    ensures edge == PropertyEdge(policy, meta, cls, propertyName)
  {
    var property := SumPropertyTypes(meta.getTypes(cls, propertyName));
    edge := None;
    if property.Some? && property.value.className.Some? {
      if policy.isRelationPermitted(cls, propertyName, property.value.className.value) {
        edge := Some(Edge(Leaf, propertyName, property.value.className, Relation));
      }
    } else {
      var collectionValueType := if property.Some? then property.value.collectionValueType else None;
      if property.Some? && (property.value.builtinType == Some(ArrayType) || property.value.collection)
         && collectionValueType.Some? && collectionValueType.value.className.Some? {
        if policy.isRelationPermitted(cls, propertyName, collectionValueType.value.className.value) {
          edge := Some(Edge(Leaf, propertyName, collectionValueType.value.className, Collection));
        }
      } else {
        edge := Some(Edge(Leaf, propertyName, None, Value));
      }
    }
  }

  /** One visit of the edge pass: an edge per property of `cls`, appended to that vertex's edges. */
  method AddPropertyEdges(vertices: map<VertexId, Vertex>, cls: ClassName, policy: Policy, meta: Metadata)
    returns (r: map<VertexId, Vertex>)
    requires cls in vertices
    ensures r.Keys == vertices.Keys
    ensures forall v :: v in vertices && v != cls ==> r[v] == vertices[v]
    ensures r[cls] == vertices[cls].(edges := vertices[cls].edges
                                              + PropertyEdges(policy, meta, cls, meta.getProperties(cls)))
  {
    var properties := meta.getProperties(cls);
    var vertex := vertices[cls];
    var j := 0;
    while j < |properties|
      invariant 0 <= j <= |properties|
      invariant vertex == vertices[cls].(edges := vertices[cls].edges + PropertyEdges(policy, meta, cls, properties[..j]))
    {
      var propertyName := properties[j];
      assert properties[..j + 1][..j] == properties[..j];
      var edge := ClassifyProperty(cls, propertyName, policy, meta);
      ghost var before := vertex;
      if edge.Some? {
        vertex := vertex.(edges := vertex.edges + [edge.value]);
      }
      AppendEdgesTwice(vertices[cls], before, vertex, PropertyEdges(policy, meta, cls, properties[..j]), OptionToSeq(edge));
      j := j + 1;
    }
    assert properties[..j] == properties;
    r := vertices[cls := vertex];
  }

  /** Appending two batches of edges one after the other appends their concatenation. */
  lemma AppendEdgesTwice(x: Vertex, y: Vertex, z: Vertex, first: seq<Edge>, second: seq<Edge>)
    requires y == x.(edges := x.edges + first) && z == y.(edges := y.edges + second)
    ensures z == x.(edges := x.edges + (first + second))
  {
  }

  /** The edge pass after one more class, given what that class's visit did. */
  lemma EdgePassStep(vertices: map<VertexId, Vertex>, prev: map<VertexId, Vertex>, next: map<VertexId, Vertex>,
                     classes: seq<ClassName>, i: nat, policy: Policy, meta: Metadata)
    requires i < |classes| && prev.Keys == vertices.Keys
    requires forall v :: v in vertices ==>
               prev[v] == vertices[v].(edges := vertices[v].edges + PassEdges(policy, meta, classes[..i], v))
    requires classes[i] !in prev ==> next == prev
    requires classes[i] in prev ==> next.Keys == prev.Keys
    requires classes[i] in prev ==> forall v :: v in prev && v != classes[i] ==> next[v] == prev[v]
    requires classes[i] in prev ==>
               next[classes[i]] == prev[classes[i]].(edges := prev[classes[i]].edges
                                                     + PropertyEdges(policy, meta, classes[i], meta.getProperties(classes[i])))
    ensures next.Keys == vertices.Keys
    ensures forall v :: v in vertices ==>
              next[v] == vertices[v].(edges := vertices[v].edges + PassEdges(policy, meta, classes[..i + 1], v))
  {
    forall v | v in vertices
      ensures next[v] == vertices[v].(edges := vertices[v].edges + PassEdges(policy, meta, classes[..i + 1], v))
    {
      PassEdgesStep(policy, meta, classes, i, v);
      if v == classes[i] {
        var before, added := PassEdges(policy, meta, classes[..i], v), PropertyEdges(policy, meta, v, meta.getProperties(v));
        AppendEdgesTwice(vertices[v], prev[v], next[v], before, added);
      } else {
        assert next[v] == prev[v];
      }
    }
  }

  /** The edge pass: every listed class that has a vertex gets its property edges, in list order. */
  method CreateEdges(vertices: map<VertexId, Vertex>, classes: seq<ClassName>, policy: Policy, meta: Metadata)
    returns (r: map<VertexId, Vertex>)
    ensures r.Keys == vertices.Keys
    ensures forall v :: v in vertices ==>
              r[v] == vertices[v].(edges := vertices[v].edges + PassEdges(policy, meta, classes, v))
  {
    r := vertices;
    var i := 0;
    while i < |classes|
      invariant 0 <= i <= |classes|
      invariant r.Keys == vertices.Keys
      invariant forall v :: v in vertices ==>
                  r[v] == vertices[v].(edges := vertices[v].edges + PassEdges(policy, meta, classes[..i], v))
    {
      var cls := classes[i];
      ghost var prev := r;
      if cls in r {
        r := AddPropertyEdges(r, cls, policy, meta);
      }
      EdgePassStep(vertices, prev, r, classes, i, policy, meta);
      i := i + 1;
    }
    assert classes[..i] == classes;
  }

  /**
   * `generateGraph`: the leaf vertex, then a vertex per permitted class, then
   * for each class that has a vertex an edge per property as `EdgeFor` says.
   */
  method GenerateGraph(classes: seq<ClassName>, policy: Policy, meta: Metadata) returns (r: Result<Graph, GraphError>)
    ensures r.Failure? <==> !UniqueVertexIds(policy, classes)
    ensures r.Success? ==> forall v :: v in r.value.vertices <==> v == Leaf || (v in classes && policy.isPermitted(v))
    ensures r.Success? ==>
              (Leaf in r.value.vertices && r.value.vertices[Leaf] == LeafVertex.(edges := PassEdges(policy, meta, classes, Leaf)))
    ensures r.Success? ==> forall v :: v in r.value.vertices && v != Leaf ==>
              r.value.vertices[v] == Vertex(Some(DisplayName(meta, v)), Some(v),
                                            PropertyEdges(policy, meta, v, meta.getProperties(v)))
  {
    var created := CreateVertices(classes, policy, meta);
    if created.Failure? {
      return Failure(created.error);
    }
    var vertices := CreateEdges(created.value, classes, policy, meta);
    forall v | v in vertices && v != Leaf
      ensures vertices[v].edges == PropertyEdges(policy, meta, v, meta.getProperties(v))
    {
      var k :| 0 <= k < |classes| && classes[k] == v;
      forall j | 0 <= j < |classes| && j != k ensures classes[j] != classes[k] {
        if j < k {
          assert policy.isPermitted(classes[j]) ==> classes[j] != classes[k];
        } else {
          assert policy.isPermitted(classes[k]) ==> classes[k] != classes[j];
        }
      }
      PassEdgesSingle(policy, meta, classes, k);
    }
    r := Success(Graph(vertices));
  }
}
