/**
 * The traversal graph the descriptor builds and the serializer reads: one
 * vertex per exposed class, keyed by its class name, plus the shared leaf
 * vertex "value" that every edge points at.
 */
module Graph {
  import opened Wrappers

  type ClassName = string
  type PropertyName = string
  type VertexId = string

  /** Id of the shared leaf vertex. */
  const Leaf: VertexId := "value"

  /** The `type` attribute of an edge. */
  datatype EdgeKind = Relation | Collection | Value

  /** An edge with its `name`, `class` and `type` attributes; `target` is the vertex it points at. */
  datatype Edge = Edge(target: VertexId, name: PropertyName, cls: Option<ClassName>, kind: EdgeKind)

  /**
   * A vertex with its `name` and `class` attributes (both absent on the
   * leaf) and its edges in creation order.
   */
  datatype Vertex = Vertex(name: Option<string>, cls: Option<ClassName>, edges: seq<Edge>)

  datatype Graph = Graph(vertices: map<VertexId, Vertex>)

  /** The leaf vertex as created: no attributes, no edges. */
  const LeafVertex: Vertex := Vertex(None, None, [])

  /**
   * The edge the serializer uses for a property: the first edge in order
   * whose name is `p`, if any.
   */
  function FirstEdgeNamed(edges: seq<Edge>, p: PropertyName): (r: Option<Edge>)
    ensures r.Some? ==> r.value in edges && r.value.name == p
    ensures r.None? <==> forall i :: 0 <= i < |edges| ==> edges[i].name != p
  {
    if edges == [] then None
    else if edges[0].name == p then Some(edges[0])
    else FirstEdgeNamed(edges[1..], p)
  }

  /** The name of every edge, in order. */
  function Names(edges: seq<Edge>): (r: seq<PropertyName>)
    ensures |r| == |edges|
    ensures forall i :: 0 <= i < |edges| ==> r[i] == edges[i].name
  {
    if edges == [] then [] else Names(edges[..|edges| - 1]) + [edges[|edges| - 1].name]
  }

  lemma NamesAppend(a: seq<Edge>, b: seq<Edge>)
    ensures Names(a + b) == Names(a) + Names(b)
  {
  }

  predicate Distinct<T(==)>(s: seq<T>)
  {
    forall i, j :: 0 <= i < j < |s| ==> s[i] != s[j]
  }

  /** Looking a name up in two batches of edges finds it in the first batch if it is there. */
  lemma {:induction false} FirstEdgeNamedAppend(a: seq<Edge>, b: seq<Edge>, p: PropertyName)
    ensures FirstEdgeNamed(a + b, p)
            == if FirstEdgeNamed(a, p).Some? then FirstEdgeNamed(a, p) else FirstEdgeNamed(b, p)
  {
    if a != [] {
      assert (a + b)[1..] == a[1..] + b;
      FirstEdgeNamedAppend(a[1..], b, p);
    } else {
      assert a + b == b;
    }
  }

  /** `FirstEdgeNamed` picks the edge at the least index carrying the name. */
  lemma {:induction false} FirstEdgeNamedIsFirst(edges: seq<Edge>, p: PropertyName, k: nat)
    requires k < |edges| && edges[k].name == p
    requires forall j :: 0 <= j < k ==> edges[j].name != p
    ensures FirstEdgeNamed(edges, p) == Some(edges[k])
  {
    if k > 0 {
      FirstEdgeNamedIsFirst(edges[1..], p, k - 1);
    }
  }
}
