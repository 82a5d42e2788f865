/**
 * A vertex of the graph: its id, its outgoing edges as a map from end id to
 * weight, the visited flag the searches set, and the coordinates the A*
 * heuristics measure.
 */
module Vertices {
  import opened Paths
  import Walks

  /** A position in the plane. */
  datatype Point = Point(x: int, y: int)

  function Abs(n: int): (r: nat)
    ensures r == n || r == -n
  {
    if n < 0 then -n else n
  }

  /** The taxicab (Manhattan) distance between two points. */
  function Taxicab(p: Point, q: Point): (d: int)
    ensures d >= 0
    ensures d == 0 <==> p == q
    ensures d == Abs(p.x - q.x) + Abs(p.y - q.y)
  {
    Abs(p.x - q.x) + Abs(p.y - q.y)
  }

  lemma TaxicabSymmetric(p: Point, q: Point)
    ensures Taxicab(p, q) == Taxicab(q, p)
  {
  }

  lemma TaxicabTriangle(p: Point, q: Point, r: Point)
    ensures Taxicab(p, r) <= Taxicab(p, q) + Taxicab(q, r)
  {
  }

  class Vertex {
    const id: Id
    var adj: map<Id, int>
    var visited: bool
    var x: int
    var y: int

    /** A fresh vertex with no edges, not visited, at the origin. */
    constructor(id: Id)
      ensures this.id == id && adj == map[] && !visited && x == 0 && y == 0
    {
      this.id := id;
      adj := map[];
      visited := false;
      x, y := 0, 0;
    }

    function Position(): Point
      reads this`x, this`y
    {
      Point(x, y)
    }

    /** The outgoing edges as (end id, weight) pairs. */
    function GetOutgoingEdges(): (r: set<(Id, int)>)
      reads this
      ensures forall e, w :: (e, w) in r <==> e in adj && adj[e] == w
    {
      adj.Items
    }

    /** The number of outgoing edges. */
    function Deg(): (d: nat)
      reads this
      ensures d == |GetOutgoingEdges()|
      ensures d == 0 <==> adj == map[]
    {
      |adj|
    }

    function TaxicabDistance(other: Vertex): (d: nat)
      reads this, other
      ensures d == Taxicab(Position(), other.Position())
      ensures d == 0 <==> x == other.x && y == other.y
    {
      Abs(x - other.x) + Abs(y - other.y)
    }

    /** Two vertices are equal when id, flag, coordinates and outgoing edges agree. */
    function Equals(other: Vertex): (r: bool)
      reads this, other
      ensures r <==> id == other.id && visited == other.visited && Position() == other.Position() && adj == other.adj
    {
      if id != other.id then false
      else if visited != other.visited then false
      else if x != other.x then false
      else if y != other.y then false
      else if adj.Items != other.adj.Items then
        false
      else
        ItemsDetermineMap(adj, other.adj);
        true
    }
  }

  /** A map is determined by its set of (key, value) pairs. */
  lemma ItemsDetermineMap<K, V>(m: map<K, V>, n: map<K, V>)
    requires m.Items == n.Items
    ensures m == n
  {
    forall k | k in m ensures k in n && n[k] == m[k] {
      assert (k, m[k]) in m.Items;
    }
    forall k | k in n ensures k in m {
      assert (k, n[k]) in n.Items;
    }
  }

  /** Each vertex of V is stored under its own id. */
  ghost predicate ById(V: map<Id, Vertex>)
  {
    forall id :: id in V ==> V[id].id == id
  }

  /**
   * The estimate an A* metric gives from each vertex, by its position, to the
   * target position; an id without a position gets 0.
   */
  function Estimate(metric: (Point, Point) -> int, pos: map<Id, Point>, target: Point): Id -> int
  {
    (v: Id) => if v in pos then metric(pos[v], target) else 0
  }

  /**
   * When every edge is at least as long as the taxicab distance between its
   * ends, the taxicab distance to a target is a consistent A* heuristic.
   */
  lemma TaxicabConsistent(A: Adjacency, pos: map<Id, Point>, target: Point)
    requires forall u, v :: u in A && v in A[u] ==> u in pos && v in pos && A[u][v] >= Taxicab(pos[u], pos[v])
    ensures Walks.Consistent(Edge(A), Estimate(Taxicab, pos, target))
  {
    var h := Estimate(Taxicab, pos, target);
    forall a, b | Edge(A)(a, b).Some? ensures h(a) <= Edge(A)(a, b).value + h(b) {
      assert a in A && b in A[a];
      TaxicabTriangle(pos[a], pos[b], target);
    }
  }
}
