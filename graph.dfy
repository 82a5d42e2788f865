/**
 * The graph: a map from vertex id to vertex object (the adjacency map lives
 * in the vertices), the ids in insertion order, and the vertex count.  Its
 * adjacency and its ids, as a value, are the GraphModel the operations are
 * specified against.
 */
module Graphs {
  import opened Wrappers
  import opened Walks
  import opened Paths
  import opened Measures
  import opened GraphModels
  import opened Vertices
  import opened Queues
  import opened TollQueues
  import opened BreadthFirst
  import opened BreadthSearch
  import opened AStarSearch
  import opened TollSearch

  /** Two sets of the same size, one inside the other, are the same set. */
  lemma SubsetSameSize<K>(a: set<K>, b: set<K>)
    requires a <= b && |a| == |b|
    ensures a == b
  {
    assert |b - a| == |b| - |a|;
  }

  /** Two adjacency maps of the same size are equal exactly when each entry of one has the items of the other's. */
  lemma SameItemsSameAdjacency(A: Adjacency, B: Adjacency)
    ensures (|A| == |B| && forall id | id in A :: id in B && A[id].Items == B[id].Items) <==> A == B
  {
    if |A| == |B| && forall id | id in A :: id in B && A[id].Items == B[id].Items {
      SubsetSameSize(A.Keys, B.Keys);
      forall id | id in A ensures A[id] == B[id] {
        ItemsDetermineMap(A[id], B[id]);
      }
    }
  }

  class Graph {
    var vertices: map<Id, Vertex>
    var order: seq<Id>
    var size: nat

    /** The adjacency map the vertex objects hold, by vertex id. */
    function Adj(): (A: Adjacency)
      reads this, vertices.Values`adj
      ensures A.Keys == vertices.Keys
    {
      map id | id in vertices :: vertices[id].adj
    }

    /** The graph as a value: the ids in insertion order and the adjacency map. */
    function Model(): GraphModel
      reads this, vertices.Values`adj
    {
      GraphModel(order, Adj())
    }

    /**
     * Each vertex is stored under its own id, the model is well formed (ids
     * listed once in insertion order, every edge ending at a vertex), and
     * size counts the vertices.
     */
    ghost predicate Valid()
      reads this, vertices.Values`adj
    {
      && (forall id :: id in vertices ==> vertices[id].id == id)
      && WellFormed(Model())
      && size == |order|
    }

    /** In a valid graph every edge ends at a vertex. */
    lemma ValidClosed()
      requires Valid()
      ensures Closed(Adj())
    {
    }

    /** The adjacency map is determined by the vertices and their adjacency maps. */
    lemma AdjIs(A: Adjacency)
      requires vertices.Keys == A.Keys && forall id :: id in A ==> vertices[id].adj == A[id]
      ensures Adj() == A
    {
    }

    /** An empty graph. */
    constructor()
      ensures Valid() && Model() == EmptyModel() && size == 0 && vertices == map[]
    {
      vertices := map[];
      order := [];
      size := 0;
    }

    /** size is the number of vertices. */
    lemma SizeCountsVertices()
      requires Valid()
      ensures size == |vertices| == |Adj()|
    {
      WellFormedSize(Model());
      assert vertices.Keys == Adj().Keys;
    }

    /** Stores a new vertex, with no edges, under an id not in use. */
    method NewVertex(id: Id)
      requires id !in vertices
      modifies this
      ensures id in vertices && fresh(vertices[id]) && vertices[id].id == id
      ensures vertices == old(vertices)[id := vertices[id]]
      ensures Adj() == old(Adj())[id := map[]]
      ensures order == old(order) + [id] && size == old(size) + 1
    {
      var v := new Vertex(id);
      vertices := vertices[id := v];
      order := order + [id];
      size := size + 1;
    }

    /** Sets the weight of the edge from begin to end; only that adjacency map changes. */
    method SetWeight(begin: Id, end: Id, weight: int)
      requires begin in vertices && forall id :: id in vertices ==> vertices[id].id == id
      modifies vertices.Values`adj
      ensures Adj() == old(Adj())[begin := old(Adj())[begin][end := weight]]
    {
      var b := vertices[begin];
      b.adj := b.adj[end := weight];
    }

    /** The first half of add_to_graph, for one id: a vertex with that id, created if missing. */
    method EnsureVertex(id: Id)
      requires Valid()
      modifies this
      ensures Valid() && Model() == AddVertex(old(Model()), id)
      ensures forall k :: k in old(vertices) ==> k in vertices && vertices[k] == old(vertices[k])
      ensures forall k :: k in vertices ==> k in old(vertices) || fresh(vertices[k])
    {
      if id !in vertices {
        NewVertex(id);
      }
      AddVertexKeepsWellFormed(old(Model()), id);
    }

    /**
     * add_to_graph: creates the begin vertex if there is none with that id
     * and, when an end id is given, the end vertex too, and sets the weight of
     * the edge between them (replacing the weight of an existing edge).
     */
    method AddToGraph(begin: Id, end: Option<Id>, weight: int)
      requires Valid()
      modifies this, vertices.Values`adj
      ensures Valid()
      ensures Model() == AddToModel(old(Model()), begin, end, weight)
      ensures forall id :: id in old(vertices) ==> id in vertices && vertices[id] == old(vertices[id])
      ensures forall id :: id in vertices ==> id in old(vertices) || fresh(vertices[id])
    {
      EnsureVertex(begin);
      if end.Some? {
        Connect(begin, end.value, weight);
        AddKeepsWellFormed(old(Model()), begin, end, weight);
      }
    }

    /** The second half of add_to_graph: the end vertex, created if missing, and the edge to it from begin. */
    method Connect(begin: Id, end: Id, weight: int)
      requires Valid() && begin in vertices
      modifies this, vertices.Values`adj
      ensures Model() == GraphModel(AddVertex(old(Model()), end).order,
                                    AddVertex(old(Model()), end).adj[begin := AddVertex(old(Model()), end).adj[begin][end := weight]])
      ensures forall id :: id in vertices ==> vertices[id].id == id
      ensures forall id :: id in old(vertices) ==> id in vertices && vertices[id] == old(vertices[id])
      ensures forall id :: id in vertices ==> id in old(vertices) || fresh(vertices[id])
      ensures size == |order|
    {
      EnsureVertex(end);
      SetWeight(begin, end, weight);
    }

    /** graph2matrix: the adjacency matrix, or None when there is no vertex. */
    function Graph2Matrix(): (r: Option<Matrix>)
      reads this, vertices.Values
      ensures r.None? <==> size == 0
      ensures Valid() && r.Some? ==>
        && |r.value| == size + 1
        && Headed(r.value, Model()) && HoldsEdges(r.value, Model())
        && Importable(r.value) && ImportMatrix(EmptyModel(), r.value) == Model()
    {
      if size == 0 then None
      else
        assert Valid() ==>
          (&& Headed(ExportMatrix(Model()), Model()) && HoldsEdges(ExportMatrix(Model()), Model())
           && Importable(ExportMatrix(Model())) && ImportMatrix(EmptyModel(), ExportMatrix(Model())) == Model()) by {
          if Valid() {
            ExportLaysOut(Model());
            RoundTrip(Model());
          }
        }
        Some(ExportMatrix(Model()))
    }

    /**
     * matrix2graph: adds the id heading each row, then, for every cell (i, j)
     * holding a weight, the edge from the id of row i to the id of row j.
     */
    method Matrix2Graph(m: Matrix)
      requires Valid() && Importable(m)
      modifies this, vertices.Values`adj
      ensures Valid()
      ensures Model() == ImportMatrix(old(Model()), m)
      ensures forall id :: id in old(vertices) ==> id in vertices && vertices[id] == old(vertices[id])
      ensures forall id :: id in vertices ==> id in old(vertices) || fresh(vertices[id])
    {
      AddHeaderVertices(m);
      AddAllRows(m);
    }

    /** The first loop of matrix2graph: the id heading each row, as a vertex. */
    method AddHeaderVertices(m: Matrix)
      requires Valid() && Importable(m)
      modifies this, vertices.Values`adj
      ensures Valid()
      ensures Model() == AddHeaders(old(Model()), m, |m|)
      ensures forall id :: id in old(vertices) ==> id in vertices && vertices[id] == old(vertices[id])
      ensures forall id :: id in vertices ==> id in old(vertices) || fresh(vertices[id])
    {
      if m == [] {
        return;
      }
      ghost var G := Model();
      var i := 1;
      while i < |m|
        invariant Valid() && 1 <= i <= |m|
        invariant Model() == AddHeaders(G, m, i)
        invariant forall id :: id in old(vertices) ==> id in vertices && vertices[id] == old(vertices[id])
        invariant forall id :: id in vertices ==> id in old(vertices) || fresh(vertices[id])
      {
        AddToGraph(m[i][0].id, None, 1);
        i := i + 1;
      }
    }

    /** The second loop of matrix2graph: the edges of each row. */
    method AddAllRows(m: Matrix)
      requires Valid() && Importable(m)
      modifies this, vertices.Values`adj
      ensures Valid()
      ensures Model() == AddRows(old(Model()), m, |m|)
      ensures forall id :: id in old(vertices) ==> id in vertices && vertices[id] == old(vertices[id])
      ensures forall id :: id in vertices ==> id in old(vertices) || fresh(vertices[id])
    {
      if m == [] {
        return;
      }
      ghost var H := Model();
      var i := 1;
      while i < |m|
        invariant Valid() && 1 <= i <= |m|
        invariant Model() == AddRows(H, m, i)
        invariant forall id :: id in old(vertices) ==> id in vertices && vertices[id] == old(vertices[id])
        invariant forall id :: id in vertices ==> id in old(vertices) || fresh(vertices[id])
      {
        AddRowEdges(m, i);
        i := i + 1;
      }
    }

    /** The inner loop of matrix2graph: the edges of row i, cell by cell. */
    method AddRowEdges(m: Matrix, i: nat)
      requires Valid() && Importable(m) && 1 <= i < |m|
      modifies this, vertices.Values`adj
      ensures Valid()
      ensures Model() == AddRow(old(Model()), m, i, |m|)
      ensures forall id :: id in old(vertices) ==> id in vertices && vertices[id] == old(vertices[id])
      ensures forall id :: id in vertices ==> id in old(vertices) || fresh(vertices[id])
    {
      ghost var R := Model();
      var j := 1;
      while j < |m|
        invariant Valid() && 1 <= j <= |m|
        invariant Model() == AddRow(R, m, i, j)
        invariant forall id :: id in old(vertices) ==> id in vertices && vertices[id] == old(vertices[id])
        invariant forall id :: id in vertices ==> id in old(vertices) || fresh(vertices[id])
      {
        AddCellEdge(m, i, j);
        j := j + 1;
      }
    }

    /** The body of the inner loop of matrix2graph: the edge cell (i, j) holds, if it holds a weight. */
    method AddCellEdge(m: Matrix, i: nat, j: nat)
      requires Valid() && Importable(m) && 1 <= i < |m| && 1 <= j < |m|
      modifies this, vertices.Values`adj
      ensures Valid()
      ensures Model() == AddCell(old(Model()), m, i, j)
      ensures forall id :: id in old(vertices) ==> id in vertices && vertices[id] == old(vertices[id])
      ensures forall id :: id in vertices ==> id in old(vertices) || fresh(vertices[id])
    {
      if !m[i][j].Null? {
        AddToGraph(m[i][0].id, Some(m[j][0].id), m[i][j].weight);
      }
    }

    /** unvisit_vertices: clears the visited flag of every vertex and changes nothing else. */
    method UnvisitVertices()
      requires Valid()
      modifies vertices.Values`visited
      ensures Valid() && Adj() == old(Adj())
      ensures forall id :: id in vertices ==> !vertices[id].visited
    {
      var i := 0;
      while i < |order|
        invariant 0 <= i <= |order|
        invariant forall t :: 0 <= t < i ==> !vertices[order[t]].visited
        invariant forall id :: id in vertices ==> vertices[id].adj == old(vertices[id].adj)
      {
        vertices[order[i]].visited := false;
        i := i + 1;
      }
      assert Adj() == old(Adj());
    }

    /** get_vertex_by_id: the vertex stored under id, or None. */
    function GetVertexById(id: Id): (r: Option<Vertex>)
      reads this
      ensures r.Some? <==> id in vertices
      ensures Valid() && r.Some? ==> r.value.id == id
    {
      if id in vertices then Some(vertices[id]) else None
    }

    /**
     * get_edge_by_ids: (begin, end, weight) for the edge from begin to end,
     * or None when either vertex or the edge is missing.
     */
    function GetEdgeByIds(begin: Id, end: Id): (r: Option<(Id, Id, int)>)
      reads this, vertices.Values
      ensures r.Some? ==> r.value.0 == begin && r.value.1 == end && Edge(Adj())(begin, end) == Some(r.value.2)
      ensures Edge(Adj())(begin, end).Some? && end in vertices ==> r.Some?
    {
      if begin in vertices && end in vertices then
        var adj := vertices[begin].adj;
        if end in adj then Some((begin, end, adj[end])) else None
      else None
    }

    /** get_all_edges: every (begin, end, weight) of the adjacency map. */
    function GetAllEdges(): (r: set<(Id, Id, int)>)
      reads this, vertices.Values
      ensures forall b, e, w :: (b, e, w) in r <==> Edge(Adj())(b, e) == Some(w)
    {
      set b, e | b in vertices && e in vertices[b].adj :: (b, e, vertices[b].adj[e])
    }

    /** The edges get_all_edges lists are the ones get_edge_by_ids finds. */
    lemma AllEdgesFound(b: Id, e: Id, w: int)
      requires Valid()
      ensures (b, e, w) in GetAllEdges() <==> GetEdgeByIds(b, e) == Some((b, e, w))
    {
    }

    /**
     * __eq__: the same size and number of vertices and, for each id of this
     * graph, a vertex with that id in the other graph with the same (end id,
     * weight) pairs.  Insertion order, flags and coordinates are not compared.
     */
    function Equal(other: Graph): (r: bool)
      reads this, vertices.Values, other, other.vertices.Values
      ensures Valid() && other.Valid() ==> (r <==> Adj() == other.Adj())
    {
      var r := size == other.size && |vertices| == |other.vertices|
        && forall id | id in vertices :: id in other.vertices && vertices[id].adj.Items == other.vertices[id].adj.Items;
      assert Valid() && other.Valid() ==> (r <==> Adj() == other.Adj()) by {
        if Valid() && other.Valid() {
          EqualIsSameAdjacency(other);
        }
      }
      r
    }

    lemma EqualIsSameAdjacency(other: Graph)
      requires Valid() && other.Valid()
      ensures (&& size == other.size && |vertices| == |other.vertices|
               && forall id | id in vertices :: id in other.vertices && vertices[id].adj.Items == other.vertices[id].adj.Items)
              <==> Adj() == other.Adj()
    {
      SizeCountsVertices();
      other.SizeCountsVertices();
      var A, B := Adj(), other.Adj();
      SameItemsSameAdjacency(A, B);
      assert (forall id | id in vertices :: id in other.vertices && vertices[id].adj.Items == other.vertices[id].adj.Items)
        <==> (forall id | id in A :: id in B && A[id].Items == B[id].Items);
    }

    /**
     * bfs: a breadth-first search from begin that stops when end comes off the
     * queue and builds the path from the back edges; with either id missing,
     * or with the queue run empty, it returns ([], 0).  The path has the
     * fewest edges of all paths from begin to end.  The search reads the
     * vertices' adjacency maps and changes nothing, so it runs on Adj().
     */
    method Bfs(begin: Id, end: Id) returns (path: seq<Id>, dist: int)
      requires Closed(Adj())
      ensures path == [] <==> !Reachable(Adj(), begin, end)
      ensures path == [] ==> dist == 0
      ensures path != [] ==> PathFromTo(Adj(), path, begin, end) && dist == Weight(Adj(), path)
      ensures forall p :: PathFromTo(Adj(), p, begin, end) ==> |path| <= |p|
    {
      path, dist := BreadthSearch.Bfs(Adj(), begin, end);
    }

    /** Each vertex's coordinates, by id: what the heuristic of a_star is given. */
    function Positions(): (P: map<Id, Point>)
      reads this, vertices.Values`x, vertices.Values`y
      ensures P.Keys == vertices.Keys
    {
      map id | id in vertices :: vertices[id].Position()
    }

    /** Each vertex is stored under its own id. */
    ghost predicate StoresById()
      reads this
    {
      forall id :: id in vertices ==> vertices[id].id == id
    }

    /**
     * a_star: a search from begin that stops when end comes off the queue and
     * builds the path from the back edges; with either id missing, or with the
     * queue run empty, it returns ([], 0).  An id is queued with its cost so
     * far plus the estimate metric gives from its position to end's, except
     * begin, queued with priority 0.  With non-negative weights the search
     * ends, returns a path exactly when end can be reached, and with a
     * consistent or an admissible estimate the path is a shortest one.  The
     * search reads the adjacency maps and the positions and changes only the
     * visited flags: pop sets the flag of each vertex it takes off the queue,
     * the vertices popped.  Those are begin's, end's when a path is found, and
     * only vertices reachable from begin; when end cannot be reached, they are
     * all the vertices reachable from begin.
     */
    method AStar(begin: Id, end: Id, metric: (Point, Point) -> int) returns (path: seq<Id>, dist: int, ghost popped: set<Vertex>)
      requires Valid() && NonNegativeWeights(Adj())
      modifies vertices.Values`visited
      ensures path == [] <==> !Reachable(Adj(), begin, end)
      ensures path == [] ==> dist == 0
      ensures path != [] ==> PathFromTo(Adj(), path, begin, end) && dist == Weight(Adj(), path)
      ensures end in vertices && Consistent(Edge(Adj()), Estimate(metric, Positions(), Positions()[end])) ==>
                NoLighterPath(Adj(), begin, end, dist)
      ensures end in vertices && Admissible(Edge(Adj()), Estimate(metric, Positions(), Positions()[end]), end) ==>
                NoLighterPath(Adj(), begin, end, dist)
      ensures forall v :: v in vertices.Values ==> v.visited == (old(v.visited) || v in popped)
      ensures forall v :: v in popped ==> v in vertices.Values && Reachable(Adj(), begin, v.id)
      ensures begin in vertices && end in vertices ==> vertices[begin] in popped
      ensures path != [] ==> vertices[end] in popped
      ensures path == [] && begin in vertices && end in vertices ==>
                forall x :: x in vertices && Reachable(Adj(), begin, x) ==> vertices[x] in popped
      ensures begin !in vertices || end !in vertices ==> popped == {}
    {
      ValidClosed();
      var A, P := Adj(), Positions();
      var taken;
      path, dist, taken := Search(A, vertices, P, metric, begin, end);
      assert Adj() == A && Positions() == P;
      MarkVisited(taken, A, P);
      popped := taken;
    }

    /** Sets the visited flag of the given vertices; no adjacency map or position changes. */
    method MarkVisited(popped: set<Vertex>, ghost A: Adjacency, ghost P: map<Id, Point>)
      requires popped <= vertices.Values && Adj() == A && Positions() == P
      modifies vertices.Values`visited
      ensures Adj() == A && Positions() == P
      ensures forall v :: v in vertices.Values ==> v.visited == (old(v.visited) || v in popped)
    {
      forall v | v in popped {
        v.visited := true;
      }
    }

    /**
     * tollways_algorithm: the cheapest way from start to target when up to
     * `coupons` edges may be taken at half their weight, rounded down.  It
     * returns None, the source's (None, None), when either id is missing or
     * target cannot be reached, and otherwise (cost, coupons used) for a way
     * of least cost.  The search reads the adjacency maps and changes nothing.
     */
    method TollwaysAlgorithm(start: Id, target: Id, coupons: int) returns (r: Option<(int, int)>)
      requires Valid() && NonNegativeWeights(Adj())
      ensures r.None? <==> start !in vertices || target !in vertices || !Reachable(Adj(), start, target)
      ensures r.Some? ==> Cheapest(Adj(), coupons, start, target, r.value.0, r.value.1)
    {
      ValidClosed();
      r := Tollways(Adj(), vertices, start, target, coupons);
    }
  }
}
