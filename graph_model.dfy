/**
 * The graph as a value: the vertex ids in insertion order (the order a Python
 * dict iterates in) and the adjacency map.  add_to_graph and the adjacency
 * matrix format are specified here, and the matrix round trip is proved here.
 */
module GraphModels {
  import opened Wrappers
  import opened Paths
  import opened Measures

  datatype GraphModel = GraphModel(order: seq<Id>, adj: Adjacency)

  /**
   * The ids are listed once each, exactly the vertices of the map, and every
   * edge ends at a vertex.
   */
  ghost predicate WellFormed(G: GraphModel)
  {
    && Distinct(G.order)
    && (forall id :: id in G.adj <==> id in G.order)
    && (forall u, v :: u in G.adj && v in G.adj[u] ==> v in G.adj)
  }

  function EmptyModel(): (G: GraphModel)
    ensures WellFormed(G) && G.adj == map[]
  {
    GraphModel([], map[])
  }

  /** Adds a vertex with no edges, unless one with that id exists. */
  function AddVertex(G: GraphModel, id: Id): (r: GraphModel)
    ensures forall k :: k in r.adj <==> k in G.adj || k == id
    ensures forall k :: k in G.adj ==> r.adj[k] == G.adj[k]
    ensures id !in G.adj ==> r.adj[id] == map[]
    ensures r.order == G.order + if id in G.adj then [] else [id]
  {
    if id in G.adj then G else GraphModel(G.order + [id], G.adj[id := map[]])
  }

  /**
   * add_to_graph: creates the begin vertex, and the end vertex when one is
   * given, each only when absent and each at the end of the insertion order,
   * then sets the weight of the single edge from begin to end, replacing any
   * earlier weight.  No other vertex and no other edge changes.
   */
  function AddToModel(G: GraphModel, begin: Id, end: Option<Id>, weight: int): (r: GraphModel)
    ensures forall id :: id in r.adj <==> id in G.adj || id == begin || (end.Some? && id == end.value)
    ensures forall id :: id in G.adj && id != begin ==> r.adj[id] == G.adj[id]
    ensures end.None? ==> r.adj[begin] == if begin in G.adj then G.adj[begin] else map[]
    ensures end.Some? ==> r.adj[begin] == (if begin in G.adj then G.adj[begin] else map[])[end.value := weight]
    ensures r.order == G.order + (if begin in G.adj then [] else [begin])
                       + (if end.Some? && end.value !in G.adj && end.value != begin then [end.value] else [])
  {
    var G1 := AddVertex(G, begin);
    if end.None? then
      G1
    else
      var G2 := AddVertex(G1, end.value);
      GraphModel(G2.order, G2.adj[begin := G2.adj[begin][end.value := weight]])
  }

  lemma AddVertexKeepsWellFormed(G: GraphModel, id: Id)
    requires WellFormed(G)
    ensures WellFormed(AddVertex(G, id))
  {
    if id !in G.adj {
      var r := AddVertex(G, id);
      forall i, j | 0 <= i < j < |r.order| ensures r.order[i] != r.order[j] {
        if j == |G.order| {
          assert r.order[i] == G.order[i] && G.order[i] in G.adj;
        } else {
          assert r.order[i] == G.order[i] && r.order[j] == G.order[j];
        }
      }
    }
  }

  /** add_to_graph keeps the ids listed once each and every edge ending at a vertex. */
  lemma AddKeepsWellFormed(G: GraphModel, begin: Id, end: Option<Id>, weight: int)
    requires WellFormed(G)
    ensures WellFormed(AddToModel(G, begin, end, weight))
  {
    var G1 := AddVertex(G, begin);
    AddVertexKeepsWellFormed(G, begin);
    if end.Some? {
      var G2 := AddVertex(G1, end.value);
      AddVertexKeepsWellFormed(G1, end.value);
      assert AddToModel(G, begin, end, weight) == GraphModel(G2.order, G2.adj[begin := G2.adj[begin][end.value := weight]]);
    }
  }

  /** The number of vertices is the number of listed ids. */
  lemma {:induction false} WellFormedSize(G: GraphModel)
    requires WellFormed(G)
    ensures |G.adj| == |G.order|
  {
    DistinctCard(G.order);
    assert G.adj.Keys == set id | id in G.order;
  }

  // ---------------------------------------------------------------------
  // The adjacency matrix: row and column 0 hold the ids, cell (i, j) the
  // weight of the edge from the id of row i to the id of row j, or None.
  // ---------------------------------------------------------------------

  datatype Cell = Null | Label(id: Id) | Num(weight: int)

  type Matrix = seq<seq<Cell>>

  /** adj.get(v): the weight of the edge to v, or None. */
  function CellOf(row: map<Id, int>, v: Id): (c: Cell)
    ensures c.Num? <==> v in row
    ensures c.Num? ==> c.weight == row[v]
    ensures !c.Label?
  {
    if v in row then Num(row[v]) else Null
  }

  /** Row 0: None, then the ids. */
  function HeaderRow(order: seq<Id>): (row: seq<Cell>)
    ensures |row| == |order| + 1 && row[0] == Null
    ensures forall j :: 1 <= j < |row| ==> row[j] == Label(order[j - 1])
  {
    [Null] + seq(|order|, j requires 0 <= j < |order| => Label(order[j]))
  }

  /** The row of a vertex: its id, then adj.get of each id. */
  function VertexRow(id: Id, edges: map<Id, int>, order: seq<Id>): (row: seq<Cell>)
    ensures |row| == |order| + 1 && row[0] == Label(id)
    ensures forall j :: 1 <= j < |row| ==> row[j] == CellOf(edges, order[j - 1])
  {
    [Label(id)] + seq(|order|, j requires 0 <= j < |order| => CellOf(edges, order[j]))
  }

  /** The edges of a listed id; every listed id of a well-formed graph has a row. */
  function RowOf(G: GraphModel, id: Id): map<Id, int>
  {
    if id in G.adj then G.adj[id] else map[]
  }

  /**
   * The matrix graph2matrix builds (it returns None instead when there is no
   * vertex): the header row, then one row per id in insertion order.
   */
  function ExportMatrix(G: GraphModel): (m: Matrix)
    ensures |m| == |G.order| + 1 && forall i :: 0 <= i < |m| ==> |m[i]| == |m|
    ensures m[0] == HeaderRow(G.order)
    ensures forall i :: 1 <= i < |m| ==> m[i] == VertexRow(G.order[i - 1], RowOf(G, G.order[i - 1]), G.order)
  {
    var n := |G.order|;
    [HeaderRow(G.order)]
    + seq(n, i requires 0 <= i < n => VertexRow(G.order[i], RowOf(G, G.order[i]), G.order))
  }

  /**
   * What matrix2graph reads: a square matrix whose rows from 1 on start with
   * an id, and whose other cells from (1, 1) on are weights or None.
   */
  ghost predicate Importable(m: Matrix)
  {
    && (forall i :: 0 <= i < |m| ==> |m[i]| == |m|)
    && (forall i :: 1 <= i < |m| ==> m[i][0].Label?)
    && (forall i, j :: 1 <= i < |m| && 1 <= j < |m| ==> !m[i][j].Label?)
  }

  /** The first loop of matrix2graph, over rows 1 .. k - 1: adds each row's id. */
  ghost function AddHeaders(G: GraphModel, m: Matrix, k: nat): GraphModel
    requires Importable(m) && k <= |m|
  {
    if k <= 1 then G else AddToModel(AddHeaders(G, m, k - 1), m[k - 1][0].id, None, 1)
  }

  /**
   * One cell of the second loop: a weight in cell (i, j) becomes an edge from
   * the id at the head of row i to the id at the head of row j.
   */
  ghost function AddCell(G: GraphModel, m: Matrix, i: nat, j: nat): GraphModel
    requires Importable(m) && 1 <= i < |m| && 1 <= j < |m|
  {
    if m[i][j].Null? then G else AddToModel(G, m[i][0].id, Some(m[j][0].id), m[i][j].weight)
  }

  /** Cells 1 .. k - 1 of row i. */
  ghost function AddRow(G: GraphModel, m: Matrix, i: nat, k: nat): GraphModel
    requires Importable(m) && 1 <= i < |m| && k <= |m|
  {
    if k <= 1 then G else AddCell(AddRow(G, m, i, k - 1), m, i, k - 1)
  }

  /** Rows 1 .. k - 1. */
  ghost function AddRows(G: GraphModel, m: Matrix, k: nat): GraphModel
    requires Importable(m) && k <= |m|
  {
    if k <= 1 then G else AddRow(AddRows(G, m, k - 1), m, k - 1, |m|)
  }

  /** matrix2graph: all row ids first, then every cell holding a weight as an edge. */
  ghost function ImportMatrix(G: GraphModel, m: Matrix): GraphModel
    requires Importable(m)
  {
    AddRows(AddHeaders(G, m, |m|), m, |m|)
  }

  // ---------------------------------------------------------------------
  // The round trip.
  // ---------------------------------------------------------------------

  /** Rows 1 .. |order| of m are square and headed by the ids in insertion order. */
  ghost predicate Headed(m: Matrix, G: GraphModel)
  {
    && |m| == |G.order| + 1
    && (forall i :: 0 <= i < |m| ==> |m[i]| == |m|)
    && (forall i :: 1 <= i < |m| ==> m[i][0] == Label(G.order[i - 1]))
  }

  /** Cell (i, j), from (1, 1) on, is adj.get of the id heading row i for the id heading row j. */
  ghost predicate HoldsEdges(m: Matrix, G: GraphModel)
    requires Headed(m, G)
  {
    forall i, j :: 1 <= i < |m| && 1 <= j < |m| ==> m[i][j] == CellOf(RowOf(G, G.order[i - 1]), G.order[j - 1])
  }

  /** graph2matrix lays out the graph, and matrix2graph can read what it builds. */
  lemma ExportLaysOut(G: GraphModel)
    ensures Headed(ExportMatrix(G), G) && HoldsEdges(ExportMatrix(G), G)
    ensures Importable(ExportMatrix(G))
  {
    var m: Matrix := ExportMatrix(G);
    forall i, j | 1 <= i < |m| && 1 <= j < |m|
      ensures m[i][j] == CellOf(RowOf(G, G.order[i - 1]), G.order[j - 1])
    {
      assert m[i] == VertexRow(G.order[i - 1], RowOf(G, G.order[i - 1]), G.order);
    }
  }

  /** The edges of row whose end is among ids. */
  ghost function Restrict(row: map<Id, int>, ids: seq<Id>): map<Id, int>
  {
    map v | v in row && v in ids :: row[v]
  }

  lemma DistinctPrefix<K>(s: seq<K>, k: nat)
    requires Distinct(s) && 0 < k <= |s|
    ensures s[k - 1] !in s[..k - 1]
    ensures s[..k - 1] + [s[k - 1]] == s[..k]
  {
    var p := s[..k - 1];
    assert forall t :: 0 <= t < |p| ==> p[t] != s[k - 1];
  }

  /** Adding the id heading row k to the first k - 1 ids adds it at the end, with no edges. */
  lemma HeaderAddsVertex(G: GraphModel, m: Matrix, A: GraphModel, k: nat)
    requires Distinct(G.order) && Importable(m) && Headed(m, G) && 1 <= k < |m|
    requires A.order == G.order[..k - 1]
    requires forall id :: id in A.adj <==> id in G.order[..k - 1]
    requires forall id :: id in A.adj ==> A.adj[id] == map[]
    ensures AddToModel(A, m[k][0].id, None, 1).order == G.order[..k]
    ensures forall id :: id in AddToModel(A, m[k][0].id, None, 1).adj <==> id in G.order[..k]
    ensures forall id :: id in AddToModel(A, m[k][0].id, None, 1).adj ==> AddToModel(A, m[k][0].id, None, 1).adj[id] == map[]
  {
    DistinctPrefix(G.order, k);
    assert m[k][0].id == G.order[k - 1];
  }

  /** The first loop, over rows 1 .. k - 1, has added the first k - 1 ids, in order, with no edges. */
  lemma {:induction false} HeadersBuildVertices(G: GraphModel, m: Matrix, k: nat)
    requires Distinct(G.order) && Importable(m) && Headed(m, G) && 1 <= k <= |m|
    ensures AddHeaders(EmptyModel(), m, k).order == G.order[..k - 1]
    ensures forall id :: id in AddHeaders(EmptyModel(), m, k).adj <==> id in G.order[..k - 1]
    ensures forall id :: id in AddHeaders(EmptyModel(), m, k).adj ==> AddHeaders(EmptyModel(), m, k).adj[id] == map[]
  {
    if k > 1 {
      HeadersBuildVertices(G, m, k - 1);
      HeaderAddsVertex(G, m, AddHeaders(EmptyModel(), m, k - 1), k - 1);
    }
  }

  /**
   * One cell of row r, headed by u: a weight in column j becomes u's edge to
   * the id heading row j, and nothing else changes.
   */
  lemma CellAddsEdge(G: GraphModel, m: Matrix, R: GraphModel, r: nat, j: nat)
    requires Importable(m) && Headed(m, G) && 1 <= r < |m| && 1 <= j < |m|
    requires G.order[r - 1] in G.adj && G.order[j - 1] in R.adj && G.order[r - 1] in R.adj
    requires m[r][j] == CellOf(G.adj[G.order[r - 1]], G.order[j - 1])
    requires R.adj[G.order[r - 1]] == Restrict(G.adj[G.order[r - 1]], G.order[..j - 1])
    ensures AddCell(R, m, r, j).order == R.order
    ensures forall id :: id in AddCell(R, m, r, j).adj <==> id in R.adj
    ensures forall id :: id in R.adj && id != G.order[r - 1] ==> AddCell(R, m, r, j).adj[id] == R.adj[id]
    ensures AddCell(R, m, r, j).adj[G.order[r - 1]] == Restrict(G.adj[G.order[r - 1]], G.order[..j])
  {
    var u, v := G.order[r - 1], G.order[j - 1];
    assert m[r][0].id == u && m[j][0].id == v;
    assert G.order[..j] == G.order[..j - 1] + [v];
    if v in G.adj[u] {
      assert AddCell(R, m, r, j) == AddToModel(R, u, Some(v), G.adj[u][v]);
      assert Restrict(G.adj[u], G.order[..j]) == Restrict(G.adj[u], G.order[..j - 1])[v := G.adj[u][v]];
    } else {
      assert Restrict(G.adj[u], G.order[..j]) == Restrict(G.adj[u], G.order[..j - 1]);
    }
  }

  /**
   * The cells of row r from 1 to j - 1, where row r is headed by u, give u
   * exactly its edges to the first j - 1 ids, and change nothing else.
   */
  lemma {:induction false} RowBuildsEdges(G: GraphModel, m: Matrix, H: GraphModel, r: nat, j: nat)
    requires Importable(m) && Headed(m, G) && 1 <= r < |m| && 1 <= j <= |m|
    requires G.order[r - 1] in G.adj
    requires forall c :: 1 <= c < |m| ==> m[r][c] == CellOf(G.adj[G.order[r - 1]], G.order[c - 1])
    requires forall t :: 0 <= t < |G.order| ==> G.order[t] in H.adj
    requires H.adj[G.order[r - 1]] == map[]
    ensures AddRow(H, m, r, j).order == H.order
    ensures forall id :: id in AddRow(H, m, r, j).adj <==> id in H.adj
    ensures forall id :: id in H.adj && id != G.order[r - 1] ==> AddRow(H, m, r, j).adj[id] == H.adj[id]
    ensures AddRow(H, m, r, j).adj[G.order[r - 1]] == Restrict(G.adj[G.order[r - 1]], G.order[..j - 1])
  {
    if j == 1 {
      assert Restrict(G.adj[G.order[r - 1]], G.order[..0]) == map[];
    } else {
      RowBuildsEdges(G, m, H, r, j - 1);
      CellAddsEdge(G, m, AddRow(H, m, r, j - 1), r, j - 1);
    }
  }

  /** Every edge of a well-formed graph ends at a listed id, so restricting to all ids keeps it. */
  lemma RestrictToAll(G: GraphModel, u: Id)
    requires WellFormed(G) && u in G.adj
    ensures Restrict(G.adj[u], G.order) == G.adj[u]
  {
  }

  /** Row k of a matrix holding G's edges holds the edges of the id heading it. */
  lemma RowHoldsEdges(G: GraphModel, m: Matrix, k: nat)
    requires Headed(m, G) && HoldsEdges(m, G) && 1 <= k < |m| && G.order[k - 1] in G.adj
    ensures forall c :: 1 <= c < |m| ==> m[k][c] == CellOf(G.adj[G.order[k - 1]], G.order[c - 1])
  {
  }

  /** Row k, headed by the (k - 1)-th id, gives that id its edges and leaves the other ids alone. */
  lemma RowFillsVertex(G: GraphModel, m: Matrix, R: GraphModel, k: nat)
    requires WellFormed(G) && Importable(m) && Headed(m, G) && HoldsEdges(m, G) && 1 <= k < |m|
    requires forall id :: id in R.adj <==> id in G.adj
    requires forall t :: 0 <= t < k - 1 ==> R.adj[G.order[t]] == G.adj[G.order[t]]
    requires forall t :: k - 1 <= t < |G.order| ==> R.adj[G.order[t]] == map[]
    ensures AddRow(R, m, k, |m|).order == R.order
    ensures forall id :: id in AddRow(R, m, k, |m|).adj <==> id in G.adj
    ensures forall t :: 0 <= t < k ==> AddRow(R, m, k, |m|).adj[G.order[t]] == G.adj[G.order[t]]
    ensures forall t :: k <= t < |G.order| ==> AddRow(R, m, k, |m|).adj[G.order[t]] == map[]
  {
    var u := G.order[k - 1];
    RowHoldsEdges(G, m, k);
    RestrictToAll(G, u);
    assert G.order[..|G.order|] == G.order;
    RowBuildsEdges(G, m, R, k, |m|);
    FillsVertex(G, R, AddRow(R, m, k, |m|), k);
  }

  /** A that gives the (k - 1)-th id its edges in G and keeps R's other entries fills one more id. */
  lemma FillsVertex(G: GraphModel, R: GraphModel, A: GraphModel, k: nat)
    requires WellFormed(G) && 1 <= k <= |G.order|
    requires forall id :: id in R.adj <==> id in G.adj
    requires forall t :: 0 <= t < k - 1 ==> R.adj[G.order[t]] == G.adj[G.order[t]]
    requires forall t :: k - 1 <= t < |G.order| ==> R.adj[G.order[t]] == map[]
    requires forall id :: id in A.adj <==> id in R.adj
    requires forall id :: id in R.adj && id != G.order[k - 1] ==> A.adj[id] == R.adj[id]
    requires A.adj[G.order[k - 1]] == G.adj[G.order[k - 1]]
    ensures forall id :: id in A.adj <==> id in G.adj
    ensures forall t :: 0 <= t < k ==> A.adj[G.order[t]] == G.adj[G.order[t]]
    ensures forall t :: k <= t < |G.order| ==> A.adj[G.order[t]] == map[]
  {
    forall t | 0 <= t < |G.order| && t != k - 1 ensures A.adj[G.order[t]] == R.adj[G.order[t]] {
      assert G.order[t] != G.order[k - 1];
    }
  }

  /** Rows 1 .. k - 1 give the first k - 1 ids their edges; the other ids have none yet. */
  lemma {:induction false} RowsBuildEdges(G: GraphModel, m: Matrix, H: GraphModel, k: nat)
    requires WellFormed(G) && Importable(m) && Headed(m, G) && HoldsEdges(m, G) && 1 <= k <= |m|
    requires forall id :: id in H.adj <==> id in G.adj
    requires forall id :: id in H.adj ==> H.adj[id] == map[]
    ensures AddRows(H, m, k).order == H.order
    ensures forall id :: id in AddRows(H, m, k).adj <==> id in G.adj
    ensures forall t :: 0 <= t < k - 1 ==> AddRows(H, m, k).adj[G.order[t]] == G.adj[G.order[t]]
    ensures forall t :: k - 1 <= t < |G.order| ==> AddRows(H, m, k).adj[G.order[t]] == map[]
  {
    if k > 1 {
      RowsBuildEdges(G, m, H, k - 1);
      RowFillsVertex(G, m, AddRows(H, m, k - 1), k - 1);
    }
  }

  /** A model that lists the same ids and gives each of them the same edges is the same model. */
  lemma SameModel(G: GraphModel, R: GraphModel)
    requires WellFormed(G) && R.order == G.order
    requires forall id :: id in R.adj <==> id in G.adj
    requires forall t :: 0 <= t < |G.order| ==> R.adj[G.order[t]] == G.adj[G.order[t]]
    ensures R == G
  {
    forall id | id in G.adj ensures R.adj[id] == G.adj[id] {
      var t :| 0 <= t < |G.order| && G.order[t] == id;
    }
  }

  /**
   * Exporting a graph with at least one vertex to a matrix and importing that
   * matrix into an empty graph gives the same ids, in the same order, with the
   * same edges.
   */
  lemma RoundTrip(G: GraphModel)
    requires WellFormed(G) && |G.order| > 0
    ensures Importable(ExportMatrix(G))
    ensures ImportMatrix(EmptyModel(), ExportMatrix(G)) == G
  {
    ExportLaysOut(G);
    ImportRebuilds(G, ExportMatrix(G));
  }

  /** Importing, into an empty graph, a matrix that lays out G gives G. */
  lemma ImportRebuilds(G: GraphModel, m: Matrix)
    requires WellFormed(G) && Importable(m) && Headed(m, G) && HoldsEdges(m, G)
    ensures ImportMatrix(EmptyModel(), m) == G
  {
    HeadersListVertices(G, m);
    RowsRebuild(G, m, AddHeaders(EmptyModel(), m, |m|));
  }

  /** The first loop of matrix2graph, over a matrix that lays out G, lists G's ids, with no edges yet. */
  lemma HeadersListVertices(G: GraphModel, m: Matrix)
    requires WellFormed(G) && Importable(m) && Headed(m, G)
    ensures AddHeaders(EmptyModel(), m, |m|).order == G.order
    ensures forall id :: id in AddHeaders(EmptyModel(), m, |m|).adj <==> id in G.adj
    ensures forall id :: id in AddHeaders(EmptyModel(), m, |m|).adj ==> AddHeaders(EmptyModel(), m, |m|).adj[id] == map[]
  {
    HeadersBuildVertices(G, m, |m|);
    assert G.order[..|m| - 1] == G.order;
  }

  /** The second loop of matrix2graph, from G's ids with no edges, rebuilds G. */
  lemma RowsRebuild(G: GraphModel, m: Matrix, H: GraphModel)
    requires WellFormed(G) && Importable(m) && Headed(m, G) && HoldsEdges(m, G)
    requires H.order == G.order
    requires forall id :: id in H.adj <==> id in G.adj
    requires forall id :: id in H.adj ==> H.adj[id] == map[]
    ensures AddRows(H, m, |m|) == G
  {
    RowsBuildEdges(G, m, H, |m|);
    SameModel(G, AddRows(H, m, |m|));
  }
}
