# Directed weighted graph with BFS, A* and toll-coupon search

A model, in Dafny, of the graph module `solution_05.py`:

- A directed weighted graph. It is a map from vertex id to `Vertex` object, and each vertex holds its own
  adjacency map from neighbour id to weight. Vertices are stored in insertion order and counted in `size`.
- Three path searches over the graph:
  - a breadth-first search;
  - an A* search driven by a heuristic over vertex coordinates;
  - a Dijkstra-style search, `tollways_algorithm`, over (vertex, coupons used) states. A coupon lets one
    edge be taken at half its weight, rounded down.
- The two lazy-deletion priority queues the last two searches use. Each is a heap of
  `[priority, …, counter, vertex]` entries plus a locator from key to entry. `update` invalidates the
  located entry by clearing its vertex and pushes a new one. `pop` skips invalidated entries, and takes
  out the invalidated entries it leaves at the head.

Layout, by module:

- `Vertices` (vertex.dfy): the `Vertex` class, with its degree, outgoing edges, taxicab distance and
  equality.
- `GraphModels` (graph_model.dfy): the graph as a value, `GraphModel(order, adj)`.
  - `add_to_graph` on that value.
  - The adjacency-matrix format that `graph2matrix` writes and `matrix2graph` reads, with the round trip
    between them.
- `Graphs` (graph.dfy): the `Graph` class. It has the fields `vertices`, `order` and `size`, and each
  mutator is proved against the `GraphModels` function it implements.
- `Paths` and `Walks` (paths.dfy, walks.dfy):
  - paths and their weights, and `build_path`;
  - the state graph of the toll search;
  - the generic Dijkstra facts both weighted searches rest on: walks over a step function, and the
    optimality of the least queued entry under a consistent heuristic, and a queued vertex on every
    lightest path under an admissible one.
- `Queues` and `TollQueues` (queues.dfy, tollqueue.dfy): the two priority queues. Each is a class over
  `data`, `locator` and `counter`, plus functions on those three parts that the searches use.
- `BreadthFirst` and `BreadthSearch` (bfs.dfy, search_bfs.dfy): `bfs` and its invariants.
- `AStarSearch` (astar.dfy): `a_star` and its invariants.
- `TollSearch` (search_toll.dfy): `tollways_algorithm`, its invariants, and the properties of its answer.
- `Scenarios` (scenarios.dfy): three small graphs and what each operation gives on them. The answers follow
  from the contracts alone.

Weights are `int`. The weighted searches require non-negative weights. Under that assumption, Python's
`weight // 2` is Dafny's `/`.

The searches are methods over the adjacency map as a value. `Graph.Bfs`, `Graph.AStar` and
`Graph.TollwaysAlgorithm` run them on the graph's own `Adj()`. This is sound because the searches only
read the adjacency maps. A* also sets visited flags, and `Graph.AStar` states that.

On A→B (1), B→C (1), A→C (5), `bfs(A, C)` returns the path with the fewest edges, `(["A", "C"], 5)`,
not the lighter `(["A", "B", "C"], 2)` (`Scenarios.BfsOnTriangle`). `a_star` with the zero heuristic
returns `(["A", "B", "C"], 2)` (`Scenarios.AStarOnTriangle`).

## Model

| member | source | states |
|---|---|---|
| Vertices.Taxicab | solution_05.py:104-110 | the taxicab distance is non-negative and zero exactly for the same point |
| Vertices.TaxicabSymmetric | solution_05.py:104-110 | the taxicab distance does not depend on the order of its arguments |
| Vertices.TaxicabTriangle | solution_05.py:104-110 | the taxicab distance obeys the triangle inequality |
| Vertices.Vertex.constructor | solution_05.py:24-34 | a new vertex has the given id, no edges, is not visited, and sits at the origin |
| Vertices.Vertex.GetOutgoingEdges | solution_05.py:89-94 | (end, weight) is returned exactly when the vertex has an edge to end of that weight |
| Vertices.Vertex.Deg | solution_05.py:82-87 | the degree is the number of outgoing edges, and zero exactly when there is none |
| Vertices.Vertex.TaxicabDistance | solution_05.py:104-110 | the distance between two vertices is the taxicab distance of their positions, zero exactly when the coordinates agree |
| Vertices.Vertex.Equals | solution_05.py:36-63 | true exactly when id, visited flag, both coordinates and the adjacency map all agree |
| Vertices.ItemsDetermineMap | solution_05.py:57 | comparing the sets of (key, value) pairs, as `__eq__` does, is comparing the maps |
| Vertices.TaxicabConsistent | solution_05.py:380-427 | when every edge is at least as long as the taxicab distance between its ends, the taxicab distance to the target is a consistent A* heuristic |
| GraphModels.EmptyModel | solution_05.py:126-127 | the empty graph is well formed and has no vertex |
| GraphModels.AddVertex | solution_05.py:243-249 | a vertex is added with no edges, at the end of the insertion order, only when its id is absent; existing vertices keep their edges |
| GraphModels.AddToModel | solution_05.py:232-250 | add_to_graph creates the begin vertex and the end vertex only when absent, in that order; it sets or overwrites the single begin→end weight; no other vertex or edge changes |
| GraphModels.AddKeepsWellFormed | solution_05.py:232-250 | add_to_graph keeps each id listed once, the listed ids the vertices, and every edge ending at a vertex |
| GraphModels.WellFormedSize | solution_05.py:243-249 | in a well-formed graph the number of listed ids, the count size keeps, is the number of vertices |
| GraphModels.CellOf | solution_05.py:278 | a cell holds the edge's weight when the edge exists, and None otherwise |
| GraphModels.HeaderRow | solution_05.py:276 | the header row is None followed by the ids in insertion order |
| GraphModels.VertexRow | solution_05.py:277-278 | a vertex row is its id followed by the cell for each id in insertion order |
| GraphModels.ExportMatrix | solution_05.py:271-279 | graph2matrix gives an (n+1)×(n+1) matrix: the header row, then one row per id in insertion order |
| GraphModels.ExportLaysOut | solution_05.py:271-279 | the exported matrix is headed by the ids in insertion order, and cell (i, j) holds adj.get of row i's id for row j's id; matrix2graph accepts it |
| GraphModels.HeadersListVertices | solution_05.py:264-265 | the first loop of matrix2graph, on a matrix laying out G, lists G's ids in G's order, each with no edges |
| GraphModels.RowsRebuild | solution_05.py:266-269 | the second loop of matrix2graph then rebuilds exactly G's edges |
| GraphModels.ImportRebuilds | solution_05.py:252-269 | matrix2graph into an empty graph, of any matrix laying out G, gives G |
| GraphModels.RoundTrip | solution_05.py:252-279 | for a graph with at least one vertex, matrix2graph of graph2matrix into an empty graph gives the same ids in the same order with the same edges |
| Graphs.SameItemsSameAdjacency | solution_05.py:146-163 | two adjacency maps of equal size in which each vertex of one has the same (end, weight) pairs in the other are equal, and conversely |
| Graphs.Graph.constructor | solution_05.py:118-139 | a new graph is valid and empty, with size 0 |
| Graphs.Graph.SizeCountsVertices | solution_05.py:243-249 | size equals the number of vertices |
| Graphs.Graph.NewVertex | solution_05.py:244-245 | a fresh vertex with no edges is stored under a new id, appended to the order, and size grows by one |
| Graphs.Graph.SetWeight | solution_05.py:250 | only the begin vertex's adjacency changes, and only at end |
| Graphs.Graph.EnsureVertex | solution_05.py:243-249 | the graph's model becomes AddVertex of the old one; existing vertex objects are kept and new ones are fresh |
| Graphs.Graph.AddToGraph | solution_05.py:232-250 | the graph stays valid (size counts the vertices) and its model becomes AddToModel of the old one; existing vertex objects are kept and new ones are fresh |
| Graphs.Graph.Connect | solution_05.py:246-250 | the end vertex is added if absent and the begin→end weight set |
| Graphs.Graph.Graph2Matrix | solution_05.py:271-279 | None exactly when size is 0; otherwise an (n+1)×(n+1) matrix laying out the graph, which matrix2graph turns back into the same graph |
| Graphs.Graph.Matrix2Graph | solution_05.py:252-269 | the graph's model becomes ImportMatrix of the old one: the row ids first, then every cell holding a weight as an edge |
| Graphs.Graph.AddHeaderVertices | solution_05.py:264-265 | the first loop adds the id heading each row |
| Graphs.Graph.AddAllRows | solution_05.py:266-269 | the second loop adds the edges of every row |
| Graphs.Graph.AddRowEdges | solution_05.py:267-269 | the inner loop adds the edges of one row, cell by cell |
| Graphs.Graph.AddCellEdge | solution_05.py:268-269 | a cell adds the edge from its row's id to the id heading its column's row, unless it holds None |
| Graphs.Graph.UnvisitVertices | solution_05.py:294-300 | every vertex ends unvisited and no adjacency changes |
| Graphs.Graph.GetVertexById | solution_05.py:302-308 | a vertex is returned exactly when the id is present, and it has that id |
| Graphs.Graph.GetEdgeByIds | solution_05.py:317-325 | (begin, end, w) is returned only for an edge of weight w; an edge to an existing vertex is always found |
| Graphs.Graph.GetAllEdges | solution_05.py:327-333 | (b, e, w) is returned exactly when there is an edge from b to e of weight w |
| Graphs.Graph.AllEdgesFound | solution_05.py:317-333 | get_all_edges lists exactly the triples get_edge_by_ids returns |
| Graphs.Graph.Equal | solution_05.py:141-164 | two valid graphs are equal exactly when their adjacency maps are equal (insertion order, flags and coordinates are not compared) |
| Graphs.Graph.EqualIsSameAdjacency | solution_05.py:141-164 | the size check and the per-vertex comparison of (end, weight) sets together decide adjacency equality |
| Graphs.Graph.Bfs | solution_05.py:351-378 | no path (and 0) exactly when end cannot be reached from begin; otherwise a path from begin to end with its weight and the fewest edges of any such path |
| Graphs.Graph.AStar | solution_05.py:380-427 | no path (and 0) exactly when end cannot be reached; otherwise a path from begin to end with its weight, a lightest one when the estimate is consistent and when it is admissible; the visited flags become the old ones or membership in the vertices popped, which include begin (when both ids exist), end when a path is found, only vertices reachable from begin, and every such vertex when end cannot be reached; none is popped when an id is missing |
| Graphs.Graph.MarkVisited | solution_05.py:537 | the vertices the search took off the queue become visited; nothing else changes |
| Graphs.Graph.TollwaysAlgorithm | solution_05.py:429-471 | None exactly when an id is missing or the target cannot be reached; otherwise the least toll cost of reaching the target and the fewest coupons any way of that cost uses |
| Paths.OutsideUnreachable | solution_05.py:359-360 | with either id missing there is no path, which is why the early returns give the no-path answer |
| Paths.Reverse | solution_05.py:349 | the reversed list has the elements in the opposite order |
| Paths.BuildPath | solution_05.py:335-349 | given back edges leading from end to begin: the ids along them in path order, a path from begin to end, its weight, and one id more than the length of the chain |
| Paths.BackChainUnique | solution_05.py:346-347 | the chain of back edges from an id has only one length |
| Paths.TollStepNonNegative | solution_05.py:455-459 | with non-negative weights both the full-price and the coupon step cost nothing negative |
| Paths.ZeroBudgetWalk | solution_05.py:456-457 | with no coupons to spend a toll walk never uses one, and its cost is the weight of the path it follows |
| Paths.ZeroBudgetPath | solution_05.py:454-463 | every path of the graph is a toll walk at full price with the same cost |
| Paths.CouponsInRange | solution_05.py:456-466 | along a toll walk from no coupons, the coupon count never drops and stays between 0 and the budget |
| Paths.ProjectWalk | solution_05.py:454-469 | the vertices a toll walk passes through form a path of the graph |
| Walks.PopOptimal | solution_05.py:409-413 | under a consistent estimate, the least entry off the queue has a cost no higher than any walk to a vertex not yet settled |
| Walks.ConsistentAlong | solution_05.py:420-421 | along a walk a consistent estimate drops by at most the walk's cost |
| Walks.ConsistentAdmissible | solution_05.py:420-421 | a consistent estimate that is 0 at the target never overestimates the cost to the target |
| Walks.OpenOnWalk | solution_05.py:409-425 | with every closed state that is not reopened relaxed, a walk to a state not closed passes an open state whose cost is at most the walk's cost up to it |
| Queues.MinNode | solution_05.py:535 | the index of an entry no greater, by (priority, counter), than any other: the one heappop returns |
| Queues.Tombstone | solution_05.py:550 | the entry with the given counter, and only it, loses its vertex |
| Queues.InvalidateKeeps | solution_05.py:549-551 | invalidating the located entry of an id and forgetting the id keeps the queue invariant and removes exactly that live entry |
| Queues.SkipInvalid | solution_05.py:532-535 | the first live entry by (priority, counter) comes out, or the heap runs empty when there is none |
| Queues.DrainInvalid | solution_05.py:538-539 | invalidated entries at the head are taken out, and the live entries stay |
| Queues.LocatedLive | solution_05.py:507-512 | with an id located the heap holds a live entry |
| Queues.PushEntry | solution_05.py:514-524 | a new entry with the next counter is appended and becomes the located entry of its id |
| Queues.UpdateEntry | solution_05.py:542-551 | the located entry is invalidated and a new entry with the new priority pushed; one live entry per id is kept |
| Queues.PopEntry | solution_05.py:526-540 | the least live entry comes out and its id leaves the locator; KeyError when its id is not located; IndexError when no live entry is left |
| Queues.PriorityQueue.constructor | solution_05.py:483-489 | the new queue is empty, with counter 0 |
| Queues.PriorityQueue.Empty | solution_05.py:507-512 | under the invariants, empty exactly when no id is located |
| Queues.PriorityQueue.Push | solution_05.py:514-524 | push appends a new entry with the next counter and locates it |
| Queues.PriorityQueue.Update | solution_05.py:542-551 | update invalidates the located entry and pushes one with the new priority |
| Queues.PriorityQueue.Pop | solution_05.py:526-540 | pop takes out the least live entry, forgets its id, marks its vertex visited, and leaves a live entry at the head |
| TollQueues.MinTollNode | solution_05.py:616 | the index of the least entry by (priority, coupons, counter) |
| TollQueues.TollTombstone | solution_05.py:631 | the entry with the given counter, and only it, loses its vertex |
| TollQueues.TollInvalidateKeeps | solution_05.py:630-632 | invalidating the located entry of a key keeps the queue invariant and removes exactly that live entry |
| TollQueues.SkipInvalidTolls | solution_05.py:614-616 | the first live entry by (priority, coupons, counter) comes out, or the heap runs empty |
| TollQueues.DrainInvalidTolls | solution_05.py:618-619 | invalidated entries at the head are taken out, and the live entries stay |
| TollQueues.TollLocatedLive | solution_05.py:586-591 | with a key located the heap holds a live entry |
| TollQueues.TollPushEntry | solution_05.py:593-604 | a new entry is appended and becomes the located entry of its (id, coupons) key |
| TollQueues.TollUpdateEntry | solution_05.py:622-632 | the key's located entry is invalidated and a new one pushed |
| TollQueues.TollPopEntry | solution_05.py:606-620 | the least live entry comes out and its key leaves the locator; KeyError, after the entry is taken out, when the key is not located; IndexError when no live entry is left |
| TollQueues.TollWayPriorityQueue.constructor | solution_05.py:562-568 | the new queue is empty, with counter 0 |
| TollQueues.TollWayPriorityQueue.Empty | solution_05.py:586-591 | empty implies no key is located, and, with a live entry in every non-empty heap, empty exactly when no live entry is left |
| TollQueues.TollWayPriorityQueue.Push | solution_05.py:593-604 | push appends a new entry and locates it under its key |
| TollQueues.TollWayPriorityQueue.Update | solution_05.py:622-632 | update invalidates the key's entry and pushes one with the new priority |
| TollQueues.TollWayPriorityQueue.Pop | solution_05.py:606-620 | pop takes out the least live entry and forgets its key, or raises KeyError or IndexError as the source does; visited flags are untouched |
| BreadthFirst.FrontierFound | solution_05.py:369-370 | when end comes off the queue, its depth is at most the edge count of every path to it |
| BreadthFirst.FrontierEmpty | solution_05.py:378 | when the queue runs empty without end, end cannot be reached |
| BreadthSearch.Follow | solution_05.py:373-376 | an unseen neighbour is marked seen, given its back edge and enqueued; a seen one is not enqueued again |
| BreadthSearch.ExpandEdges | solution_05.py:372-376 | the inner loop handles every edge out of the current vertex |
| BreadthSearch.Visit | solution_05.py:367-376 | one round keeps the frontier invariant and sees a new vertex or shortens the queue |
| BreadthSearch.Bfs | solution_05.py:351-378 | no path (and 0) exactly when end cannot be reached; otherwise a path with its weight and the fewest edges of any path from begin to end |
| AStarSearch.MonotoneConsistent | solution_05.py:420-421 | a table of estimates that drops by at most each edge's weight is a consistent heuristic |
| AStarSearch.ConsistentMonotone | solution_05.py:420-421 | a consistent heuristic, tabulated over the vertices, drops by at most each edge's weight |
| AStarSearch.PopLocated | solution_05.py:410 | with one live entry per id, a popped entry is the located one, so pop never raises KeyError in a_star |
| AStarSearch.PopFound | solution_05.py:412-413 | when end comes off the queue, back edges lead to it from begin, and under a consistent estimate its cost is the least |
| AStarSearch.SearchEmpty | solution_05.py:427 | when the queue runs empty, end cannot be reached |
| AStarSearch.EmptyReach | solution_05.py:427 | when the queue runs empty, every vertex reachable from begin has been taken off it |
| AStarSearch.CostReachable | solution_05.py:415-421 | every id that has a cost (a finite shortest) can be reached from begin |
| AStarSearch.PopVisits | solution_05.py:526-537 | popping a located vertex adds it to the vertices taken off, and the first one popped is begin |
| AStarSearch.FinishVisits | solution_05.py:409-413 | when end is popped, begin and end are among the vertices taken off, all reachable from begin |
| AStarSearch.EmptyVisits | solution_05.py:409-427 | when the queue runs empty, the vertices taken off are exactly the vertices reachable from begin |
| AStarSearch.AdmissibleBound | solution_05.py:409-425 | when end comes off the queue under an admissible estimate, every path to end weighs at least end's cost |
| AStarSearch.PopAdmissible | solution_05.py:410-413 | when end comes off the queue under an admissible estimate, no path to end is lighter than its cost |
| AStarSearch.EstimateTable | solution_05.py:404-421 | the estimates tabulated over the vertices keep the consistency and the admissibility of the metric |
| AStarSearch.Search | solution_05.py:391-427 | no path (and 0) exactly when end cannot be reached; otherwise a path with its weight, a lightest one under a consistent or an admissible estimate; the vertices taken off the queue are vertices of the graph reachable from begin, include begin when both ids exist and end when a path is found, are all the vertices reachable from begin when end cannot be reached, and are none when an id is missing |
| AStarSearch.Explore | solution_05.py:409-427 | the outer loop ends with a path exactly when end can be reached, a lightest one under a consistent or an admissible estimate, and the vertices it takes off the queue are begin's, end's when a path is found, only vertices reachable from begin, and all of those when end cannot be reached |
| AStarSearch.Settle | solution_05.py:409-425 | a round that pops a vertex other than end adds it to the vertices taken off, relaxes its edges, keeps the loop invariant and lowers the measure |
| AStarSearch.Finish | solution_05.py:412-413 | build_path on the back edges gives a path to end whose weight is end's cost, a lightest one under a consistent or an admissible estimate |
| AStarSearch.Expand | solution_05.py:415-425 | relaxing the edges out of the vertex just popped restores the loop invariant, and no cost rises |
| AStarSearch.RelaxEdges | solution_05.py:415-425 | every edge out of the popped vertex is relaxed, and no cost rises |
| AStarSearch.RelaxEdge | solution_05.py:416-425 | an edge lowers the neighbour's cost when it gives a shorter way, and otherwise changes nothing |
| AStarSearch.Lowered | solution_05.py:418-425 | the neighbour's cost, priority and back edge are set, and its cost drops (shortest only decreases) |
| AStarSearch.Enqueue | solution_05.py:422-425 | an id not located is pushed, a located one updated; either way it is then located with the new priority |
| TollSearch.Tollways | solution_05.py:429-471 | None exactly when an id is missing or the target cannot be reached; otherwise (cost, coupons) with cost the least over all toll walks to the target, reached by one that used that many coupons, and no walk of that cost used fewer |
| TollSearch.Explore | solution_05.py:445-471 | the outer loop answers the cheapest cost and the fewest coupons reaching it at that cost, or None only when no toll walk reaches the target |
| TollSearch.PopStale | solution_05.py:446-449 | an entry whose key is not located (a KeyError) is skipped without breaking the invariant |
| TollSearch.PopFound | solution_05.py:451-452 | the first target entry off the queue carries the cheapest cost and the fewest coupons of a walk at that cost |
| TollSearch.PopFewest | solution_05.py:602-620 | the heap order [priority, coupons, count] pops, of the target states at the least cost, the one with the fewest coupons |
| TollSearch.SettleOptimal | solution_05.py:447 | the state popped has its least cost |
| TollSearch.SearchEmpty | solution_05.py:471 | when the queue runs empty, no toll walk reaches the target |
| TollSearch.TollReachable | solution_05.py:429-471 | a toll walk reaches the target exactly when a path does |
| TollSearch.RelaxEdges | solution_05.py:454-469 | every edge out of the popped state is relaxed, and no cost rises |
| TollSearch.RelaxEdge | solution_05.py:454-469 | the full-price step, and the coupon step while coupons remain, are both offered |
| TollSearch.Offer | solution_05.py:461-463 | a state is pushed with the new cost exactly when it has no cost yet or a higher one; a pushed state's coupon count is within the budget |
| TollSearch.ZeroBudgetCheapest | solution_05.py:429-471 | with no coupons the answer is the plain shortest-path weight, reached with no coupon |
| TollSearch.WidenBudget | solution_05.py:456 | a toll walk within a budget is one, at the same cost, within any larger budget |
| TollSearch.BudgetMonotone | solution_05.py:429-471 | more coupons never raise the cheapest cost |
| TollSearch.CheapestBelowPaths | solution_05.py:429-471 | the cheapest toll cost is at most the weight of every path |
| Scenarios.TrianglePaths | solution_05.py:351-427 | on the triangle, the only paths from A to C are [A, C] and [A, B, C] |
| Scenarios.TriangleDirect | solution_05.py:345-349 | [A, C] is a path of weight 5 |
| Scenarios.TriangleThroughB | solution_05.py:345-349 | [A, B, C] is a path of weight 2 |
| Scenarios.TriangleWeights | solution_05.py:345-349 | both paths and their weights |
| Scenarios.TriangleFewestEdges | solution_05.py:351-378 | a fewest-edge path from A to C is [A, C], of weight 5 |
| Scenarios.TriangleLightest | solution_05.py:380-427 | a lightest path from A to C is [A, B, C], of weight 2 |
| Scenarios.TriangleNoWayBack | solution_05.py:378 | no path leads from C back to A |
| Scenarios.ZeroEstimateConsistent | solution_05.py:380-427 | the zero estimate is consistent when no weight is negative |
| Scenarios.TollWalks | solution_05.py:454-469 | on A→B (10) a toll walk to B is one step: cost 10 at full price, or 5 with the one coupon a positive budget allows |
| Scenarios.TollCouponWalk | solution_05.py:465-469 | the coupon step to (B, 1) costs 10 // 2 = 5 |
| Scenarios.TollOneCoupon | solution_05.py:429-471 | with one coupon, (5, 1) is the cheapest answer and the only one |
| Scenarios.TollNoCoupon | solution_05.py:429-471 | with no coupon, (10, 0) is the cheapest answer and the only one |
| Scenarios.TollTieFewest | solution_05.py:602-620 | on A→B (0) with one coupon, (B, 0) and (B, 1) both cost 0, and the only answer is (0, 0) |
| Scenarios.FirstEdge | solution_05.py:232-250 | add_to_graph(A, B, 1) on an empty graph adds A then B and the edge |
| Scenarios.SecondEdge | solution_05.py:232-250 | add_to_graph(B, C, 1) adds C and the edge |
| Scenarios.ThirdEdge | solution_05.py:232-250 | add_to_graph(A, C, 5) completes the triangle without a new vertex |
| Scenarios.TollEdge | solution_05.py:232-250 | add_to_graph(A, B, 10) on an empty graph builds A→B (10) |
| Scenarios.BuildToll | solution_05.py:232-250 | a Graph built by that call holds A→B (10) |
| Scenarios.BfsOnTriangle | solution_05.py:351-378 | bfs(A, C) on the triangle gives ([A, C], 5) |
| Scenarios.BfsBackOnTriangle | solution_05.py:378 | bfs(C, A) on the triangle gives ([], 0) |
| Scenarios.AStarOnTriangle | solution_05.py:380-427 | a_star(A, C) with the zero heuristic gives ([A, B, C], 2) |
| Scenarios.TollwaysOneCoupon | solution_05.py:429-471 | tollways(A, B, 1) on A→B (10) gives (5, 1) |
| Scenarios.TollwaysNoCoupon | solution_05.py:429-471 | tollways(A, B, 0) on A→B (10) gives (10, 0) |

## Left out

- Floating point. Weights, coordinates and distances are integers, and `float('inf')` is an absent
  map key. `Vertex.euclidean_distance` (solution_05.py:96-102) is not modelled, because it needs a
  square root. The A* heuristic is any function of the two vertices' positions (`metric` over `Point`s).
  Both metrics of the source read only the coordinates.
- Graphs.Graph.AStar: requires non-negative weights and a valid graph, in which every edge ends at a
  vertex. With a negative weight the search is not a shortest-path search, and the proof of termination
  uses both facts. The source raises KeyError on an edge to a missing vertex.
- AStarSearch.Search: requires the same, for the same reasons.
- Graphs.Graph.TollwaysAlgorithm: requires non-negative weights and a valid graph, for the same reasons.
- TollSearch.Tollways: requires the same, for the same reasons.
- Graphs.Graph.Bfs: requires every edge to end at a vertex. The source raises KeyError otherwise.
- BreadthSearch.Bfs: requires the same, for the same reason.
- Queues.PriorityQueue.Update: requires the id to be located. The source raises KeyError otherwise, and
  no caller does that.
- TollQueues.TollWayPriorityQueue.Update: requires the key to be located, for the same reason.
- Vertices.Vertex.constructor: takes only the id, as `add_to_graph` calls it. The coordinates start at
  the origin and are fields that can be set.
- Order of iteration. The inner loops take the neighbours of a vertex in an arbitrary order, rather
  than the dict's insertion order. So the results hold whatever the order is. Ties between paths of
  equal length or weight are not resolved the way one particular order would resolve them.
- The heap. `heapq` is abstracted to a sequence from which the least entry, by the same key, is taken
  out. `itertools.count` is a `nat` field.
  - The source shares one list object between the heap and the locator. Here an entry is a value, and
    the unique counter identifies it.
  - Inside the searches, the queue is three local values (data, locator, counter) updated by the same
    functions the queue classes use. It is not a `PriorityQueue` object.
- Graphs.Graph.AStar: the flags are set after the search, not during it. The search returns the set of
  vertices it took off the queue, and `visited` is then set on exactly those, so the final flags are the
  same. In between, the model does not capture the flags changing one vertex at a time.
- `plot` (solution_05.py:174-230), `graph2csv` and the CSV path of the constructor
  (solution_05.py:125, 281-291), and the parsing of matrix cells from strings (solution_05.py:133-138).
  These are I/O and foreign calls. A matrix cell is already `Null`, a label or a weight.
- `get_all_vertices` (solution_05.py:310-315): only `plot` uses it.
- `__repr__`, `__str__`, `__hash__`, and the messages `__eq__` prints. These are output only.
- The `plot_show` and `plot_delay` fields of `Graph`.
- Graph-level scenarios for the searches. `Scenarios` builds the toll graph through `Graph.AddToGraph`.
  It runs the searches on the adjacency maps those graphs hold, through the search methods the `Graph`
  methods call.
