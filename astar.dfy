/**
 * The invariants of A* search and the facts that give its result.  The
 * search keeps, for each id reached, the least cost g found so far (shortest
 * in the source; an id without one stands for infinity), the estimate plus
 * that cost (costs), and the back edge it was reached by.  Ghost stamps record
 * when each cost was last lowered: following back edges, the cost never
 * grows, and where it stays the same the stamp drops, so every chain of back
 * edges ends at begin.  S, also ghost, holds the ids taken off the queue; L is
 * the queue's locator, which holds the one live entry of each queued id.  The
 * estimate is a table H from id to the value the heuristic gives it.
 */
module AStarSearch {
  import opened Walks
  import opened Paths
  import opened Measures
  import opened Vertices
  import opened Queues

  /** ks lists every id of A, each once: the ids the termination measures tally over. */
  ghost predicate Lists(A: Adjacency, ks: seq<Id>)
  {
    Distinct(ks) && forall x :: x in A ==> x in ks
  }

  /**
   * The costs and the back edges: begin costs 0 and has no back edge; every
   * other id with a cost has a back edge, along an edge of A, from an id whose
   * cost plus the edge's weight is at most its own, and which was stamped
   * earlier when the two are equal.
   */
  ghost predicate Chained(A: Adjacency, begin: Id, g: map<Id, int>, back: map<Id, Id>, stamp: map<Id, nat>, clock: nat)
  {
    && g.Keys <= A.Keys && begin in g && g[begin] == 0
    && (forall x {:trigger g[x]} :: x in g ==> g[x] >= 0)
    && back.Keys == g.Keys - {begin}
    && stamp.Keys == g.Keys
    && (forall x {:trigger stamp[x]} :: x in stamp ==> stamp[x] < clock)
    && (forall x {:trigger back[x]} :: x in back ==>
          && back[x] in g && back[x] in A && x in A[back[x]]
          && g[back[x]] + A[back[x]][x] <= g[x]
          && (g[back[x]] + A[back[x]][x] == g[x] ==> stamp[back[x]] < stamp[x]))
  }

  /** Every id with a cost has a chain of back edges to begin. */
  lemma {:induction false} ChainBack(A: Adjacency, begin: Id, g: map<Id, int>, back: map<Id, Id>,
                                     stamp: map<Id, nat>, clock: nat, x: Id) returns (n: nat)
    requires NonNegativeWeights(A) && Chained(A, begin, g, back, stamp, clock) && x in g
    ensures BackChain(A, back, begin, x, n)
    decreases g[x], stamp[x]
  {
    if x == begin {
      n := 0;
    } else {
      var y := back[x];
      assert A[y][x] >= 0 && g[y] >= 0;
      var m := ChainBack(A, begin, g, back, stamp, clock, y);
      n := m + 1;
    }
  }

  /** A path that follows the back edges costs at most the cost of its last id. */
  lemma {:induction false} FollowsBackWeight(A: Adjacency, begin: Id, g: map<Id, int>, back: map<Id, Id>,
                                             stamp: map<Id, nat>, clock: nat, p: seq<Id>)
    requires Chained(A, begin, g, back, stamp, clock) && FollowsBack(back, begin, p) && IsPath(A, p)
    ensures p[|p| - 1] in g && Weight(A, p) <= g[p[|p| - 1]]
    decreases |p|
  {
    if |p| > 1 {
      var q := p[..|p| - 1];
      CostSplit(Edge(A), p, |p| - 2);
      assert FollowsBack(back, begin, q) by {
        assert forall i :: 0 <= i < |q| ==> q[i] == p[i];
      }
      FollowsBackWeight(A, begin, g, back, stamp, clock, q);
      assert back[p[|p| - 1]] == q[|q| - 1];
    }
  }

  /** Some path from begin to x costs at most the cost of x. */
  lemma CheapPath(A: Adjacency, begin: Id, g: map<Id, int>, back: map<Id, Id>,
                  stamp: map<Id, nat>, clock: nat, x: Id) returns (p: seq<Id>)
    requires NonNegativeWeights(A) && Chained(A, begin, g, back, stamp, clock) && x in g
    ensures PathFromTo(A, p, begin, x) && Weight(A, p) <= g[x]
  {
    var n := ChainBack(A, begin, g, back, stamp, clock, x);
    p := ChainPath(A, back, begin, x, n);
    FollowsBackWeight(A, begin, g, back, stamp, clock, p);
  }

  /**
   * What holds of the search state between and within rounds: every edge
   * ends at a vertex, weights are non-negative, every vertex has an
   * estimate; costs and priorities are as Priced says; every id with a cost
   * is queued or taken off; end has not been taken off; and the ids taken off
   * are as Settled says.
   */
  ghost predicate Core(A: Adjacency, H: map<Id, int>, begin: Id, end: Id, g: map<Id, int>, costs: map<Id, int>,
                       back: map<Id, Id>, stamp: map<Id, nat>, clock: nat, S: set<Id>, L: map<Id, Node>)
  {
    && Closed(A) && NonNegativeWeights(A) && end in A && A.Keys <= H.Keys
    && Chained(A, begin, g, back, stamp, clock)
    && Priced(H, begin, g, costs, S, L)
    && (S == {} ==> g.Keys == {begin})
    && S <= g.Keys && g.Keys <= S + L.Keys && end !in S
    && Settled(A, H, begin, g, S, L)
  }

  /**
   * costs holds cost plus estimate, and so does the priority of each located
   * entry, except the first, pushed with priority 0 before anything was taken
   * off the queue.
   */
  ghost predicate Priced(H: map<Id, int>, begin: Id, g: map<Id, int>, costs: map<Id, int>, S: set<Id>, L: map<Id, Node>)
  {
    && g.Keys <= H.Keys && costs.Keys == g.Keys && L.Keys <= g.Keys
    && (forall x {:trigger costs[x]} :: x in costs ==> costs[x] == g[x] + H[x])
    && (forall id {:trigger L[id]} :: id in L ==> L[id].priority == g[id] + H[id] || (S == {} && id == begin))
  }

  /** The estimate never drops by more than the weight of an edge: the consistency of A* heuristics. */
  ghost predicate Monotone(A: Adjacency, H: map<Id, int>)
  {
    forall a, b :: a in A && b in A[a] ==> a in H && b in H && H[a] <= A[a][b] + H[b]
  }

  /** The cost of each id of S is at most the weight of every path to it from begin. */
  ghost predicate Least(A: Adjacency, begin: Id, g: map<Id, int>, S: set<Id>)
  {
    forall c, p :: c in S && PathFromTo(A, p, begin, c) ==> c in g && g[c] <= Weight(A, p)
  }

  /** With a consistent estimate, the ids taken off the queue are not queued again and their costs are least. */
  ghost predicate Settled(A: Adjacency, H: map<Id, int>, begin: Id, g: map<Id, int>, S: set<Id>, L: map<Id, Node>)
  {
    Monotone(A, H) ==> S !! L.Keys && Least(A, begin, g, S)
  }

  /** The table as a function, with 0 for an id it lacks. */
  function Table(H: map<Id, int>): Id -> int
  {
    (x: Id) => if x in H then H[x] else 0
  }

  lemma MonotoneConsistent(A: Adjacency, H: map<Id, int>)
    requires Monotone(A, H)
    ensures Consistent(Edge(A), Table(H))
  {
    forall a, b | Edge(A)(a, b).Some? ensures Table(H)(a) <= Edge(A)(a, b).value + Table(H)(b) {
      assert a in A && b in A[a];
    }
  }

  /** A consistent heuristic h that H tabulates makes H monotone. */
  lemma ConsistentMonotone(A: Adjacency, H: map<Id, int>, h: Id -> int)
    requires Closed(A) && A.Keys <= H.Keys && (forall x :: x in H ==> h(x) == H[x])
    requires Consistent(Edge(A), h)
    ensures Monotone(A, H)
  {
    forall a, b | a in A && b in A[a] ensures a in H && b in H && H[a] <= A[a][b] + H[b] {
      assert Edge(A)(a, b).Some?;
    }
  }

  lemma LeastOptimal(A: Adjacency, begin: Id, g: map<Id, int>, S: set<Id>)
    requires Least(A, begin, g, S) && begin in A
    ensures Optimal(Edge(A), begin, g, S)
  {
    forall c, p | c in S && c in g && WalkFromTo(Edge(A), p, begin, c) ensures g[c] <= Cost(Edge(A), p) {
      assert PathFromTo(A, p, begin, c);
    }
  }

  /**
   * Every edge out of an id taken off the queue and not queued again has been
   * relaxed, except the edges from u to the ids in rest.
   */
  ghost predicate RelaxedOutside(A: Adjacency, g: map<Id, int>, S: set<Id>, L: map<Id, Node>, u: Id, rest: set<Id>)
  {
    forall c, t {:trigger t in A[c], c in S} ::
      c in S && c !in L && c in A && t in A[c] && !(c == u && t in rest) ==> t in g && c in g && g[t] <= g[c] + A[c][t]
  }

  /** The invariant of the outer loop of a_star. */
  ghost predicate Searching(A: Adjacency, H: map<Id, int>, begin: Id, end: Id, g: map<Id, int>,
                            costs: map<Id, int>, back: map<Id, Id>, stamp: map<Id, nat>, clock: nat,
                            S: set<Id>, L: map<Id, Node>)
  {
    && Core(A, H, begin, end, g, costs, back, stamp, clock, S, L)
    && RelaxedOutside(A, g, S, L, begin, {})
  }

  /** The invariant of the inner loop of a_star, while the edges out of u are relaxed. */
  ghost predicate Relaxing(A: Adjacency, H: map<Id, int>, begin: Id, end: Id, g: map<Id, int>,
                           costs: map<Id, int>, back: map<Id, Id>, stamp: map<Id, nat>, clock: nat,
                           S: set<Id>, L: map<Id, Node>, u: Id, rest: set<Id>)
  {
    && Core(A, H, begin, end, g, costs, back, stamp, clock, S, L)
    && u in S && u !in L && u in A && rest <= A[u].Keys
    && RelaxedOutside(A, g, S, L, u, rest)
  }

  /** H gives each id of P the estimate metric gives from its position to the position of end. */
  ghost predicate Tabulates(H: map<Id, int>, metric: (Point, Point) -> int, P: map<Id, Point>, end: Id)
  {
    end in P && H.Keys == P.Keys && forall id :: id in P ==> H[id] == metric(P[id], P[end])
  }

  /** Every live entry of the heap D holds the vertex V stores under its id. */
  ghost predicate Carried(V: map<Id, Vertex>, D: seq<Node>)
  {
    forall n :: n in D && n.vertex != null ==> n.vertex.id in V && V[n.vertex.id] == n.vertex
  }

  lemma CarriedTombstone(V: map<Id, Vertex>, D: seq<Node>, c: nat, nd: Node)
    requires Carried(V, D) && nd.vertex != null && nd.vertex.id in V && V[nd.vertex.id] == nd.vertex
    ensures Carried(V, Tombstone(D, c) + [nd])
  {
    var T := Tombstone(D, c);
    forall n | n in T + [nd] && n.vertex != null ensures n.vertex.id in V && V[n.vertex.id] == n.vertex {
      if n in T {
        var i :| 0 <= i < |T| && T[i] == n;
        assert D[i] in D;
      }
    }
  }

  /** The tallies do not rise: they drop, or stay the same with no more ids located. */
  ghost predicate NoHigher(ks: seq<Id>, g': map<Id, int>, g: map<Id, int>, L': map<Id, Node>, L: map<Id, Node>)
  {
    || Lower(ks, g', g)
    || (Missing(ks, g') == Missing(ks, g) && SumOver(ks, g') == SumOver(ks, g) && |L'.Keys| <= |L.Keys|)
  }

  lemma NoHigherTrans(ks: seq<Id>, g2: map<Id, int>, g1: map<Id, int>, g0: map<Id, int>,
                      L2: map<Id, Node>, L1: map<Id, Node>, L0: map<Id, Node>)
    requires NoHigher(ks, g2, g1, L2, L1) && NoHigher(ks, g1, g0, L1, L0)
    ensures NoHigher(ks, g2, g0, L2, L0)
  {
  }

  lemma SearchStart(A: Adjacency, H: map<Id, int>, begin: Id, end: Id, g: map<Id, int>, costs: map<Id, int>,
                    back: map<Id, Id>, stamp: map<Id, nat>, clock: nat, S: set<Id>, L: map<Id, Node>)
    requires Closed(A) && NonNegativeWeights(A) && begin in A && end in A && A.Keys <= H.Keys
    requires g == map[begin := 0] && costs == map[begin := H[begin]] && back == map[]
    requires stamp == map[begin := 0] && clock == 1 && S == {} && L.Keys == {begin}
    ensures Searching(A, H, begin, end, g, costs, back, stamp, clock, S, L)
  {
  }

  /** The entry pop returns is the located entry of its id. */
  lemma PopLocated(D: seq<Node>, L: map<Id, Node>, counter: nat, n: Node)
    requires QueueInv(D, L, counter) && OneLivePerId(D, L) && n in LiveNodes(D)
    ensures n.vertex.id in L && L[n.vertex.id] == n
  {
  }

  /**
   * With a consistent estimate, the id u of the least live entry n is at
   * least as close, in cost plus estimate, as the end of any path from begin
   * that ends outside S.
   */
  lemma PopBest(A: Adjacency, H: map<Id, int>, begin: Id, end: Id, g: map<Id, int>,
                costs: map<Id, int>, back: map<Id, Id>, stamp: map<Id, nat>, clock: nat,
                S: set<Id>, L: map<Id, Node>, D: seq<Node>, counter: nat, n: Node, z: Id, p: seq<Id>)
    requires Searching(A, H, begin, end, g, costs, back, stamp, clock, S, L) && Monotone(A, H)
    requires QueueInv(D, L, counter) && OneLivePerId(D, L)
    requires FirstLive(D, n)
    requires z !in S && PathFromTo(A, p, begin, z)
    ensures n.vertex.id in g && z in H && g[n.vertex.id] + H[n.vertex.id] <= Weight(A, p) + H[z]
  {
    var u := n.vertex.id;
    var h := Table(H);
    var rest := (L - {u}).Keys;
    forall y | y in rest ensures y in g && g[u] + h(u) <= g[y] + h(y) {
      assert L[y] in LiveNodes(D);
      assert NodeAtMost(n, L[y]);
    }
    assert Relaxed(Edge(A), g, S) by {
      forall c, t | c in S && Edge(A)(c, t).Some? ensures t in g && g[t] <= g[c] + Edge(A)(c, t).value {
        assert c in A && t in A[c];
      }
    }
    MonotoneConsistent(A, H);
    LeastOptimal(A, begin, g, S);
    PathInside(A, p);
    PopOptimal(Edge(A), h, begin, g, S, rest, u, z, p);
  }

  /** When pop returns end, its back edges lead to begin and, with a consistent estimate, its cost is least. */
  lemma PopFound(A: Adjacency, H: map<Id, int>, begin: Id, end: Id, g: map<Id, int>,
                 costs: map<Id, int>, back: map<Id, Id>, stamp: map<Id, nat>, clock: nat,
                 S: set<Id>, L: map<Id, Node>, D: seq<Node>, counter: nat, n: Node)
    requires Searching(A, H, begin, end, g, costs, back, stamp, clock, S, L)
    requires QueueInv(D, L, counter) && OneLivePerId(D, L)
    requires FirstLive(D, n) && n.vertex.id == end
    ensures end in g && exists k :: BackChain(A, back, begin, end, k)
    ensures Monotone(A, H) ==> NoLighterPath(A, begin, end, g[end])
  {
    var k := ChainBack(A, begin, g, back, stamp, clock, end);
    if Monotone(A, H) {
      forall p | PathFromTo(A, p, begin, end) ensures g[end] <= Weight(A, p) {
        PopBest(A, H, begin, end, g, costs, back, stamp, clock, S, L, D, counter, n, end, p);
      }
    }
  }

  /** Taking u = n.vertex.id, not end, off the queue starts the relaxation of its edges. */
  lemma PopSettle(A: Adjacency, H: map<Id, int>, begin: Id, end: Id, g: map<Id, int>,
                  costs: map<Id, int>, back: map<Id, Id>, stamp: map<Id, nat>, clock: nat,
                  S0: set<Id>, L0: map<Id, Node>, D: seq<Node>, counter: nat, n: Node, S: set<Id>, L: map<Id, Node>)
    requires Searching(A, H, begin, end, g, costs, back, stamp, clock, S0, L0)
    requires QueueInv(D, L0, counter) && OneLivePerId(D, L0)
    requires FirstLive(D, n) && n.vertex.id != end
    requires S == S0 + {n.vertex.id} && L == L0 - {n.vertex.id}
    ensures n.vertex.id in A
    ensures Relaxing(A, H, begin, end, g, costs, back, stamp, clock, S, L, n.vertex.id, A[n.vertex.id].Keys)
  {
    var u := n.vertex.id;
    PopLocated(D, L0, counter, n);
    if Monotone(A, H) {
      PopLeast(A, H, begin, end, g, costs, back, stamp, clock, S0, L0, D, counter, n, S);
    }
    PopCore(A, H, begin, end, g, costs, back, stamp, clock, S0, L0, u, S, L);
  }

  /** Taking the located id u, not end, off the queue, when its cost is least, starts the relaxation of its edges. */
  lemma PopCore(A: Adjacency, H: map<Id, int>, begin: Id, end: Id, g: map<Id, int>,
                costs: map<Id, int>, back: map<Id, Id>, stamp: map<Id, nat>, clock: nat,
                S0: set<Id>, L0: map<Id, Node>, u: Id, S: set<Id>, L: map<Id, Node>)
    requires Searching(A, H, begin, end, g, costs, back, stamp, clock, S0, L0)
    requires u in L0 && u != end && (Monotone(A, H) ==> Least(A, begin, g, S))
    requires S == S0 + {u} && L == L0 - {u}
    ensures u in A && Relaxing(A, H, begin, end, g, costs, back, stamp, clock, S, L, u, A[u].Keys)
  {
    PopPriced(H, begin, g, costs, S0, L0, u, S, L);
    PopOutside(A, g, S0, L0, begin, u, S, L);
  }

  /** Taking u off the queue keeps the priorities of the entries still located. */
  lemma PopPriced(H: map<Id, int>, begin: Id, g: map<Id, int>, costs: map<Id, int>,
                  S0: set<Id>, L0: map<Id, Node>, u: Id, S: set<Id>, L: map<Id, Node>)
    requires Priced(H, begin, g, costs, S0, L0) && u in L0 && (S0 == {} ==> g.Keys == {begin})
    requires S == S0 + {u} && L == L0 - {u}
    ensures Priced(H, begin, g, costs, S, L)
  {
    if S0 == {} {
      assert L == map[];
    }
  }

  /** With a consistent estimate, the cost of the id taken off the queue is least. */
  lemma PopLeast(A: Adjacency, H: map<Id, int>, begin: Id, end: Id, g: map<Id, int>,
                 costs: map<Id, int>, back: map<Id, Id>, stamp: map<Id, nat>, clock: nat,
                 S0: set<Id>, L0: map<Id, Node>, D: seq<Node>, counter: nat, n: Node, S: set<Id>)
    requires Searching(A, H, begin, end, g, costs, back, stamp, clock, S0, L0) && Monotone(A, H)
    requires QueueInv(D, L0, counter) && OneLivePerId(D, L0)
    requires FirstLive(D, n)
    requires S == S0 + {n.vertex.id}
    ensures Least(A, begin, g, S)
  {
    var u := n.vertex.id;
    forall c, p | c in S && PathFromTo(A, p, begin, c) ensures c in g && g[c] <= Weight(A, p) {
      if c == u {
        PopBest(A, H, begin, end, g, costs, back, stamp, clock, S0, L0, D, counter, n, u, p);
      }
    }
  }

  /** Taking u off the queue leaves its edges, and only those, to relax. */
  lemma PopOutside(A: Adjacency, g: map<Id, int>, S0: set<Id>, L0: map<Id, Node>, w: Id, u: Id, S: set<Id>, L: map<Id, Node>)
    requires RelaxedOutside(A, g, S0, L0, w, {}) && u in A
    requires S == S0 + {u} && L == L0 - {u}
    ensures RelaxedOutside(A, g, S, L, u, A[u].Keys)
  {
  }

  /**
   * With a consistent estimate, relaxing the edge from u cannot lower the cost
   * of an id taken off the queue.
   */
  lemma SettledStays(A: Adjacency, H: map<Id, int>, begin: Id, end: Id, g: map<Id, int>, costs: map<Id, int>,
                     back: map<Id, Id>, stamp: map<Id, nat>, clock: nat, S: set<Id>, L: map<Id, Node>, u: Id, t: Id)
    requires Core(A, H, begin, end, g, costs, back, stamp, clock, S, L) && Monotone(A, H)
    requires u in g && u in A && t in A[u] && t in S
    ensures g[t] <= g[u] + A[u][t]
  {
    var p := CheapPath(A, begin, g, back, stamp, clock, u);
    CostAppend(Edge(A), p, t);
    assert PathFromTo(A, p + [t], begin, t);
  }

  /** Lowering the cost of t to g0[u] + A[u][t], with back edge from u and the current stamp, keeps the chains in order. */
  lemma RelaxChained(A: Adjacency, begin: Id, g0: map<Id, int>, back0: map<Id, Id>, stamp0: map<Id, nat>,
                     clock0: nat, u: Id, t: Id, g: map<Id, int>, back: map<Id, Id>, stamp: map<Id, nat>, clock: nat)
    requires NonNegativeWeights(A) && Chained(A, begin, g0, back0, stamp0, clock0)
    requires u in g0 && u in A && t in A[u] && t in A && (t !in g0 || g0[u] + A[u][t] < g0[t])
    requires g == g0[t := g0[u] + A[u][t]] && back == back0[t := u] && stamp == stamp0[t := clock0] && clock == clock0 + 1
    ensures Chained(A, begin, g, back, stamp, clock)
  {
    assert A[u][t] >= 0;
    assert t != begin;
    forall x | x in back ensures
      && back[x] in g && back[x] in A && x in A[back[x]]
      && g[back[x]] + A[back[x]][x] <= g[x]
      && (g[back[x]] + A[back[x]][x] == g[x] ==> stamp[back[x]] < stamp[x])
    {
      if x != t && back0[x] == t {
        assert g[t] < g0[t];
      }
    }
  }

  /** Lowering the cost of t and locating its new entry nd keeps costs and priorities as Priced says. */
  lemma RelaxPriced(H: map<Id, int>, begin: Id, g0: map<Id, int>, costs0: map<Id, int>, S: set<Id>, L0: map<Id, Node>,
                    t: Id, possible: int, nd: Node, g: map<Id, int>, costs: map<Id, int>, L: map<Id, Node>)
    requires Priced(H, begin, g0, costs0, S, L0) && t in H && nd.priority == possible + H[t]
    requires g == g0[t := possible] && costs == costs0[t := possible + H[t]] && L == L0[t := nd]
    ensures Priced(H, begin, g, costs, S, L)
  {
  }

  /** With a consistent estimate, relaxing an edge from u never reaches an id taken off the queue. */
  lemma RelaxSettled(A: Adjacency, H: map<Id, int>, begin: Id, end: Id, g0: map<Id, int>,
                     costs0: map<Id, int>, back0: map<Id, Id>, stamp0: map<Id, nat>, clock0: nat,
                     S: set<Id>, L0: map<Id, Node>, u: Id, t: Id, possible: int, nd: Node, g: map<Id, int>, L: map<Id, Node>)
    requires Core(A, H, begin, end, g0, costs0, back0, stamp0, clock0, S, L0)
    requires u in S && u in A && t in A[u] && possible == g0[u] + A[u][t] && (t !in g0 || possible < g0[t])
    requires g == g0[t := possible] && L == L0[t := nd]
    ensures Settled(A, H, begin, g, S, L)
  {
    if Monotone(A, H) && t in S {
      SettledStays(A, H, begin, end, g0, costs0, back0, stamp0, clock0, S, L0, u, t);
      assert false;
    }
  }

  /** Relaxing the edge from u to t keeps Core. */
  lemma RelaxCore(A: Adjacency, H: map<Id, int>, begin: Id, end: Id, g0: map<Id, int>,
                  costs0: map<Id, int>, back0: map<Id, Id>, stamp0: map<Id, nat>, clock0: nat,
                  S: set<Id>, L0: map<Id, Node>, u: Id, t: Id, possible: int, nd: Node,
                  g: map<Id, int>, costs: map<Id, int>, back: map<Id, Id>, stamp: map<Id, nat>, clock: nat,
                  L: map<Id, Node>)
    requires Core(A, H, begin, end, g0, costs0, back0, stamp0, clock0, S, L0)
    requires u in S && u in A && t in A[u] && t in A && possible == g0[u] + A[u][t] && (t !in g0 || possible < g0[t])
    requires nd.priority == possible + H[t]
    requires g == g0[t := possible] && costs == costs0[t := possible + H[t]] && back == back0[t := u]
    requires stamp == stamp0[t := clock0] && clock == clock0 + 1 && L == L0[t := nd]
    ensures Core(A, H, begin, end, g, costs, back, stamp, clock, S, L)
  {
    RelaxChained(A, begin, g0, back0, stamp0, clock0, u, t, g, back, stamp, clock);
    RelaxPriced(H, begin, g0, costs0, S, L0, t, possible, nd, g, costs, L);
    RelaxSettled(A, H, begin, end, g0, costs0, back0, stamp0, clock0, S, L0, u, t, possible, nd, g, L);
  }

  /** Relaxing the edge from u to t keeps the other edges relaxed and takes t out of rest. */
  lemma RelaxOutside(A: Adjacency, g0: map<Id, int>, S: set<Id>, L0: map<Id, Node>, u: Id, rest: set<Id>,
                     t: Id, possible: int, nd: Node, g: map<Id, int>, L: map<Id, Node>)
    requires RelaxedOutside(A, g0, S, L0, u, rest) && NonNegativeWeights(A)
    requires u in g0 && u in A && t in A[u] && possible == g0[u] + A[u][t] && (t !in g0 || possible < g0[t])
    requires g == g0[t := possible] && L == L0[t := nd]
    ensures RelaxedOutside(A, g, S, L, u, rest - {t})
  {
    assert A[u][t] >= 0 && t != u;
  }

  /**
   * Relaxing the edge from u to t, which lowers the cost of t to possible,
   * keeps the invariant of the inner loop and lowers the tallies; g, costs,
   * back, stamp, clock and L are the state after the relaxation.
   */
  lemma RelaxStep(A: Adjacency, H: map<Id, int>, begin: Id, end: Id, ks: seq<Id>, g0: map<Id, int>,
                  costs0: map<Id, int>, back0: map<Id, Id>, stamp0: map<Id, nat>, clock0: nat,
                  S: set<Id>, L0: map<Id, Node>, u: Id, rest: set<Id>, t: Id, possible: int, estimate: int,
                  nd: Node, g: map<Id, int>, costs: map<Id, int>, back: map<Id, Id>, stamp: map<Id, nat>, clock: nat,
                  L: map<Id, Node>)
    requires Lists(A, ks) && t in rest
    requires Relaxing(A, H, begin, end, g0, costs0, back0, stamp0, clock0, S, L0, u, rest)
    requires possible == g0[u] + A[u][t] && estimate == H[t] && nd.priority == possible + estimate
    requires t !in g0 || possible < g0[t]
    requires g == g0[t := possible] && costs == costs0[t := possible + estimate] && back == back0[t := u]
    requires stamp == stamp0[t := clock0] && clock == clock0 + 1 && L == L0[t := nd]
    ensures Relaxing(A, H, begin, end, g, costs, back, stamp, clock, S, L, u, rest - {t})
    ensures Lower(ks, g, g0)
  {
    assert t != u && t in A;
    RelaxCore(A, H, begin, end, g0, costs0, back0, stamp0, clock0, S, L0, u, t, possible, nd,
              g, costs, back, stamp, clock, L);
    RelaxOutside(A, g0, S, L0, u, rest, t, possible, nd, g, L);
    LowerUpdate(A, ks, g0, t, possible);
  }

  /** Giving k a cost it lacked, or a lower one, lowers the tallies. */
  lemma LowerUpdate(A: Adjacency, ks: seq<Id>, g: map<Id, int>, k: Id, d: int)
    requires Lists(A, ks) && k in A && (k !in g || d < g[k])
    ensures Lower(ks, g[k := d], g)
  {
    TallyUpdate(ks, g, k, d);
  }

  /** An edge from u that does not lower the cost of its end needs no change. */
  lemma RelaxSkip(A: Adjacency, H: map<Id, int>, begin: Id, end: Id, g: map<Id, int>,
                  costs: map<Id, int>, back: map<Id, Id>, stamp: map<Id, nat>, clock: nat,
                  S: set<Id>, L: map<Id, Node>, u: Id, rest: set<Id>, t: Id)
    requires Relaxing(A, H, begin, end, g, costs, back, stamp, clock, S, L, u, rest) && t in rest
    requires !(t !in g || g[u] + A[u][t] < g[t])
    ensures Relaxing(A, H, begin, end, g, costs, back, stamp, clock, S, L, u, rest - {t})
  {
  }

  /** Once every edge from u is relaxed, the outer invariant holds again. */
  lemma RelaxDone(A: Adjacency, H: map<Id, int>, begin: Id, end: Id, g: map<Id, int>,
                  costs: map<Id, int>, back: map<Id, Id>, stamp: map<Id, nat>, clock: nat,
                  S: set<Id>, L: map<Id, Node>, u: Id)
    requires Relaxing(A, H, begin, end, g, costs, back, stamp, clock, S, L, u, {})
    ensures Searching(A, H, begin, end, g, costs, back, stamp, clock, S, L)
  {
  }

  /** The tallies are bounded below, and drop with every lowered cost. */
  lemma TalliesBounded(A: Adjacency, begin: Id, ks: seq<Id>, g: map<Id, int>, back: map<Id, Id>,
                       stamp: map<Id, nat>, clock: nat)
    requires Chained(A, begin, g, back, stamp, clock)
    ensures SumOver(ks, g) >= 0
  {
    SumOverNonNegative(ks, g);
  }

  /** When the queue runs empty, every id reachable from begin has been taken off it. */
  lemma EmptyReach(A: Adjacency, H: map<Id, int>, begin: Id, end: Id, g: map<Id, int>,
                   costs: map<Id, int>, back: map<Id, Id>, stamp: map<Id, nat>, clock: nat, S: set<Id>)
    requires Searching(A, H, begin, end, g, costs, back, stamp, clock, S, map[])
    ensures forall x :: Reachable(A, begin, x) ==> x in S
  {
    assert Relaxed(Edge(A), g, g.Keys) by {
      forall c, t | c in g && Edge(A)(c, t).Some? ensures t in g && g[t] <= g[c] + Edge(A)(c, t).value {
        assert c in A && t in A[c] && c in S;
      }
    }
    forall x | Reachable(A, begin, x) ensures x in S {
      var p :| PathFromTo(A, p, begin, x);
      ClosedReach(Edge(A), g, begin, p);
    }
  }

  /** When the queue runs empty before end is taken off it, end cannot be reached. */
  lemma SearchEmpty(A: Adjacency, H: map<Id, int>, begin: Id, end: Id, g: map<Id, int>,
                    costs: map<Id, int>, back: map<Id, Id>, stamp: map<Id, nat>, clock: nat, S: set<Id>)
    requires Searching(A, H, begin, end, g, costs, back, stamp, clock, S, map[])
    ensures !Reachable(A, begin, end)
  {
    EmptyReach(A, H, begin, end, g, costs, back, stamp, clock, S);
  }

  /** Every id with a cost can be reached from begin. */
  lemma CostReachable(A: Adjacency, begin: Id, g: map<Id, int>, back: map<Id, Id>,
                      stamp: map<Id, nat>, clock: nat, x: Id)
    requires NonNegativeWeights(A) && Chained(A, begin, g, back, stamp, clock) && x in g
    ensures Reachable(A, begin, x)
  {
    var p := CheapPath(A, begin, g, back, stamp, clock, x);
  }

  /** popped holds the vertices V stores under the ids of T, and nothing else. */
  ghost predicate VerticesOf(V: map<Id, Vertex>, popped: set<Vertex>, T: set<Id>)
  {
    && (forall v :: v in popped ==> v.id in T && v.id in V && V[v.id] == v)
    && (forall x :: x in T ==> x in V && V[x] in popped)
  }

  /**
   * popped holds the vertices of the ids of S, the ids taken off the queue;
   * begin is taken off first, and is queued until then.
   */
  ghost predicate Taken(V: map<Id, Vertex>, popped: set<Vertex>, S: set<Id>, begin: Id, L: map<Id, Node>)
  {
    VerticesOf(V, popped, S) && (begin in S || (S == {} && begin in L))
  }

  /**
   * The vertices a_star takes off the queue, the ones pop marks visited:
   * begin's; end's when a path was found; only vertices reachable from begin;
   * and, when no path was found, every vertex reachable from begin.
   */
  ghost predicate Visits(A: Adjacency, V: map<Id, Vertex>, begin: Id, end: Id, found: bool, popped: set<Vertex>)
  {
    && begin in V && V[begin] in popped
    && (found ==> end in V && V[end] in popped)
    && (forall v :: v in popped ==> v.id in V && V[v.id] == v && Reachable(A, begin, v.id))
    && (!found ==> forall x :: x in V && Reachable(A, begin, x) ==> V[x] in popped)
  }

  /** Taking the vertex u of a located id off the queue adds it to the vertices taken off, and begin comes off first. */
  lemma PopVisits(V: map<Id, Vertex>, g: map<Id, int>, begin: Id, S: set<Id>, L: map<Id, Node>,
                  popped: set<Vertex>, u: Vertex, L': map<Id, Node>)
    requires Taken(V, popped, S, begin, L)
    requires (S == {} ==> g.Keys == {begin}) && L.Keys <= g.Keys
    requires u.id in L && u.id in V && V[u.id] == u
    ensures Taken(V, popped + {u}, S + {u.id}, begin, L')
  {
  }

  /** The round in which end comes off the queue leaves visited what Visits says of a search that found a path. */
  lemma FinishVisits(A: Adjacency, H: map<Id, int>, begin: Id, end: Id, g: map<Id, int>,
                     costs: map<Id, int>, back: map<Id, Id>, stamp: map<Id, nat>, clock: nat,
                     S: set<Id>, L: map<Id, Node>, V: map<Id, Vertex>, popped: set<Vertex>, u: Vertex)
    requires Searching(A, H, begin, end, g, costs, back, stamp, clock, S, L) && V.Keys == A.Keys
    requires Taken(V, popped, S, begin, L)
    requires u.id == end && end in L && V[end] == u
    ensures Visits(A, V, begin, end, true, popped + {u})
  {
    forall v | v in popped + {u} ensures v.id in V && V[v.id] == v && Reachable(A, begin, v.id) {
      CostReachable(A, begin, g, back, stamp, clock, v.id);
    }
  }

  /** A search whose queue ran empty leaves visited what Visits says of a search that found no path. */
  lemma EmptyVisits(A: Adjacency, H: map<Id, int>, begin: Id, end: Id, g: map<Id, int>,
                    costs: map<Id, int>, back: map<Id, Id>, stamp: map<Id, nat>, clock: nat,
                    S: set<Id>, V: map<Id, Vertex>, popped: set<Vertex>)
    requires Searching(A, H, begin, end, g, costs, back, stamp, clock, S, map[]) && V.Keys == A.Keys
    requires Taken(V, popped, S, begin, map[])
    ensures Visits(A, V, begin, end, false, popped)
  {
    EmptyReach(A, H, begin, end, g, costs, back, stamp, clock, S);
    forall v | v in popped ensures Reachable(A, begin, v.id) {
      CostReachable(A, begin, g, back, stamp, clock, v.id);
    }
  }

  /** Every edge out of an id taken off the queue and not queued again has been relaxed. */
  lemma RelaxedSteps(A: Adjacency, g: map<Id, int>, S: set<Id>, L: map<Id, Node>, begin: Id)
    requires RelaxedOutside(A, g, S, L, begin, {})
    ensures forall c, t :: c in S && c !in L.Keys && Edge(A)(c, t).Some? ==>
              t in g && c in g && g[t] <= g[c] + Edge(A)(c, t).value
  {
    forall c, t | c in S && c !in L.Keys && Edge(A)(c, t).Some?
      ensures t in g && c in g && g[t] <= g[c] + Edge(A)(c, t).value
    {
      assert c in A && t in A[c];
    }
  }

  /**
   * When pop returns end and the estimate is admissible, the path p to end
   * weighs no less than the cost of end: some queued id of p has a cost at
   * most the weight of p up to it, and its entry comes after end's.
   */
  lemma AdmissibleBound(A: Adjacency, H: map<Id, int>, begin: Id, end: Id, g: map<Id, int>,
                        costs: map<Id, int>, back: map<Id, Id>, stamp: map<Id, nat>, clock: nat,
                        S: set<Id>, L: map<Id, Node>, D: seq<Node>, counter: nat, n: Node, p: seq<Id>)
    requires Searching(A, H, begin, end, g, costs, back, stamp, clock, S, L)
    requires QueueInv(D, L, counter) && FirstLive(D, n) && end in L && L[end] == n
    requires Admissible(Edge(A), Table(H), end) && PathFromTo(A, p, begin, end)
    ensures g[end] <= Weight(A, p)
  {
    if S == {} {
      EdgeNonNegative(A);
      CostNonNegative(Edge(A), p);
    } else {
      RelaxedSteps(A, g, S, L, begin);
      assert p[..1] == [begin];
      var i := OpenOnWalk(Edge(A), g, S, L.Keys, p, 0);
      assert L[p[i]] in LiveNodes(D) && NodeAtMost(n, L[p[i]]);
      CostSplit(Edge(A), p, i);
      assert WalkFromTo(Edge(A), p[i..], p[i], end);
    }
  }

  /** When pop returns end and the estimate is admissible, no path to end is lighter than the cost of end. */
  lemma PopAdmissible(A: Adjacency, H: map<Id, int>, begin: Id, end: Id, g: map<Id, int>,
                      costs: map<Id, int>, back: map<Id, Id>, stamp: map<Id, nat>, clock: nat,
                      S: set<Id>, L: map<Id, Node>, D: seq<Node>, counter: nat, n: Node)
    requires Searching(A, H, begin, end, g, costs, back, stamp, clock, S, L)
    requires QueueInv(D, L, counter) && OneLivePerId(D, L)
    requires FirstLive(D, n) && n.vertex.id == end && Admissible(Edge(A), Table(H), end)
    ensures end in g && NoLighterPath(A, begin, end, g[end])
  {
    PopLocated(D, L, counter, n);
    forall p | PathFromTo(A, p, begin, end) ensures g[end] <= Weight(A, p) {
      AdmissibleBound(A, H, begin, end, g, costs, back, stamp, clock, S, L, D, counter, n, p);
    }
  }

  /**
   * a_star, on the adjacency A, the vertices V and their positions P, all
   * under the same ids: with either id missing it returns ([], 0); otherwise
   * it queues begin with priority 0 and runs Explore.  popped holds the
   * vertices the search took off the queue, the ones pop marks visited:
   * begin's and, when a path is found, end's; only vertices reachable from
   * begin; and all of those when end cannot be reached.
   */
  method Search(A: Adjacency, V: map<Id, Vertex>, P: map<Id, Point>, metric: (Point, Point) -> int, begin: Id, end: Id)
    returns (path: seq<Id>, dist: int, popped: set<Vertex>)
    requires Closed(A) && NonNegativeWeights(A) && V.Keys == A.Keys && P.Keys == A.Keys && ById(V)
    ensures path == [] <==> !Reachable(A, begin, end)
    ensures path == [] ==> dist == 0
    ensures path != [] ==> PathFromTo(A, path, begin, end) && dist == Weight(A, path)
    ensures end in P && Consistent(Edge(A), Estimate(metric, P, P[end])) ==>
              NoLighterPath(A, begin, end, dist)
    ensures end in P && Admissible(Edge(A), Estimate(metric, P, P[end]), end) ==>
              NoLighterPath(A, begin, end, dist)
    ensures forall v :: v in popped ==> v in V.Values && Reachable(A, begin, v.id)
    ensures begin in A && end in A ==> V[begin] in popped
    ensures path != [] ==> V[end] in popped
    ensures path == [] && begin in A && end in A ==> forall x :: x in A && Reachable(A, begin, x) ==> V[x] in popped
    ensures begin !in A || end !in A ==> popped == {}
  {
    if begin !in A || end !in A {
      OutsideUnreachable(A, begin, end);
      return [], 0, {};
    }
    ghost var H := TableOf(metric, P, end);
    ghost var ks := Enumerate(A.Keys);
    var q := PushEntry([], map[], 0, 0, V[begin]);
    StartQueued(V, begin, q);
    var data, locator, counter := q.0, q.1, q.2;
    var shortest, costs, back := map[begin := 0], map[begin := metric(P[begin], P[end])], map[];
    ghost var stamp, clock, S := map[begin := 0], 1, {};
    SearchStart(A, H, begin, end, shortest, costs, back, stamp, clock, S, locator);
    path, dist, popped := Explore(A, V, P, metric, begin, end, H, ks, data, locator, counter,
                                  shortest, costs, back, stamp, clock, S);
    EstimateTable(A, metric, P, end, H);
    VisitsSay(A, V, begin, end, path != [], popped);
  }

  /** The table of the estimates metric gives from each position to end's. */
  lemma TableOf(metric: (Point, Point) -> int, P: map<Id, Point>, end: Id) returns (H: map<Id, int>)
    requires end in P
    ensures Tabulates(H, metric, P, end)
  {
    H := map id | id in P :: metric(P[id], P[end]);
  }

  /** The queue a_star starts from holds begin's vertex alone, as Queued says. */
  lemma StartQueued(V: map<Id, Vertex>, begin: Id, q: (seq<Node>, map<Id, Node>, nat))
    requires ById(V) && begin in V && q == PushEntry([], map[], 0, 0, V[begin])
    ensures Queued(V, q.0, q.1, q.2) && q.1.Keys == {begin}
  {
  }

  /** What Visits says, clause by clause. */
  lemma VisitsSay(A: Adjacency, V: map<Id, Vertex>, begin: Id, end: Id, found: bool, popped: set<Vertex>)
    requires Visits(A, V, begin, end, found, popped)
    ensures forall v :: v in popped ==> v in V.Values && Reachable(A, begin, v.id)
    ensures begin in V && V[begin] in popped
    ensures found ==> end in V && V[end] in popped
    ensures !found ==> forall x :: x in V && Reachable(A, begin, x) ==> V[x] in popped
  {
  }

  /** The table H of the estimates metric gives: a consistent estimate makes it monotone, an admissible one admissible. */
  lemma EstimateTable(A: Adjacency, metric: (Point, Point) -> int, P: map<Id, Point>, end: Id, H: map<Id, int>)
    requires Closed(A) && P.Keys == A.Keys && Tabulates(H, metric, P, end)
    ensures Consistent(Edge(A), Estimate(metric, P, P[end])) ==> Monotone(A, H)
    ensures Admissible(Edge(A), Estimate(metric, P, P[end]), end) ==> Admissible(Edge(A), Table(H), end)
  {
    var h := Estimate(metric, P, P[end]);
    if Consistent(Edge(A), h) {
      ConsistentMonotone(A, H, h);
    }
    if Admissible(Edge(A), h, end) {
      assert forall x :: h(x) == Table(H)(x);
      AdmissibleAgree(Edge(A), h, Table(H), end);
    }
  }

  /** The queue invariants the search keeps, and every live entry holds the vertex of its id. */
  ghost predicate Queued(V: map<Id, Vertex>, D: seq<Node>, L: map<Id, Node>, counter: nat)
  {
    QueueInv(D, L, counter) && OneLivePerId(D, L) && (D != [] ==> LiveNodes(D) != {}) && Carried(V, D)
  }

  /** What pop leaves of an entry-bearing queue is still as Queued says. */
  lemma PopQueued(V: map<Id, Vertex>, D: seq<Node>, L: map<Id, Node>, counter: nat, D': seq<Node>, L': map<Id, Node>)
    requires Queued(V, D, L, counter) && QueueInv(D', L', counter) && OneLivePerId(D', L')
    requires (forall m :: m in D' ==> m in D) && (D' == [] || D'[MinNode(D')].vertex != null)
    ensures Queued(V, D', L', counter)
  {
    if D' != [] {
      assert D'[MinNode(D')] in LiveNodes(D');
    }
  }

  /** The loop of a_star: pops the least entry until end comes off the queue or the queue runs empty. */
  method Explore(A: Adjacency, V: map<Id, Vertex>, P: map<Id, Point>, metric: (Point, Point) -> int,
                 begin: Id, end: Id, ghost H: map<Id, int>, ghost ks: seq<Id>,
                 data0: seq<Node>, locator0: map<Id, Node>, counter0: nat,
                 shortest0: map<Id, int>, costs0: map<Id, int>, back0: map<Id, Id>,
                 ghost stamp0: map<Id, nat>, ghost clock0: nat, ghost S0: set<Id>)
    returns (path: seq<Id>, dist: int, popped: set<Vertex>)
    requires V.Keys == A.Keys && ById(V) && Tabulates(H, metric, P, end) && Lists(A, ks)
    requires Queued(V, data0, locator0, counter0)
    requires Searching(A, H, begin, end, shortest0, costs0, back0, stamp0, clock0, S0, locator0)
    requires S0 == {} && begin in locator0
    ensures path == [] <==> !Reachable(A, begin, end)
    ensures path == [] ==> dist == 0
    ensures path != [] ==> PathFromTo(A, path, begin, end) && dist == Weight(A, path)
    ensures Monotone(A, H) ==> NoLighterPath(A, begin, end, dist)
    ensures Admissible(Edge(A), Table(H), end) ==> NoLighterPath(A, begin, end, dist)
    ensures Visits(A, V, begin, end, path != [], popped)
  {
    var data, locator, counter := data0, locator0, counter0;
    var shortest, costs, back := shortest0, costs0, back0;
    ghost var stamp, clock, S := stamp0, clock0, S0;
    popped := {};
    TalliesBounded(A, begin, ks, shortest, back, stamp, clock);
    while data != []
      invariant Queued(V, data, locator, counter)
      invariant Searching(A, H, begin, end, shortest, costs, back, stamp, clock, S, locator)
      invariant SumOver(ks, shortest) >= 0
      invariant Taken(V, popped, S, begin, locator)
      decreases Missing(ks, shortest), SumOver(ks, shortest), |locator.Keys|
    {
      ghost var D, L, popped1 := data, locator, popped;
      var r;
      ghost var n;
      r, n, data, locator := PopEntry(data, locator, counter);
      PopLocated(D, L, counter, n);
      if !r.Entry? {
        assert false;
      }
      var u := r.vertex;
      assert u == n.vertex && n in D;
      if u.id == end {
        path, dist := Finish(A, H, begin, end, shortest, costs, back, stamp, clock, S, L, D, counter, n);
        FinishVisits(A, H, begin, end, shortest, costs, back, stamp, clock, S, L, V, popped1, u);
        popped := popped + {u};
        return;
      }
      data, locator, counter, shortest, costs, back, stamp, clock, S, popped :=
        Settle(A, V, P, metric, begin, end, H, ks, u, n, D, L, data, locator, counter,
               shortest, costs, back, stamp, clock, S, popped);
    }
    SearchEmpty(A, H, begin, end, shortest, costs, back, stamp, clock, S);
    EmptyVisits(A, H, begin, end, shortest, costs, back, stamp, clock, S, V, popped);
    path, dist := [], 0;
  }

  /**
   * The rest of a round once pop has taken out u's entry n, from the heap D
   * with locator L, and u is not end: u joins the ids taken off the queue and
   * the vertices popped, and the edges out of it are relaxed.  The tallies
   * drop, or stay with one id fewer located.
   */
  method Settle(A: Adjacency, V: map<Id, Vertex>, P: map<Id, Point>, metric: (Point, Point) -> int,
                begin: Id, end: Id, ghost H: map<Id, int>, ghost ks: seq<Id>, u: Vertex, ghost n: Node,
                ghost D: seq<Node>, ghost L: map<Id, Node>,
                data0: seq<Node>, locator0: map<Id, Node>, counter0: nat,
                shortest0: map<Id, int>, costs0: map<Id, int>, back0: map<Id, Id>,
                ghost stamp0: map<Id, nat>, ghost clock0: nat, ghost S0: set<Id>, popped0: set<Vertex>)
    returns (data: seq<Node>, locator: map<Id, Node>, counter: nat,
             shortest: map<Id, int>, costs: map<Id, int>, back: map<Id, Id>,
             ghost stamp: map<Id, nat>, ghost clock: nat, ghost S: set<Id>, popped: set<Vertex>)
    requires V.Keys == A.Keys && ById(V) && Tabulates(H, metric, P, end) && Lists(A, ks)
    requires Queued(V, D, L, counter0)
    requires Searching(A, H, begin, end, shortest0, costs0, back0, stamp0, clock0, S0, L)
    requires Taken(V, popped0, S0, begin, L) && SumOver(ks, shortest0) >= 0
    requires FirstLive(D, n) && u == n.vertex && u.id != end && u.id in L && V[u.id] == u
    requires QueueInv(data0, locator0, counter0) && OneLivePerId(data0, locator0)
    requires (forall m :: m in data0 ==> m in D) && (data0 == [] || data0[MinNode(data0)].vertex != null)
    requires locator0 == L - {u.id}
    ensures Queued(V, data, locator, counter)
    ensures Searching(A, H, begin, end, shortest, costs, back, stamp, clock, S, locator)
    ensures SumOver(ks, shortest) >= 0 && Taken(V, popped, S, begin, locator)
    ensures Drops(ks, shortest, shortest0, locator, L)
  {
    S := S0 + {u.id};
    PopSettle(A, H, begin, end, shortest0, costs0, back0, stamp0, clock0, S0, L, D, counter0, n, S, locator0);
    PopQueued(V, D, L, counter0, data0, locator0);
    PopVisits(V, shortest0, begin, S0, L, popped0, u, locator0);
    popped := popped0 + {u};
    data, locator, counter, shortest, costs, back, stamp, clock :=
      Expand(A, V, P, metric, begin, end, H, ks, u.id, data0, locator0, counter0,
             shortest0, costs0, back0, stamp0, clock0, S);
    TalliesDrop(ks, shortest, shortest0, locator, locator0, L, u.id);
  }

  /** The round in which end comes off the queue: the path back from end, and its weight. */
  method Finish(A: Adjacency, ghost H: map<Id, int>, begin: Id, end: Id, g: map<Id, int>,
                ghost costs: map<Id, int>, back: map<Id, Id>, ghost stamp: map<Id, nat>, ghost clock: nat,
                ghost S: set<Id>, ghost L: map<Id, Node>, ghost D: seq<Node>, ghost counter: nat, ghost n: Node)
    returns (path: seq<Id>, dist: int)
    requires Searching(A, H, begin, end, g, costs, back, stamp, clock, S, L)
    requires QueueInv(D, L, counter) && OneLivePerId(D, L)
    requires FirstLive(D, n) && n.vertex.id == end
    ensures path != [] && PathFromTo(A, path, begin, end) && dist == Weight(A, path)
    ensures Monotone(A, H) ==> NoLighterPath(A, begin, end, dist)
    ensures Admissible(Edge(A), Table(H), end) ==> NoLighterPath(A, begin, end, dist)
  {
    PopFound(A, H, begin, end, g, costs, back, stamp, clock, S, L, D, counter, n);
    if Admissible(Edge(A), Table(H), end) {
      PopAdmissible(A, H, begin, end, g, costs, back, stamp, clock, S, L, D, counter, n);
    }
    path, dist := BuildPath(A, back, begin, end);
    FollowsBackWeight(A, begin, g, back, stamp, clock, path);
  }

  /**
   * The rest of a round of a_star once u, not end, is off the queue: relax
   * the edges out of u, after which the invariant of the outer loop holds again.
   */
  method Expand(A: Adjacency, V: map<Id, Vertex>, P: map<Id, Point>, metric: (Point, Point) -> int,
                begin: Id, end: Id, ghost H: map<Id, int>, ghost ks: seq<Id>, u: Id,
                data0: seq<Node>, locator0: map<Id, Node>, counter0: nat,
                shortest0: map<Id, int>, costs0: map<Id, int>, back0: map<Id, Id>,
                ghost stamp0: map<Id, nat>, ghost clock0: nat, ghost S: set<Id>)
    returns (data: seq<Node>, locator: map<Id, Node>, counter: nat,
             shortest: map<Id, int>, costs: map<Id, int>, back: map<Id, Id>,
             ghost stamp: map<Id, nat>, ghost clock: nat)
    requires V.Keys == A.Keys && ById(V) && Tabulates(H, metric, P, end) && Lists(A, ks)
    requires Queued(V, data0, locator0, counter0)
    requires u in A && Relaxing(A, H, begin, end, shortest0, costs0, back0, stamp0, clock0, S, locator0, u, A[u].Keys)
    ensures Queued(V, data, locator, counter)
    ensures Searching(A, H, begin, end, shortest, costs, back, stamp, clock, S, locator)
    ensures NoHigher(ks, shortest, shortest0, locator, locator0) && SumOver(ks, shortest) >= 0
  {
    data, locator, counter, shortest, costs, back, stamp, clock :=
      RelaxEdges(A, V, P, metric, begin, end, H, ks, u, data0, locator0, counter0,
                 shortest0, costs0, back0, stamp0, clock0, S);
    RelaxDone(A, H, begin, end, shortest, costs, back, stamp, clock, S, locator, u);
    TalliesBounded(A, begin, ks, shortest, back, stamp, clock);
  }

  /** The measure of the outer loop of a_star drops: the tallies, or else the number of ids located. */
  ghost predicate Drops(ks: seq<Id>, g': map<Id, int>, g: map<Id, int>, L': map<Id, Node>, L: map<Id, Node>)
  {
    || Missing(ks, g') < Missing(ks, g)
    || (Missing(ks, g') == Missing(ks, g) && SumOver(ks, g') < SumOver(ks, g))
    || (Missing(ks, g') == Missing(ks, g) && SumOver(ks, g') == SumOver(ks, g) && |L'.Keys| < |L.Keys|)
  }

  /** A round that takes u off the queue and then does not raise the tallies lowers the measure of the outer loop. */
  lemma TalliesDrop(ks: seq<Id>, g': map<Id, int>, g: map<Id, int>, L': map<Id, Node>, Lp: map<Id, Node>,
                    L: map<Id, Node>, u: Id)
    requires NoHigher(ks, g', g, L', Lp) && u in L && Lp == L - {u}
    ensures Drops(ks, g', g, L', L)
  {
    assert Lp.Keys == L.Keys - {u};
  }

  /** The inner loop of a_star: relaxes each edge out of u, the id just taken off the queue. */
  method RelaxEdges(A: Adjacency, V: map<Id, Vertex>, P: map<Id, Point>, metric: (Point, Point) -> int,
                    begin: Id, end: Id, ghost H: map<Id, int>, ghost ks: seq<Id>, u: Id,
                    data0: seq<Node>, locator0: map<Id, Node>, counter0: nat,
                    shortest0: map<Id, int>, costs0: map<Id, int>, back0: map<Id, Id>,
                    ghost stamp0: map<Id, nat>, ghost clock0: nat, ghost S: set<Id>)
    returns (data: seq<Node>, locator: map<Id, Node>, counter: nat,
             shortest: map<Id, int>, costs: map<Id, int>, back: map<Id, Id>,
             ghost stamp: map<Id, nat>, ghost clock: nat)
    requires V.Keys == A.Keys && ById(V) && Tabulates(H, metric, P, end) && Lists(A, ks)
    requires Queued(V, data0, locator0, counter0)
    requires u in A && Relaxing(A, H, begin, end, shortest0, costs0, back0, stamp0, clock0, S, locator0, u, A[u].Keys)
    ensures Queued(V, data, locator, counter)
    ensures Relaxing(A, H, begin, end, shortest, costs, back, stamp, clock, S, locator, u, {})
    ensures NoHigher(ks, shortest, shortest0, locator, locator0)
  {
    data, locator, counter := data0, locator0, counter0;
    shortest, costs, back, stamp, clock := shortest0, costs0, back0, stamp0, clock0;
    var rest := A[u].Keys;
    while rest != {}
      invariant Queued(V, data, locator, counter)
      invariant Relaxing(A, H, begin, end, shortest, costs, back, stamp, clock, S, locator, u, rest)
      invariant NoHigher(ks, shortest, shortest0, locator, locator0)
      decreases rest
    {
      var t :| t in rest;
      ghost var g1, L1 := shortest, locator;
      data, locator, counter, shortest, costs, back, stamp, clock :=
        RelaxEdge(A, V, P, metric, begin, end, H, ks, u, t, data, locator, counter,
                  shortest, costs, back, stamp, clock, S, rest);
      NoHigherTrans(ks, shortest, g1, shortest0, locator, L1, locator0);
      rest := rest - {t};
    }
  }

  /** One round of the inner loop of a_star: the edge from u to t lowers the cost of t, or is passed over. */
  method RelaxEdge(A: Adjacency, V: map<Id, Vertex>, P: map<Id, Point>, metric: (Point, Point) -> int,
                   begin: Id, end: Id, ghost H: map<Id, int>, ghost ks: seq<Id>, u: Id, t: Id,
                   data0: seq<Node>, locator0: map<Id, Node>, counter0: nat,
                   shortest0: map<Id, int>, costs0: map<Id, int>, back0: map<Id, Id>,
                   ghost stamp0: map<Id, nat>, ghost clock0: nat, ghost S: set<Id>, ghost rest: set<Id>)
    returns (data: seq<Node>, locator: map<Id, Node>, counter: nat,
             shortest: map<Id, int>, costs: map<Id, int>, back: map<Id, Id>,
             ghost stamp: map<Id, nat>, ghost clock: nat)
    requires V.Keys == A.Keys && ById(V) && Tabulates(H, metric, P, end) && Lists(A, ks) && t in rest
    requires Queued(V, data0, locator0, counter0)
    requires Relaxing(A, H, begin, end, shortest0, costs0, back0, stamp0, clock0, S, locator0, u, rest)
    ensures Queued(V, data, locator, counter)
    ensures Relaxing(A, H, begin, end, shortest, costs, back, stamp, clock, S, locator, u, rest - {t})
    ensures NoHigher(ks, shortest, shortest0, locator, locator0)
  {
    var possible := shortest0[u] + A[u][t];
    if t !in shortest0 || possible < shortest0[t] {
      data, locator, counter, shortest, costs, back, stamp, clock :=
        Lowered(A, V, P, metric, begin, end, H, ks, u, t, possible, data0, locator0, counter0,
                shortest0, costs0, back0, stamp0, clock0, S, rest);
    } else {
      data, locator, counter := data0, locator0, counter0;
      shortest, costs, back, stamp, clock := shortest0, costs0, back0, stamp0, clock0;
      RelaxSkip(A, H, begin, end, shortest, costs, back, stamp, clock, S, locator, u, rest, t);
    }
  }

  /**
   * The edge from u to t gives t the lower cost possible: t gets its new cost,
   * priority and back edge, and its vertex is queued with that priority.
   */
  method Lowered(A: Adjacency, V: map<Id, Vertex>, P: map<Id, Point>, metric: (Point, Point) -> int,
                 begin: Id, end: Id, ghost H: map<Id, int>, ghost ks: seq<Id>, u: Id, t: Id, possible: int,
                 data0: seq<Node>, locator0: map<Id, Node>, counter0: nat,
                 shortest0: map<Id, int>, costs0: map<Id, int>, back0: map<Id, Id>,
                 ghost stamp0: map<Id, nat>, ghost clock0: nat, ghost S: set<Id>, ghost rest: set<Id>)
    returns (data: seq<Node>, locator: map<Id, Node>, counter: nat,
             shortest: map<Id, int>, costs: map<Id, int>, back: map<Id, Id>,
             ghost stamp: map<Id, nat>, ghost clock: nat)
    requires V.Keys == A.Keys && ById(V) && Tabulates(H, metric, P, end) && Lists(A, ks) && t in rest
    requires Queued(V, data0, locator0, counter0)
    requires Relaxing(A, H, begin, end, shortest0, costs0, back0, stamp0, clock0, S, locator0, u, rest)
    requires possible == shortest0[u] + A[u][t] && (t !in shortest0 || possible < shortest0[t])
    ensures Queued(V, data, locator, counter)
    ensures Relaxing(A, H, begin, end, shortest, costs, back, stamp, clock, S, locator, u, rest - {t})
    ensures Lower(ks, shortest, shortest0)
  {
    var estimate := metric(P[t], P[end]);
    shortest, costs, back := shortest0[t := possible], costs0[t := possible + estimate], back0[t := u];
    stamp, clock := stamp0[t := clock0], clock0 + 1;
    ghost var L := locator0[t := Node(possible + estimate, counter0, V[t])];
    RelaxStep(A, H, begin, end, ks, shortest0, costs0, back0, stamp0, clock0, S, locator0, u, rest, t, possible,
              estimate, Node(possible + estimate, counter0, V[t]), shortest, costs, back, stamp, clock, L);
    var q := Enqueue(V, data0, locator0, counter0, t, possible + estimate);
    data, locator, counter := q.0, q.1, q.2;
  }

  /** Queues the vertex of t with the given priority: a push when t is not located, an update otherwise. */
  function Enqueue(V: map<Id, Vertex>, D: seq<Node>, L: map<Id, Node>, counter: nat, t: Id, priority: int)
    : (r: (seq<Node>, map<Id, Node>, nat))
    requires ById(V) && t in V && Queued(V, D, L, counter)
    ensures Queued(V, r.0, r.1, r.2)
    ensures r.1 == L[t := Node(priority, counter, V[t])]
  {
    if t !in L then
      PushEntry(D, L, counter, priority, V[t])
    else
      CarriedTombstone(V, D, L[t].count, Node(priority, counter, V[t]));
      UpdateEntry(D, L, counter, priority, V[t])
  }

}
