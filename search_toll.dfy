/**
 * tollways_algorithm: the cheapest way from a start vertex to a target vertex
 * when up to `budget` edges may each be taken at half their toll, rounded
 * down, by spending a coupon.  The search is Dijkstra's method over the
 * states (vertex id, coupons used) of Paths.TollStep, with a
 * TollWayPriorityQueue that is only ever pushed to: a state whose cost drops
 * gets a second live entry, and the older one later comes out of pop with a
 * KeyError, which the search skips.
 *
 * The search runs on values: the adjacency A, the vertices V by id, and the
 * parts (data, locator, counter) of the queue.  `costs` holds the states the
 * source's costs dict has an entry for.
 */
module TollSearch {
  import opened Wrappers
  import opened Walks
  import opened Paths
  import opened Measures
  import opened Vertices
  import opened TollQueues

  /** The most coupons a walk that starts with none can have used. */
  function Top(budget: int): nat
  {
    if budget < 0 then 0 else budget
  }

  /** The states of the search: a vertex of A with a coupon count the budget allows. */
  ghost function Space(A: Adjacency, budget: int): set<State>
  {
    set id, k | id in A && 0 <= k <= Top(budget) :: (id, k)
  }

  ghost predicate ListsStates(A: Adjacency, budget: int, ks: seq<State>)
  {
    Distinct(ks) && forall x :: x in Space(A, budget) ==> x in ks
  }

  /**
   * What the search promises when it returns (cost, coupons): cost is the
   * least cost of a toll walk from (start, 0) to the target at any coupon
   * count, some such walk ends at the target having used `coupons`, which
   * the budget allows, and no walk of that least cost ends at the target
   * having used fewer coupons (the queue breaks ties in priority by coupons).
   */
  ghost predicate Cheapest(A: Adjacency, budget: int, start: Id, target: Id, cost: int, coupons: int)
  {
    && 0 <= coupons <= Top(budget)
    && (exists p :: WalkFromTo(TollStep(A, budget), p, (start, 0), (target, coupons))
                    && Cost(TollStep(A, budget), p) == cost)
    && (forall k, p :: WalkFromTo(TollStep(A, budget), p, (start, 0), (target, k)) ==>
                         cost <= Cost(TollStep(A, budget), p))
    && (forall k, p :: (WalkFromTo(TollStep(A, budget), p, (start, 0), (target, k)) &&
                          Cost(TollStep(A, budget), p) == cost) ==> coupons <= k)
  }

  // ---------------------------------------------------------------------
  // The state of the search between rounds, in parts.
  // ---------------------------------------------------------------------

  ghost predicate Frame(A: Adjacency, start: Id, target: Id)
  {
    Closed(A) && NonNegativeWeights(A) && start in A && target in A
  }

  /** Each entry is live, and a walk W[count] from (start, 0) to its key costs at most its priority. */
  ghost predicate Witnessed(A: Adjacency, budget: int, start: Id, D: seq<TollNode>, W: map<nat, seq<State>>)
  {
    forall n :: n in D ==>
      && n.vertex != null && n.count in W
      && WalkFromTo(TollStep(A, budget), W[n.count], (start, 0), KeyOf(n))
      && Cost(TollStep(A, budget), W[n.count]) <= n.priority
  }

  /**
   * Each state with a cost is settled (S) or located, not both, and the
   * located entry of a state carries its cost.
   */
  ghost predicate Booked(g: map<State, int>, S: set<State>, L: map<State, TollNode>)
  {
    && S <= g.Keys
    && (forall key :: key in g ==> key in S || key in L)
    && (forall key :: key in L ==> key in g && key !in S && L[key].priority == g[key])
  }

  /**
   * An entry's key has a cost no higher than its priority, which is at least
   * floor, the priority of the last entry settled; an entry other than the
   * located one of its key has a higher priority than that one.
   */
  ghost predicate Ordered(D: seq<TollNode>, g: map<State, int>, L: map<State, TollNode>, floor: int)
  {
    forall n :: n in D && n.vertex != null ==>
      && KeyOf(n) in g && g[KeyOf(n)] <= n.priority && floor <= n.priority
      && (KeyOf(n) in L ==> n == L[KeyOf(n)] || L[KeyOf(n)].priority < n.priority)
  }

  /** Costs are non-negative and on states of the finite space; settled costs are at most floor. */
  ghost predicate Bounded(A: Adjacency, budget: int, start: Id, g: map<State, int>, S: set<State>, floor: int)
  {
    && (start, 0) in g && g[(start, 0)] <= 0 && 0 <= floor
    && (forall key :: key in g ==> key in Space(A, budget) && 0 <= g[key])
    && (forall s :: s in S && s in g ==> g[s] <= floor)
  }

  ghost predicate Core(A: Adjacency, budget: int, start: Id, target: Id, g: map<State, int>, S: set<State>,
                       floor: int, D: seq<TollNode>, L: map<State, TollNode>, counter: nat, W: map<nat, seq<State>>)
  {
    && Frame(A, start, target)
    && TollQueueInv(D, L, counter)
    && Witnessed(A, budget, start, D, W)
    && Booked(g, S, L)
    && Ordered(D, g, L, floor)
    && Bounded(A, budget, start, g, S, floor)
    && Optimal(TollStep(A, budget), (start, 0), g, S)
    && (forall s :: s in S ==> s.0 != target)
  }

  /** The invariant of the outer loop. */
  ghost predicate Searching(A: Adjacency, budget: int, start: Id, target: Id, g: map<State, int>, S: set<State>,
                            floor: int, D: seq<TollNode>, L: map<State, TollNode>, counter: nat, W: map<nat, seq<State>>)
  {
    Core(A, budget, start, target, g, S, floor, D, L, counter, W) && Relaxed(TollStep(A, budget), g, S)
  }

  /**
   * Every step out of a settled state is relaxed, except the steps out of u
   * to a vertex still in rest or to a state still in skip.
   */
  ghost predicate RelaxedBut(step: (State, State) -> Option<int>, g: map<State, int>, S: set<State>,
                             u: State, rest: set<Id>, skip: set<State>)
  {
    && S <= g.Keys
    && (forall c, t :: c in S && step(c, t).Some? && !(c == u && (t.0 in rest || t in skip)) ==>
                         t in g && g[t] <= g[c] + step(c, t).value)
  }

  /** The invariant of the inner loop, which relaxes the steps out of u, just settled at cost floor by the walk pw. */
  ghost predicate Relaxing(A: Adjacency, budget: int, start: Id, target: Id, g: map<State, int>, S: set<State>,
                           floor: int, D: seq<TollNode>, L: map<State, TollNode>, counter: nat, W: map<nat, seq<State>>,
                           u: State, rest: set<Id>, skip: set<State>, pw: seq<State>)
  {
    && Core(A, budget, start, target, g, S, floor, D, L, counter, W)
    && u in S && u in g && g[u] == floor && u.0 in A
    && RelaxedBut(TollStep(A, budget), g, S, u, rest, skip)
    && WalkFromTo(TollStep(A, budget), pw, (start, 0), u) && Cost(TollStep(A, budget), pw) <= floor
  }

  /** Costs never rise, and a state keeps its cost once it has one. */
  ghost predicate Decreased(g': map<State, int>, g: map<State, int>)
  {
    forall key :: key in g ==> key in g' && g'[key] <= g[key]
  }

  /** The tallies over ks drop, or nothing changed. */
  ghost predicate NoHigher(ks: seq<State>, g': map<State, int>, g: map<State, int>, D': seq<TollNode>, D: seq<TollNode>)
  {
    Lower(ks, g', g) || (g' == g && D' == D)
  }

  // ---------------------------------------------------------------------
  // Lemmas on the rounds of the search
  // ---------------------------------------------------------------------

  lemma SearchStart(A: Adjacency, budget: int, start: Id, target: Id, v: Vertex, g: map<State, int>,
                    D: seq<TollNode>, L: map<State, TollNode>, W: map<nat, seq<State>>)
    requires Frame(A, start, target) && v.id == start
    requires D == [TollNode(0, 0, 0, v)] && L == map[(start, 0) := TollNode(0, 0, 0, v)]
    requires g == map[(start, 0) := 0] && W == map[0 := [(start, 0)]]
    ensures Searching(A, budget, start, target, g, {}, 0, D, L, 1, W)
  {
    assert (start, 0) in Space(A, budget);
  }

  /** A zero heuristic is consistent for non-negative steps. */
  lemma ZeroConsistent(A: Adjacency, budget: int)
    requires NonNegativeWeights(A)
    ensures Consistent(TollStep(A, budget), (s: State) => 0)
  {
    TollStepNonNegative(A, budget);
  }

  /** The least live entry, when its key is located, is the located entry and carries the cost of its key. */
  lemma PopLocated(A: Adjacency, budget: int, start: Id, target: Id, g: map<State, int>, S: set<State>,
                   floor: int, D: seq<TollNode>, L: map<State, TollNode>, counter: nat, W: map<nat, seq<State>>, n: TollNode)
    requires Searching(A, budget, start, target, g, S, floor, D, L, counter, W)
    requires n in LiveTollNodes(D) && (forall m :: m in LiveTollNodes(D) ==> TollAtMost(n, m))
    requires KeyOf(n) in L
    ensures L[KeyOf(n)] == n && KeyOf(n) in g && g[KeyOf(n)] == n.priority
  {
    assert L[KeyOf(n)] in LiveTollNodes(D);
  }

  /**
   * The least live entry, located, costs no more than any walk from
   * (start, 0) to a state that is not settled.
   */
  lemma PopCheapest(A: Adjacency, budget: int, start: Id, target: Id, g: map<State, int>, S: set<State>,
                    floor: int, D: seq<TollNode>, L: map<State, TollNode>, counter: nat, W: map<nat, seq<State>>,
                    n: TollNode, z: State, p: seq<State>)
    requires Searching(A, budget, start, target, g, S, floor, D, L, counter, W)
    requires n in LiveTollNodes(D) && (forall m :: m in LiveTollNodes(D) ==> TollAtMost(n, m))
    requires KeyOf(n) in L
    requires z !in S && WalkFromTo(TollStep(A, budget), p, (start, 0), z)
    ensures n.priority <= Cost(TollStep(A, budget), p)
  {
    var u := KeyOf(n);
    PopLocated(A, budget, start, target, g, S, floor, D, L, counter, W, n);
    ZeroConsistent(A, budget);
    var h := (s: State) => 0;
    forall y | y in L.Keys - {u} ensures y in g && g[u] + h(u) <= g[y] + h(y) {
      assert L[y] in LiveTollNodes(D);
    }
    PopOptimal(TollStep(A, budget), h, (start, 0), g, S, L.Keys - {u}, u, z, p);
  }

  /**
   * The least live entry, located and at the target, has used no more
   * coupons than any walk to the target that costs its priority: such a walk
   * passes a located state of cost at most that priority, which the heap
   * order puts after the entry, and coupons never drop along a walk.
   */
  lemma PopFewest(A: Adjacency, budget: int, start: Id, target: Id, g: map<State, int>, S: set<State>,
                  floor: int, D: seq<TollNode>, L: map<State, TollNode>, counter: nat, W: map<nat, seq<State>>,
                  n: TollNode, k: int, p: seq<State>)
    requires Searching(A, budget, start, target, g, S, floor, D, L, counter, W)
    requires n in LiveTollNodes(D) && (forall m :: m in LiveTollNodes(D) ==> TollAtMost(n, m))
    requires KeyOf(n) in L && n.vertex.id == target
    requires WalkFromTo(TollStep(A, budget), p, (start, 0), (target, k)) && Cost(TollStep(A, budget), p) == n.priority
    ensures n.coupons <= k
  {
    var step := TollStep(A, budget);
    PopLocated(A, budget, start, target, g, S, floor, D, L, counter, W, n);
    assert p[..1] == [(start, 0)];
    var i := OpenOnWalk(step, g, S, L.Keys, p, 0);
    var y := p[i];
    CostSplit(step, p, i);
    TollStepNonNegative(A, budget);
    CostNonNegative(step, p[i..]);
    assert L[y] in LiveTollNodes(D);
    assert TollAtMost(n, L[y]);
    CouponsInRange(A, budget, p);
  }

  /** When the least live entry is located and at the target, the search's answer is right. */
  lemma PopFound(A: Adjacency, budget: int, start: Id, target: Id, g: map<State, int>, S: set<State>,
                 floor: int, D: seq<TollNode>, L: map<State, TollNode>, counter: nat, W: map<nat, seq<State>>, n: TollNode)
    requires Searching(A, budget, start, target, g, S, floor, D, L, counter, W)
    requires n in LiveTollNodes(D) && (forall m :: m in LiveTollNodes(D) ==> TollAtMost(n, m))
    requires KeyOf(n) in L && n.vertex.id == target
    ensures Cheapest(A, budget, start, target, n.priority, n.coupons)
  {
    var step := TollStep(A, budget);
    var p0 := W[n.count];
    PopCheapest(A, budget, start, target, g, S, floor, D, L, counter, W, n, KeyOf(n), p0);
    CouponsInRange(A, budget, p0);
    assert p0[|p0| - 1].1 == n.coupons;
    forall k, p | WalkFromTo(step, p, (start, 0), (target, k)) ensures n.priority <= Cost(step, p) {
      PopCheapest(A, budget, start, target, g, S, floor, D, L, counter, W, n, (target, k), p);
    }
    forall k, p | WalkFromTo(step, p, (start, 0), (target, k)) && Cost(step, p) == n.priority
      ensures n.coupons <= k
    {
      PopFewest(A, budget, start, target, g, S, floor, D, L, counter, W, n, k, p);
    }
  }

  /** Taking out an entry whose key is not located keeps the invariant. */
  lemma PopStale(A: Adjacency, budget: int, start: Id, target: Id, g: map<State, int>, S: set<State>,
                 floor: int, D0: seq<TollNode>, L: map<State, TollNode>, counter: nat, W: map<nat, seq<State>>,
                 D: seq<TollNode>)
    requires Searching(A, budget, start, target, g, S, floor, D0, L, counter, W)
    requires TollQueueInv(D, L, counter) && forall m :: m in D ==> m in D0
    ensures Searching(A, budget, start, target, g, S, floor, D, L, counter, W)
  {
  }

  /** Settling the least live entry's key u keeps every closed state optimal. */
  lemma SettleOptimal(A: Adjacency, budget: int, start: Id, target: Id, g: map<State, int>, S: set<State>,
                      floor: int, D: seq<TollNode>, L: map<State, TollNode>, counter: nat, W: map<nat, seq<State>>, n: TollNode)
    requires Searching(A, budget, start, target, g, S, floor, D, L, counter, W)
    requires n in LiveTollNodes(D) && (forall m :: m in LiveTollNodes(D) ==> TollAtMost(n, m))
    requires KeyOf(n) in L
    ensures Optimal(TollStep(A, budget), (start, 0), g, S + {KeyOf(n)})
  {
    var step := TollStep(A, budget);
    PopLocated(A, budget, start, target, g, S, floor, D, L, counter, W, n);
    forall c, p | c in S + {KeyOf(n)} && c in g && WalkFromTo(step, p, (start, 0), c) ensures g[c] <= Cost(step, p) {
      if c !in S {
        PopCheapest(A, budget, start, target, g, S, floor, D, L, counter, W, n, c, p);
      }
    }
  }

  /**
   * Taking out the least live entry n, located and not at the target, and
   * settling its key at cost n.priority: the steps out of it are then still to
   * be relaxed.
   */
  lemma PopSettle(A: Adjacency, budget: int, start: Id, target: Id, g: map<State, int>, S: set<State>,
                  floor: int, D0: seq<TollNode>, L0: map<State, TollNode>, counter: nat, W: map<nat, seq<State>>,
                  n: TollNode, D: seq<TollNode>, L: map<State, TollNode>)
    requires Searching(A, budget, start, target, g, S, floor, D0, L0, counter, W)
    requires n in LiveTollNodes(D0) && (forall m :: m in LiveTollNodes(D0) ==> TollAtMost(n, m))
    requires KeyOf(n) in L0 && n.vertex.id != target
    requires TollQueueInv(D, L, counter) && (forall m :: m in D ==> m in D0) && L == L0 - {KeyOf(n)}
    ensures n.count in W && n.vertex.id in A
    ensures Relaxing(A, budget, start, target, g, S + {KeyOf(n)}, n.priority, D, L, counter, W,
                     KeyOf(n), A[n.vertex.id].Keys, {}, W[n.count])
  {
    PopLocated(A, budget, start, target, g, S, floor, D0, L0, counter, W, n);
    SettleOptimal(A, budget, start, target, g, S, floor, D0, L0, counter, W, n);
    assert KeyOf(n) in Space(A, budget);
    forall m | m in D && m.vertex != null ensures n.priority <= m.priority {
      assert m in LiveTollNodes(D0);
    }
  }

  /** The steps out of u to the states for vertex t: one at full toll, and one with a coupon while the budget allows. */
  function Targets(u: State, t: Id, budget: int): set<State>
  {
    if u.1 < budget then {(t, u.1), (t, u.1 + 1)} else {(t, u.1)}
  }

  /** The steps out of u along the edge to t: their costs, and what is left of Targets after each. */
  lemma StepsAlong(A: Adjacency, budget: int, u: State, t: Id)
    requires u.0 in A && t in A[u.0]
    ensures TollStep(A, budget)(u, (t, u.1)) == Some(A[u.0][t])
    ensures u.1 < budget ==> TollStep(A, budget)(u, (t, u.1 + 1)) == Some(A[u.0][t] / 2)
    ensures Targets(u, t, budget) - {(t, u.1)} == if u.1 < budget then {(t, u.1 + 1)} else {}
    ensures {(t, u.1 + 1)} - {(t, u.1 + 1)} == {}
  {
  }

  /** Turning to the edge from u to t: its steps are the ones still to be relaxed. */
  lemma RelaxFocus(A: Adjacency, budget: int, start: Id, target: Id, g: map<State, int>, S: set<State>,
                   floor: int, D: seq<TollNode>, L: map<State, TollNode>, counter: nat, W: map<nat, seq<State>>,
                   u: State, rest: set<Id>, pw: seq<State>, t: Id)
    requires Relaxing(A, budget, start, target, g, S, floor, D, L, counter, W, u, rest, {}, pw) && t in rest
    ensures Relaxing(A, budget, start, target, g, S, floor, D, L, counter, W, u, rest - {t}, Targets(u, t, budget), pw)
  {
    FocusRelaxed(A, budget, g, S, u, rest, t);
  }

  lemma FocusRelaxed(A: Adjacency, budget: int, g: map<State, int>, S: set<State>, u: State, rest: set<Id>, t: Id)
    requires RelaxedBut(TollStep(A, budget), g, S, u, rest, {})
    ensures RelaxedBut(TollStep(A, budget), g, S, u, rest - {t}, Targets(u, t, budget))
  {
    var step := TollStep(A, budget);
    forall c, y | c in S && step(c, y).Some? && !(c == u && (y.0 in rest - {t} || y in Targets(u, t, budget)))
      ensures y in g && g[y] <= g[c] + step(c, y).value
    {
      if c == u && y.0 == t {
        assert false;
      }
    }
  }

  /** A step out of u that does not lower the cost of its end needs no change. */
  lemma OfferSkip(A: Adjacency, budget: int, start: Id, target: Id, g: map<State, int>, S: set<State>,
                  floor: int, D: seq<TollNode>, L: map<State, TollNode>, counter: nat, W: map<nat, seq<State>>,
                  u: State, rest: set<Id>, skip: set<State>, pw: seq<State>, x: State, cost: int)
    requires Relaxing(A, budget, start, target, g, S, floor, D, L, counter, W, u, rest, skip, pw) && x in skip
    requires TollStep(A, budget)(u, x).Some? && cost == floor + TollStep(A, budget)(u, x).value
    requires x in g && cost >= g[x]
    ensures Relaxing(A, budget, start, target, g, S, floor, D, L, counter, W, u, rest, skip - {x}, pw)
  {
  }

  /** A new cost for x, at least floor and lower than its old one: x is not settled, and the bookkeeping holds. */
  lemma OfferBooked(g0: map<State, int>, S: set<State>, floor: int, L0: map<State, TollNode>,
                    x: State, cost: int, nd: TollNode, g: map<State, int>, L: map<State, TollNode>)
    requires Booked(g0, S, L0) && (forall s :: s in S && s in g0 ==> g0[s] <= floor)
    requires floor <= cost && (x !in g0 || cost < g0[x])
    requires nd.priority == cost && L == L0[x := nd] && g == g0[x := cost]
    ensures x !in S && Booked(g, S, L)
  {
  }

  /** A new entry nd for x, at a cost lower than its old one, keeps the entries in order. */
  lemma OfferOrdered(D0: seq<TollNode>, g0: map<State, int>, L0: map<State, TollNode>, floor: int,
                     x: State, cost: int, nd: TollNode, D: seq<TollNode>, g: map<State, int>, L: map<State, TollNode>)
    requires Ordered(D0, g0, L0, floor) && (forall key :: key in L0 ==> key in g0 && L0[key].priority == g0[key])
    requires floor <= cost && (x !in g0 || cost < g0[x])
    requires nd.priority == cost && nd.vertex != null && KeyOf(nd) == x && nd !in D0
    requires D == D0 + [nd] && L == L0[x := nd] && g == g0[x := cost]
    ensures Ordered(D, g, L, floor)
  {
  }

  /** A new cost for x, a state of the space outside S, at least floor and lower than its old one, keeps the bounds. */
  lemma OfferBounded(A: Adjacency, budget: int, start: Id, g0: map<State, int>, S: set<State>, floor: int,
                     x: State, cost: int, g: map<State, int>)
    requires Bounded(A, budget, start, g0, S, floor)
    requires x in Space(A, budget) && x !in S && floor <= cost && (x !in g0 || cost < g0[x]) && g == g0[x := cost]
    ensures Bounded(A, budget, start, g, S, floor)
  {
  }

  /** A step out of u that lowers the cost of x: the walk to u extended by x backs the new entry. */
  lemma OfferWitness(A: Adjacency, budget: int, start: Id, D0: seq<TollNode>, W0: map<nat, seq<State>>, counter0: nat,
                     u: State, pw: seq<State>, x: State, cost: int, nd: TollNode, D: seq<TollNode>, W: map<nat, seq<State>>)
    requires Witnessed(A, budget, start, D0, W0) && forall m :: m in D0 ==> m.count < counter0
    requires WalkFromTo(TollStep(A, budget), pw, (start, 0), u)
    requires TollStep(A, budget)(u, x).Some? && cost >= Cost(TollStep(A, budget), pw) + TollStep(A, budget)(u, x).value
    requires nd.priority == cost && nd.count == counter0 && nd.vertex != null && KeyOf(nd) == x
    requires D == D0 + [nd] && W == W0[counter0 := pw + [x]]
    ensures Witnessed(A, budget, start, D, W)
  {
    CostAppend(TollStep(A, budget), pw, x);
  }

  /** A step out of u that lowers the cost of x keeps the steps already relaxed relaxed, and relaxes this one. */
  lemma OfferRelaxed(A: Adjacency, budget: int, g0: map<State, int>, S: set<State>, floor: int,
                     u: State, rest: set<Id>, skip: set<State>, x: State, cost: int, g: map<State, int>)
    requires RelaxedBut(TollStep(A, budget), g0, S, u, rest, skip) && x in skip && x !in S
    requires u in S && u in g0 && g0[u] == floor
    requires TollStep(A, budget)(u, x).Some? && cost == floor + TollStep(A, budget)(u, x).value
    requires x !in g0 || cost < g0[x]
    requires g == g0[x := cost]
    ensures RelaxedBut(TollStep(A, budget), g, S, u, rest, skip - {x})
  {
  }

  /** Settled costs do not change when the cost of a state outside S drops. */
  lemma OfferOptimal(A: Adjacency, budget: int, start: Id, g0: map<State, int>, S: set<State>, x: State, cost: int,
                     g: map<State, int>)
    requires Optimal(TollStep(A, budget), (start, 0), g0, S) && x !in S && g == g0[x := cost]
    ensures Optimal(TollStep(A, budget), (start, 0), g, S)
  {
    var step := TollStep(A, budget);
    forall c, p | c in S && c in g && WalkFromTo(step, p, (start, 0), c) ensures g[c] <= Cost(step, p) {
      assert g[c] == g0[c];
    }
  }

  /** Pushing a new entry for x, at a cost lower than its old one, keeps the invariant of the inner loop. */
  lemma OfferPush(A: Adjacency, budget: int, start: Id, target: Id, ks: seq<State>, g0: map<State, int>, S: set<State>,
                  floor: int, D0: seq<TollNode>, L0: map<State, TollNode>, counter0: nat, W0: map<nat, seq<State>>,
                  u: State, rest: set<Id>, skip: set<State>, pw: seq<State>, x: State, cost: int, nd: TollNode,
                  g: map<State, int>, D: seq<TollNode>, L: map<State, TollNode>, counter: nat, W: map<nat, seq<State>>)
    requires Relaxing(A, budget, start, target, g0, S, floor, D0, L0, counter0, W0, u, rest, skip, pw) && x in skip
    requires TollStep(A, budget)(u, x).Some? && cost == floor + TollStep(A, budget)(u, x).value
    requires x !in g0 || cost < g0[x]
    requires nd == TollNode(cost, x.1, counter0, nd.vertex) && nd.vertex != null && nd.vertex.id == x.0
    requires TollQueueInv(D, L, counter)
    requires D == D0 + [nd] && L == L0[x := nd] && g == g0[x := cost] && W == W0[counter0 := pw + [x]]
    requires ListsStates(A, budget, ks)
    ensures Relaxing(A, budget, start, target, g, S, floor, D, L, counter, W, u, rest, skip - {x}, pw)
    ensures NoHigher(ks, g, g0, D, D0) && Decreased(g, g0)
  {
    assert nd !in D0;
    StepInto(A, budget, u, x);
    TollStepNonNegative(A, budget);
    OfferBooked(g0, S, floor, L0, x, cost, nd, g, L);
    OfferOrdered(D0, g0, L0, floor, x, cost, nd, D, g, L);
    OfferBounded(A, budget, start, g0, S, floor, x, cost, g);
    OfferWitness(A, budget, start, D0, W0, counter0, u, pw, x, cost, nd, D, W);
    OfferRelaxed(A, budget, g0, S, floor, u, rest, skip, x, cost, g);
    OfferOptimal(A, budget, start, g0, S, x, cost, g);
    OfferLower(A, budget, ks, g0, x, cost);
  }

  /** A step out of a state of the space lands in the space. */
  lemma StepInto(A: Adjacency, budget: int, u: State, x: State)
    requires Closed(A) && u in Space(A, budget) && TollStep(A, budget)(u, x).Some?
    ensures x in Space(A, budget) && x.0 in A
  {
  }

  /** Lowering the cost of a state of the space lowers the tallies. */
  lemma OfferLower(A: Adjacency, budget: int, ks: seq<State>, g0: map<State, int>, x: State, cost: int)
    requires ListsStates(A, budget, ks) && x in Space(A, budget) && (x !in g0 || cost < g0[x])
    ensures Lower(ks, g0[x := cost], g0) && Decreased(g0[x := cost], g0)
  {
    TallyUpdate(ks, g0, x, cost);
  }

  /** Once every step out of u is relaxed, the invariant of the outer loop holds again. */
  lemma RelaxDone(A: Adjacency, budget: int, start: Id, target: Id, g: map<State, int>, S: set<State>,
                  floor: int, D: seq<TollNode>, L: map<State, TollNode>, counter: nat, W: map<nat, seq<State>>,
                  u: State, pw: seq<State>)
    requires Relaxing(A, budget, start, target, g, S, floor, D, L, counter, W, u, {}, {}, pw)
    ensures Searching(A, budget, start, target, g, S, floor, D, L, counter, W)
  {
  }

  lemma NoHigherTrans(ks: seq<State>, g2: map<State, int>, g1: map<State, int>, g0: map<State, int>,
                      D2: seq<TollNode>, D1: seq<TollNode>, D0: seq<TollNode>)
    requires NoHigher(ks, g2, g1, D2, D1) && NoHigher(ks, g1, g0, D1, D0)
    ensures NoHigher(ks, g2, g0, D2, D0)
  {
  }

  lemma DecreasedTrans(g2: map<State, int>, g1: map<State, int>, g0: map<State, int>)
    requires Decreased(g2, g1) && Decreased(g1, g0)
    ensures Decreased(g2, g0)
  {
  }

  /** A round of the outer loop lowers its measure. */
  lemma RoundDrops(ks: seq<State>, g: map<State, int>, g0: map<State, int>, D: seq<TollNode>, Dp: seq<TollNode>,
                   D0: seq<TollNode>, n: TollNode)
    requires NoHigher(ks, g, g0, D, Dp) && n in LiveTollNodes(D0) && LiveTollNodes(Dp) == LiveTollNodes(D0) - {n}
    ensures || Missing(ks, g) < Missing(ks, g0)
            || (Missing(ks, g) == Missing(ks, g0) && SumOver(ks, g) < SumOver(ks, g0))
            || (Missing(ks, g) == Missing(ks, g0) && SumOver(ks, g) == SumOver(ks, g0)
                && |LiveTollNodes(D)| < |LiveTollNodes(D0)|)
  {
  }

  /** Every entry is live, so a non-empty heap holds a live entry. */
  lemma AllLive(A: Adjacency, budget: int, start: Id, D: seq<TollNode>, W: map<nat, seq<State>>)
    requires Witnessed(A, budget, start, D, W) && D != []
    ensures LiveTollNodes(D) != {}
  {
    assert D[0] in LiveTollNodes(D);
  }

  /** When the heap runs empty, no toll walk from (start, 0) reaches the target. */
  lemma SearchEmpty(A: Adjacency, budget: int, start: Id, target: Id, g: map<State, int>, S: set<State>,
                    floor: int, L: map<State, TollNode>, counter: nat, W: map<nat, seq<State>>)
    requires Searching(A, budget, start, target, g, S, floor, [], L, counter, W)
    ensures forall k, p :: !WalkFromTo(TollStep(A, budget), p, (start, 0), (target, k))
  {
    var step := TollStep(A, budget);
    assert L == map[] by {
      if key :| key in L {
        assert L[key] in [];
      }
    }
    assert g.Keys == S;
    forall k, p | WalkFromTo(step, p, (start, 0), (target, k)) ensures false {
      ClosedReach(step, g, (start, 0), p);
    }
  }

  /** A toll walk to the target, at any coupon count, exists exactly when a path does. */
  lemma TollReachable(A: Adjacency, budget: int, start: Id, target: Id)
    requires start in A
    ensures Reachable(A, start, target) <==>
            exists k, p :: WalkFromTo(TollStep(A, budget), p, (start, 0), (target, k))
  {
    if Reachable(A, start, target) {
      var q :| PathFromTo(A, q, start, target);
      ZeroBudgetPath(A, budget, q);
      assert WalkFromTo(TollStep(A, budget), Lift(q), (start, 0), (target, 0));
    }
    if k, p :| WalkFromTo(TollStep(A, budget), p, (start, 0), (target, k)) {
      ProjectWalk(A, budget, p);
      assert PathFromTo(A, Project(p), start, target);
    }
  }

  // ---------------------------------------------------------------------
  // The search
  // ---------------------------------------------------------------------

  /**
   * tollways_algorithm, on the adjacency A and the vertices V under the same
   * ids: None when an id is missing or the target cannot be reached, and
   * otherwise the least cost of reaching the target with at most `budget`
   * half-price edges, and the coupons used on a way of that cost.
   */
  method Tollways(A: Adjacency, V: map<Id, Vertex>, start: Id, target: Id, budget: int) returns (r: Option<(int, int)>)
    requires Closed(A) && NonNegativeWeights(A) && V.Keys == A.Keys && ById(V)
    ensures r.None? <==> start !in A || target !in A || !Reachable(A, start, target)
    ensures r.Some? ==> Cheapest(A, budget, start, target, r.value.0, r.value.1)
  {
    if start !in A || target !in A {
      OutsideUnreachable(A, start, target);
      return None;
    }
    ghost var ks := Enumerate(Space(A, budget));
    var q := TollPushEntry([], map[], 0, 0, 0, V[start]);
    var data, locator, counter := q.0, q.1, q.2;
    var costs := map[(start, 0) := 0];
    ghost var W := map[0 := [(start, 0)]];
    SearchStart(A, budget, start, target, V[start], costs, data, locator, W);
    r := Explore(A, V, start, target, budget, ks, data, locator, counter, costs, {}, 0, W);
    TollReachable(A, budget, start, target);
    if r.Some? {
      ghost var p :| WalkFromTo(TollStep(A, budget), p, (start, 0), (target, r.value.1))
               && Cost(TollStep(A, budget), p) == r.value.0;
    }
  }

  /** The loop of tollways_algorithm. */
  method Explore(A: Adjacency, V: map<Id, Vertex>, start: Id, target: Id, budget: int, ghost ks: seq<State>,
                 data0: seq<TollNode>, locator0: map<State, TollNode>, counter0: nat, costs0: map<State, int>,
                 ghost S0: set<State>, ghost floor0: int, ghost W0: map<nat, seq<State>>)
    returns (r: Option<(int, int)>)
    requires V.Keys == A.Keys && ById(V) && ListsStates(A, budget, ks)
    requires Searching(A, budget, start, target, costs0, S0, floor0, data0, locator0, counter0, W0)
    ensures r.None? ==> forall k, p :: !WalkFromTo(TollStep(A, budget), p, (start, 0), (target, k))
    ensures r.Some? ==> Cheapest(A, budget, start, target, r.value.0, r.value.1)
  {
    var data, locator, counter, costs := data0, locator0, counter0, costs0;
    ghost var S: set<State>, floor: int, W: map<nat, seq<State>> := S0, floor0, W0;
    while data != []
      invariant Searching(A, budget, start, target, costs, S, floor, data, locator, counter, W)
      invariant Decreased(costs, costs0)
      decreases Missing(ks, costs), SumOver(ks, costs), |LiveTollNodes(data)|
    {
      AllLive(A, budget, start, data, W);
      SumOverNonNegative(ks, costs);
      ghost var D0, L0, g0 := data, locator, costs;
      var popped;
      ghost var n;
      popped, n, data, locator := TollPopEntry(data, locator, counter);
      if popped.TollEmptyHeap? {
        assert false;
      } else if popped.TollMissingKey? {
        PopStale(A, budget, start, target, costs, S, floor, D0, locator, counter, W, data);
        RoundDrops(ks, costs, g0, data, data, D0, n);
      } else {
        var current, coupons, vertex := popped.priority, popped.coupons, popped.vertex;
        if vertex.id == target {
          PopFound(A, budget, start, target, costs, S, floor, D0, L0, counter, W, n);
          return Some((current, coupons));
        }
        PopSettle(A, budget, start, target, costs, S, floor, D0, L0, counter, W, n, data, locator);
        ghost var Dp := data;
        ghost var pw := W[n.count];
        S, floor := S + {(vertex.id, coupons)}, current;
        data, locator, counter, costs, W :=
          RelaxEdges(A, V, start, target, budget, ks, vertex.id, coupons, current, data, locator, counter, costs, S, W, pw);
        RelaxDone(A, budget, start, target, costs, S, floor, data, locator, counter, W, (vertex.id, coupons), pw);
        SumOverNonNegative(ks, costs);
        RoundDrops(ks, costs, g0, data, Dp, D0, n);
        DecreasedTrans(costs, g0, costs0);
      }
    }
    SearchEmpty(A, budget, start, target, costs, S, floor, locator, counter, W);
    return None;
  }

  /** The inner loop of tollways_algorithm: relaxes the steps out of u = (id, coupons), settled at cost current. */
  method RelaxEdges(A: Adjacency, V: map<Id, Vertex>, start: Id, target: Id, budget: int, ghost ks: seq<State>,
                    id: Id, coupons: int, current: int,
                    data0: seq<TollNode>, locator0: map<State, TollNode>, counter0: nat, costs0: map<State, int>,
                    ghost S: set<State>, ghost W0: map<nat, seq<State>>, ghost pw: seq<State>)
    returns (data: seq<TollNode>, locator: map<State, TollNode>, counter: nat, costs: map<State, int>,
             ghost W: map<nat, seq<State>>)
    requires V.Keys == A.Keys && ById(V) && ListsStates(A, budget, ks) && id in A
    requires Relaxing(A, budget, start, target, costs0, S, current, data0, locator0, counter0, W0,
                      (id, coupons), A[id].Keys, {}, pw)
    ensures Relaxing(A, budget, start, target, costs, S, current, data, locator, counter, W, (id, coupons), {}, {}, pw)
    ensures NoHigher(ks, costs, costs0, data, data0) && Decreased(costs, costs0)
  {
    data, locator, counter, costs, W := data0, locator0, counter0, costs0, W0;
    var rest := A[id].Keys;
    while rest != {}
      invariant rest <= A[id].Keys
      invariant Relaxing(A, budget, start, target, costs, S, current, data, locator, counter, W, (id, coupons), rest, {}, pw)
      invariant NoHigher(ks, costs, costs0, data, data0) && Decreased(costs, costs0)
      decreases rest
    {
      var t :| t in rest;
      ghost var g1, D1 := costs, data;
      data, locator, counter, costs, W :=
        RelaxEdge(A, V, start, target, budget, ks, id, coupons, current, rest, t, data, locator, counter, costs, S, W, pw);
      NoHigherTrans(ks, costs, g1, costs0, data, D1, data0);
      DecreasedTrans(costs, g1, costs0);
      rest := rest - {t};
    }
  }

  /** The body of the inner loop: the steps from u = (id, coupons) along the edge to t, at full toll and with a coupon. */
  method RelaxEdge(A: Adjacency, V: map<Id, Vertex>, start: Id, target: Id, budget: int, ghost ks: seq<State>,
                   id: Id, coupons: int, current: int, ghost rest: set<Id>, t: Id,
                   data0: seq<TollNode>, locator0: map<State, TollNode>, counter0: nat, costs0: map<State, int>,
                   ghost S: set<State>, ghost W0: map<nat, seq<State>>, ghost pw: seq<State>)
    returns (data: seq<TollNode>, locator: map<State, TollNode>, counter: nat, costs: map<State, int>,
             ghost W: map<nat, seq<State>>)
    requires V.Keys == A.Keys && ById(V) && ListsStates(A, budget, ks) && id in A && t in rest && rest <= A[id].Keys
    requires Relaxing(A, budget, start, target, costs0, S, current, data0, locator0, counter0, W0,
                      (id, coupons), rest, {}, pw)
    ensures Relaxing(A, budget, start, target, costs, S, current, data, locator, counter, W, (id, coupons), rest - {t}, {}, pw)
    ensures NoHigher(ks, costs, costs0, data, data0) && Decreased(costs, costs0)
  {
    var weight := A[id][t];
    ghost var u := (id, coupons);
    RelaxFocus(A, budget, start, target, costs0, S, current, data0, locator0, counter0, W0, u, rest, pw, t);
    StepsAlong(A, budget, u, t);
    data, locator, counter, costs, W :=
      Offer(A, V, start, target, budget, ks, S, u, rest - {t}, Targets(u, t, budget), pw, current,
            (t, coupons), current + weight, data0, locator0, counter0, costs0, W0);
    if coupons < budget {
      ghost var g1, D1 := costs, data;
      data, locator, counter, costs, W :=
        Offer(A, V, start, target, budget, ks, S, u, rest - {t}, {(t, coupons + 1)}, pw, current,
              (t, coupons + 1), current + weight / 2, data, locator, counter, costs, W);
      NoHigherTrans(ks, costs, g1, costs0, data, D1, data0);
      DecreasedTrans(costs, g1, costs0);
    }
  }

  /**
   * One relaxation: x gets the cost `cost`, and an entry is pushed for it,
   * when x has no cost yet or a higher one; otherwise nothing changes.
   */
  method Offer(A: Adjacency, V: map<Id, Vertex>, start: Id, target: Id, budget: int, ghost ks: seq<State>,
               ghost S: set<State>, ghost u: State, ghost rest: set<Id>, ghost skip: set<State>, ghost pw: seq<State>,
               floor: int, x: State, cost: int,
               data0: seq<TollNode>, locator0: map<State, TollNode>, counter0: nat, costs0: map<State, int>,
               ghost W0: map<nat, seq<State>>)
    returns (data: seq<TollNode>, locator: map<State, TollNode>, counter: nat, costs: map<State, int>,
             ghost W: map<nat, seq<State>>)
    requires V.Keys == A.Keys && ById(V) && ListsStates(A, budget, ks)
    requires Relaxing(A, budget, start, target, costs0, S, floor, data0, locator0, counter0, W0, u, rest, skip, pw)
    requires x in skip && TollStep(A, budget)(u, x).Some? && cost == floor + TollStep(A, budget)(u, x).value
    ensures Relaxing(A, budget, start, target, costs, S, floor, data, locator, counter, W, u, rest, skip - {x}, pw)
    ensures NoHigher(ks, costs, costs0, data, data0) && Decreased(costs, costs0)
    ensures x !in costs0 || cost < costs0[x] ==>
              && 0 <= x.1 <= Top(budget)
              && data == data0 + [TollNode(cost, x.1, counter0, V[x.0])]
              && costs == costs0[x := cost]
    ensures !(x !in costs0 || cost < costs0[x]) ==> data == data0 && costs == costs0
  {
    StepInto(A, budget, u, x);
    if x !in costs0 || cost < costs0[x] {
      var q := TollPushEntry(data0, locator0, counter0, cost, x.1, V[x.0]);
      data, locator, counter := q.0, q.1, q.2;
      costs := costs0[x := cost];
      W := W0[counter0 := pw + [x]];
      OfferPush(A, budget, start, target, ks, costs0, S, floor, data0, locator0, counter0, W0, u, rest, skip, pw,
                x, cost, TollNode(cost, x.1, counter0, V[x.0]), costs, data, locator, counter, W);
    } else {
      OfferSkip(A, budget, start, target, costs0, S, floor, data0, locator0, counter0, W0, u, rest, skip, pw, x, cost);
      data, locator, counter, costs, W := data0, locator0, counter0, costs0, W0;
    }
  }

  // ---------------------------------------------------------------------
  // Properties of the answer
  // ---------------------------------------------------------------------

  /** With no coupons to spend, the answer is the plain shortest-path weight, reached with no coupon. */
  lemma ZeroBudgetCheapest(A: Adjacency, budget: int, start: Id, target: Id, cost: int, coupons: int)
    requires budget <= 0 && start in A && Cheapest(A, budget, start, target, cost, coupons)
    ensures coupons == 0
    ensures exists q :: PathFromTo(A, q, start, target) && Weight(A, q) == cost
    ensures forall q :: PathFromTo(A, q, start, target) ==> cost <= Weight(A, q)
  {
    var step := TollStep(A, budget);
    var p :| WalkFromTo(step, p, (start, 0), (target, coupons)) && Cost(step, p) == cost;
    ZeroBudgetWalk(A, budget, p);
    assert PathFromTo(A, Project(p), start, target);
    forall q | PathFromTo(A, q, start, target) ensures cost <= Weight(A, q) {
      ZeroBudgetPath(A, budget, q);
      assert WalkFromTo(step, Lift(q), (start, 0), (target, 0));
    }
  }

  /** A walk within a budget is a walk, at the same cost, within any larger budget. */
  lemma {:induction false} WidenBudget(A: Adjacency, b1: int, b2: int, p: seq<State>)
    requires b1 <= b2 && IsWalk(TollStep(A, b1), p)
    ensures IsWalk(TollStep(A, b2), p) && Cost(TollStep(A, b2), p) == Cost(TollStep(A, b1), p)
    decreases |p|
  {
    if |p| > 1 {
      var q := p[..|p| - 1];
      CostSplit(TollStep(A, b1), p, |p| - 2);
      WidenBudget(A, b1, b2, q);
      assert p == q + [p[|p| - 1]];
      CostAppend(TollStep(A, b2), q, p[|p| - 1]);
    }
  }

  /** More coupons never raise the cheapest cost. */
  lemma BudgetMonotone(A: Adjacency, b1: int, b2: int, start: Id, target: Id, c1: int, k1: int, c2: int, k2: int)
    requires b1 <= b2
    requires Cheapest(A, b1, start, target, c1, k1) && Cheapest(A, b2, start, target, c2, k2)
    ensures c2 <= c1
  {
    var p :| WalkFromTo(TollStep(A, b1), p, (start, 0), (target, k1)) && Cost(TollStep(A, b1), p) == c1;
    WidenBudget(A, b1, b2, p);
    assert WalkFromTo(TollStep(A, b2), p, (start, 0), (target, k1));
  }

  /** Coupons only help: the cheapest toll cost is at most the weight of every path. */
  lemma CheapestBelowPaths(A: Adjacency, budget: int, start: Id, target: Id, cost: int, coupons: int)
    requires Cheapest(A, budget, start, target, cost, coupons)
    ensures forall q :: PathFromTo(A, q, start, target) ==> cost <= Weight(A, q)
  {
    forall q | PathFromTo(A, q, start, target) ensures cost <= Weight(A, q) {
      ZeroBudgetPath(A, budget, q);
      assert WalkFromTo(TollStep(A, budget), Lift(q), (start, 0), (target, 0));
    }
  }
}
