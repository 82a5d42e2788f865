/**
 * The graph seen as values: an adjacency map from vertex id to the weights of
 * its outgoing edges, the paths through it, and the state graph that the
 * toll-coupon search explores.
 */
module Paths {
  import opened Wrappers
  import opened Walks

  type Id = string

  /** For each vertex id, the weight of each of its outgoing edges, by end id. */
  type Adjacency = map<Id, map<Id, int>>

  /** One step along an edge of A, at the cost of its weight. */
  function Edge(A: Adjacency): (Id, Id) -> Option<int>
  {
    (u: Id, v: Id) => if u in A && v in A[u] then Some(A[u][v]) else None
  }

  ghost predicate IsPath(A: Adjacency, p: seq<Id>)
  {
    IsWalk(Edge(A), p) && p[0] in A
  }

  ghost predicate PathFromTo(A: Adjacency, p: seq<Id>, a: Id, b: Id)
  {
    IsPath(A, p) && p[0] == a && p[|p| - 1] == b
  }

  /** The sum of the weights of the edges along a path. */
  ghost function Weight(A: Adjacency, p: seq<Id>): int
    requires IsPath(A, p)
  {
    Cost(Edge(A), p)
  }

  ghost predicate Reachable(A: Adjacency, a: Id, b: Id)
  {
    exists p :: PathFromTo(A, p, a, b)
  }

  /** No path from a to b weighs less than d. */
  ghost predicate NoLighterPath(A: Adjacency, a: Id, b: Id, d: int)
  {
    forall p :: PathFromTo(A, p, a, b) ==> d <= Weight(A, p)
  }

  ghost predicate NonNegativeWeights(A: Adjacency)
  {
    forall u, v :: u in A && v in A[u] ==> A[u][v] >= 0
  }

  /** Every edge of A ends at a vertex of A. */
  ghost predicate Closed(A: Adjacency)
  {
    forall u, v :: u in A && v in A[u] ==> v in A
  }

  /** With every edge ending at a vertex, a path needs both ends to be vertices. */
  lemma OutsideUnreachable(A: Adjacency, begin: Id, end: Id)
    requires Closed(A) && (begin !in A || end !in A)
    ensures !Reachable(A, begin, end)
  {
    forall p | PathFromTo(A, p, begin, end) ensures false {
      PathInside(A, p);
    }
  }

  lemma EdgeNonNegative(A: Adjacency)
    requires NonNegativeWeights(A)
    ensures NonNegative(Edge(A))
  {
  }

  /** Every vertex on a path of a closed adjacency map is a vertex of the graph. */
  lemma {:induction false} PathInside(A: Adjacency, p: seq<Id>)
    requires Closed(A) && IsPath(A, p)
    ensures forall i :: 0 <= i < |p| ==> p[i] in A
  {
    forall i | 0 <= i < |p| ensures p[i] in A {
      CostSplit(Edge(A), p, i);
      StaysInside(Edge(A), A.Keys, p[..i + 1]);
    }
  }

  // ---------------------------------------------------------------------
  // Predecessor chains, as left behind by a search in its back-edge map.
  // ---------------------------------------------------------------------

  /**
   * Following back from x n times leads to begin, through edges of A, and
   * meets begin only at the end.
   */
  ghost predicate BackChain(A: Adjacency, back: map<Id, Id>, begin: Id, x: Id, n: nat)
    decreases n
  {
    if n == 0 then x == begin && begin in A
    else
      && x != begin && x in back
      && back[x] in A && x in A[back[x]]
      && BackChain(A, back, begin, back[x], n - 1)
  }

  /** One step back along a chain that has not reached begin yet. */
  lemma BackChainStep(A: Adjacency, back: map<Id, Id>, begin: Id, x: Id, n: nat)
    requires BackChain(A, back, begin, x, n) && x != begin
    ensures n > 0 && x in back && back[x] in A && x in A[back[x]]
    ensures BackChain(A, back, begin, back[x], n - 1)
  {
  }

  /** list(reversed(s)). */
  function Reverse<T>(s: seq<T>): (r: seq<T>)
    ensures |r| == |s|
    ensures forall i :: 0 <= i < |s| ==> r[i] == s[|s| - 1 - i]
  {
    if s == [] then [] else Reverse(s[1..]) + [s[0]]
  }

  /** p is the chain of predecessors from begin to its last vertex. */
  ghost predicate FollowsBack(back: map<Id, Id>, begin: Id, p: seq<Id>)
  {
    && |p| >= 1 && p[0] == begin
    && forall i :: 0 < i < |p| ==> p[i] != begin && p[i] in back && back[p[i]] == p[i - 1]
  }

  /**
   * The state of build_path after following the back edges from end: trail
   * lists the ids met, from end back to the last one, which still has a chain
   * of length c to begin; suffix is trail reversed, a path whose weight is
   * dist.
   */
  ghost predicate Unwound(A: Adjacency, back: map<Id, Id>, begin: Id, end: Id,
                          trail: seq<Id>, suffix: seq<Id>, dist: int, c: nat)
  {
    && 1 <= |trail| && trail[0] == end
    && BackChain(A, back, begin, trail[|trail| - 1], c)
    && (forall i :: 0 <= i < |trail| - 1 ==> trail[i] != begin && trail[i] in back && back[trail[i]] == trail[i + 1])
    && |suffix| == |trail| && (forall i :: 0 <= i < |trail| ==> suffix[i] == trail[|trail| - 1 - i])
    && IsPath(A, suffix) && dist == Weight(A, suffix)
  }

  lemma UnwindStart(A: Adjacency, back: map<Id, Id>, begin: Id, end: Id, n: nat)
    requires end in A && BackChain(A, back, begin, end, n)
    ensures Unwound(A, back, begin, end, [end], [end], 0, n)
  {
  }

  /** Following one more back edge, from an id other than begin, adds its weight. */
  lemma UnwindStep(A: Adjacency, back: map<Id, Id>, begin: Id, end: Id,
                   trail: seq<Id>, suffix: seq<Id>, dist: int, c: nat)
    requires Unwound(A, back, begin, end, trail, suffix, dist, c) && trail[|trail| - 1] != begin
    ensures c > 0 && trail[|trail| - 1] in back
    ensures Edge(A)(back[trail[|trail| - 1]], trail[|trail| - 1]).Some?
    ensures Unwound(A, back, begin, end, trail + [back[trail[|trail| - 1]]], [back[trail[|trail| - 1]]] + suffix,
                    dist + A[back[trail[|trail| - 1]]][trail[|trail| - 1]], c - 1)
  {
    var x := trail[|trail| - 1];
    BackChainStep(A, back, begin, x, c);
    var prev := back[x];
    CostPrepend(Edge(A), prev, suffix);
    var t := trail + [prev];
    assert forall i :: 0 <= i < |trail| ==> t[i] == trail[i];
  }

  /** Once begin is reached, the reversed trail is a path from begin to end following the back edges. */
  lemma UnwindDone(A: Adjacency, back: map<Id, Id>, begin: Id, end: Id,
                   trail: seq<Id>, suffix: seq<Id>, dist: int, c: nat)
    requires Unwound(A, back, begin, end, trail, suffix, dist, c) && trail[|trail| - 1] == begin
    ensures c == 0 && Reverse(trail) == suffix
    ensures FollowsBack(back, begin, suffix) && PathFromTo(A, suffix, begin, end) && dist == Weight(A, suffix)
  {
  }

  /**
   * build_path: follows the back edges from end until begin is met, adding up
   * the weight of each edge followed, and returns the ids met in path order
   * with that total.  The back edges must lead from end to begin.
   */
  method BuildPath(A: Adjacency, back: map<Id, Id>, begin: Id, end: Id) returns (path: seq<Id>, dist: int)
    requires end in A && exists n :: BackChain(A, back, begin, end, n)
    ensures FollowsBack(back, begin, path) && path[|path| - 1] == end
    ensures PathFromTo(A, path, begin, end) && dist == Weight(A, path)
    ensures forall n: nat :: BackChain(A, back, begin, end, n) ==> |path| == n + 1
  {
    ghost var n: nat :| BackChain(A, back, begin, end, n);
    var trail := [end];
    dist := 0;
    ghost var suffix := [end];
    ghost var c: nat := n;
    UnwindStart(A, back, begin, end, n);
    while trail[|trail| - 1] != begin
      invariant Unwound(A, back, begin, end, trail, suffix, dist, c) && c + |trail| == n + 1
      decreases c
    {
      UnwindStep(A, back, begin, end, trail, suffix, dist, c);
      var x := trail[|trail| - 1];
      var prev := back[x];
      trail := trail + [prev];
      dist := dist + A[prev][x];
      suffix := [prev] + suffix;
      c := c - 1;
    }
    UnwindDone(A, back, begin, end, trail, suffix, dist, c);
    path := Reverse(trail);
    forall m: nat | BackChain(A, back, begin, end, m) ensures |path| == m + 1 {
      BackChainUnique(A, back, begin, end, n, m);
    }
  }

  /** A path that follows a back chain of length n, as the chain predicate promises. */
  lemma {:induction false} ChainPath(A: Adjacency, back: map<Id, Id>, begin: Id, x: Id, n: nat)
    returns (p: seq<Id>)
    requires BackChain(A, back, begin, x, n)
    ensures |p| == n + 1 && p[|p| - 1] == x
    ensures FollowsBack(back, begin, p) && IsPath(A, p)
    decreases n
  {
    if n == 0 {
      p := [x];
    } else {
      var q := ChainPath(A, back, begin, back[x], n - 1);
      p := q + [x];
      CostAppend(Edge(A), q, x);
    }
  }

  /** The chain from x is the only one: its length is determined. */
  lemma {:induction false} BackChainUnique(A: Adjacency, back: map<Id, Id>, begin: Id, x: Id, n: nat, m: nat)
    requires BackChain(A, back, begin, x, n) && BackChain(A, back, begin, x, m)
    ensures n == m
    decreases n
  {
    if n > 0 && m > 0 {
      BackChainUnique(A, back, begin, back[x], n - 1, m - 1);
    }
  }

  // ---------------------------------------------------------------------
  // The state graph of the toll-coupon search.
  // ---------------------------------------------------------------------

  /** A vertex together with the number of coupons used to reach it. */
  type State = (Id, int)

  /**
   * From (u, k) one may take an edge u -> v of weight w either at full price,
   * staying at k coupons, or, while k is below the budget, with a coupon that
   * halves the toll (rounding down) and moves to k + 1 coupons.
   */
  function TollStep(A: Adjacency, budget: int): (State, State) -> Option<int>
  {
    (s: State, t: State) =>
      if s.0 in A && t.0 in A[s.0] then
        if t.1 == s.1 then Some(A[s.0][t.0])
        else if t.1 == s.1 + 1 && s.1 < budget then Some(A[s.0][t.0] / 2)
        else None
      else None
  }

  lemma TollStepNonNegative(A: Adjacency, budget: int)
    requires NonNegativeWeights(A)
    ensures NonNegative(TollStep(A, budget))
  {
  }

  /** The vertices a toll walk passes through. */
  ghost function Project(p: seq<State>): (q: seq<Id>)
    ensures |q| == |p| && forall i :: 0 <= i < |p| ==> q[i] == p[i].0
  {
    if p == [] then [] else [p[0].0] + Project(p[1..])
  }

  /** A path taken without coupons. */
  ghost function Lift(q: seq<Id>): (p: seq<State>)
    ensures |p| == |q| && forall i :: 0 <= i < |q| ==> p[i] == (q[i], 0)
  {
    if q == [] then [] else [(q[0], 0)] + Lift(q[1..])
  }

  /** Along a toll walk the coupon count never drops and never passes the budget. */
  lemma {:induction false} CouponsInRange(A: Adjacency, budget: int, p: seq<State>)
    requires IsWalk(TollStep(A, budget), p) && p[0].1 == 0
    ensures forall i :: 0 <= i < |p| ==> 0 <= p[i].1 && p[i].1 <= if budget < 0 then 0 else budget
    ensures forall i, j :: 0 <= i <= j < |p| ==> p[i].1 <= p[j].1
  {
    var step := TollStep(A, budget);
    var top := if budget < 0 then 0 else budget;
    forall i | 0 <= i < |p| ensures 0 <= p[i].1 <= top && forall j :: 0 <= j <= i ==> p[j].1 <= p[i].1 {
      var k := 0;
      while k < i
        invariant k <= i
        invariant 0 <= p[k].1 <= top
        invariant forall j :: 0 <= j <= k ==> p[j].1 <= p[k].1
      {
        assert step(p[k], p[k + 1]).Some?;
        k := k + 1;
      }
    }
  }

  /** The vertices of a toll walk, from a vertex of A, form a path of A. */
  lemma ProjectWalk(A: Adjacency, budget: int, p: seq<State>)
    requires IsWalk(TollStep(A, budget), p) && p[0].0 in A
    ensures IsPath(A, Project(p))
  {
    var q := Project(p);
    forall i | 0 <= i < |q| - 1 ensures Edge(A)(q[i], q[i + 1]).Some? {
      assert TollStep(A, budget)(p[i], p[i + 1]).Some?;
    }
  }

  /** With no coupons to spend, a toll walk is a path at the same cost, and back. */
  lemma {:induction false} ZeroBudgetWalk(A: Adjacency, budget: int, p: seq<State>)
    requires budget <= 0 && IsWalk(TollStep(A, budget), p) && p[0].1 == 0 && p[0].0 in A
    ensures forall i :: 0 <= i < |p| ==> p[i].1 == 0
    ensures IsPath(A, Project(p)) && Weight(A, Project(p)) == Cost(TollStep(A, budget), p)
    decreases |p|
  {
    CouponsInRange(A, budget, p);
    if |p| > 1 {
      var q := p[..|p| - 1];
      CostSplit(TollStep(A, budget), p, |p| - 2);
      ZeroBudgetWalk(A, budget, q);
      assert Project(p) == Project(q) + [p[|p| - 1].0];
      CostAppend(Edge(A), Project(q), p[|p| - 1].0);
    }
  }

  lemma {:induction false} ZeroBudgetPath(A: Adjacency, budget: int, q: seq<Id>)
    requires IsPath(A, q)
    ensures IsWalk(TollStep(A, budget), Lift(q)) && Cost(TollStep(A, budget), Lift(q)) == Weight(A, q)
    decreases |q|
  {
    if |q| > 1 {
      var r := q[..|q| - 1];
      CostSplit(Edge(A), q, |q| - 2);
      ZeroBudgetPath(A, budget, r);
      assert Lift(q) == Lift(r) + [(q[|q| - 1], 0)];
      CostAppend(TollStep(A, budget), Lift(r), (q[|q| - 1], 0));
    }
  }
}
