/**
 * Walks over a weighted step relation, and the facts about them that the
 * searches of the graph rely on.  A step relation answers Some(c) when one may
 * move from a to b at cost c, and None when one may not.  The searches use two
 * of them: the edges of the graph (breadth-first search, A*) and the
 * (vertex, coupons used) states of the toll-coupon search.
 */
module Walks {
  import opened Wrappers

  /** p is a non-empty sequence of states, each reachable from the one before in one step. */
  ghost predicate IsWalk<K(!new)>(step: (K, K) -> Option<int>, p: seq<K>)
  {
    |p| >= 1 && forall i :: 0 <= i < |p| - 1 ==> step(p[i], p[i + 1]).Some?
  }

  ghost predicate WalkFromTo<K(!new)>(step: (K, K) -> Option<int>, p: seq<K>, a: K, b: K)
  {
    IsWalk(step, p) && p[0] == a && p[|p| - 1] == b
  }

  /** The sum of the step costs along a walk. */
  ghost function Cost<K(!new)>(step: (K, K) -> Option<int>, p: seq<K>): int
    requires IsWalk(step, p)
    decreases |p|
  {
    if |p| == 1 then 0
    else
      Cost(step, p[..|p| - 1]) + step(p[|p| - 2], p[|p| - 1]).value
  }

  ghost predicate NonNegative<K(!new)>(step: (K, K) -> Option<int>)
  {
    forall a, b :: step(a, b).Some? ==> step(a, b).value >= 0
  }

  /** A heuristic h never drops by more than the cost of a step. */
  ghost predicate Consistent<K(!new)>(step: (K, K) -> Option<int>, h: K -> int)
  {
    forall a, b :: step(a, b).Some? ==> h(a) <= step(a, b).value + h(b)
  }

  /** Every step out of S lands in S again. */
  ghost predicate ClosedUnder<K(!new)>(step: (K, K) -> Option<int>, S: set<K>)
  {
    forall a, b :: a in S && step(a, b).Some? ==> b in S
  }

  lemma {:induction false} CostSplit<K(!new)>(step: (K, K) -> Option<int>, p: seq<K>, i: nat)
    requires IsWalk(step, p) && i < |p|
    ensures IsWalk(step, p[..i + 1]) && IsWalk(step, p[i..])
    ensures Cost(step, p) == Cost(step, p[..i + 1]) + Cost(step, p[i..])
    decreases |p|
  {
    if i == |p| - 1 {
      assert p[..i + 1] == p;
    } else {
      var q := p[..|p| - 1];
      CostSplit(step, q, i);
      assert q[..i + 1] == p[..i + 1];
      assert p[i..][..|p[i..]| - 1] == q[i..];
    }
  }

  lemma CostAppend<K(!new)>(step: (K, K) -> Option<int>, p: seq<K>, y: K)
    requires IsWalk(step, p) && step(p[|p| - 1], y).Some?
    ensures IsWalk(step, p + [y])
    ensures Cost(step, p + [y]) == Cost(step, p) + step(p[|p| - 1], y).value
  {
    var q := p + [y];
    assert q[..|p|] == p;
    forall i | 0 <= i < |q| - 1 ensures step(q[i], q[i + 1]).Some? {
      if i < |p| - 1 {
        assert q[i] == p[i] && q[i + 1] == p[i + 1];
      }
    }
  }

  lemma CostPrepend<K(!new)>(step: (K, K) -> Option<int>, x: K, p: seq<K>)
    requires IsWalk(step, p) && step(x, p[0]).Some?
    ensures IsWalk(step, [x] + p)
    ensures Cost(step, [x] + p) == step(x, p[0]).value + Cost(step, p)
  {
    var q := [x] + p;
    assert IsWalk(step, q);
    CostSplit(step, q, 1);
    assert q[1..] == p;
    assert q[..2][..1] == [x];
  }

  /** A walk that reaches a state with no step out of it ends there. */
  lemma DeadEnd<K(!new)>(step: (K, K) -> Option<int>, p: seq<K>, i: nat)
    requires IsWalk(step, p) && i < |p| && forall y :: step(p[i], y).None?
    ensures |p| == i + 1
  {
    if i + 1 < |p| {
      StepOf(step, p, i);
      assert false;
    }
  }

  /** Each state of a walk but the last steps to the next one. */
  lemma StepOf<K(!new)>(step: (K, K) -> Option<int>, p: seq<K>, i: nat)
    requires IsWalk(step, p) && i + 1 < |p|
    ensures step(p[i], p[i + 1]).Some?
  {
  }

  lemma {:induction false} CostNonNegative<K(!new)>(step: (K, K) -> Option<int>, p: seq<K>)
    requires NonNegative(step) && IsWalk(step, p)
    ensures Cost(step, p) >= 0
    decreases |p|
  {
    if |p| > 1 {
      CostSplit(step, p, |p| - 2);
      CostNonNegative(step, p[..|p| - 1]);
    }
  }

  lemma {:induction false} ConsistentAlong<K(!new)>(step: (K, K) -> Option<int>, h: K -> int, p: seq<K>)
    requires Consistent(step, h) && IsWalk(step, p)
    ensures h(p[0]) <= Cost(step, p) + h(p[|p| - 1])
    decreases |p|
  {
    if |p| > 1 {
      CostSplit(step, p, |p| - 2);
      ConsistentAlong(step, h, p[..|p| - 1]);
    }
  }

  /** The first position of a walk that leaves S, when its end lies outside S. */
  lemma {:induction false} FirstOutside<K(!new)>(p: seq<K>, S: set<K>) returns (i: nat)
    requires |p| >= 1 && p[|p| - 1] !in S
    ensures i < |p| && p[i] !in S
    ensures forall j :: 0 <= j < i ==> p[j] in S
    decreases |p|
  {
    if p[0] !in S {
      i := 0;
    } else {
      var k := FirstOutside(p[1..], S);
      i := k + 1;
      forall j | 0 <= j < i ensures p[j] in S {
        if j > 0 { assert p[j] == p[1..][j - 1]; }
      }
    }
  }

  /** A walk that starts in a set closed under the steps never leaves it. */
  lemma {:induction false} StaysInside<K(!new)>(step: (K, K) -> Option<int>, S: set<K>, p: seq<K>)
    requires ClosedUnder(step, S) && IsWalk(step, p) && p[0] in S
    ensures p[|p| - 1] in S
    decreases |p|
  {
    if |p| > 1 {
      CostSplit(step, p, |p| - 2);
      StaysInside(step, S, p[..|p| - 1]);
      assert step(p[|p| - 2], p[|p| - 1]).Some?;
    }
  }

  /**
   * The first half of the state of a label-setting search (Dijkstra, A*):
   * S holds the closed states, which are among those with a cost g, and every
   * step out of a closed state has been relaxed.
   */
  ghost predicate Relaxed<K(!new)>(step: (K, K) -> Option<int>, g: map<K, int>, S: set<K>)
  {
    && S <= g.Keys
    && (forall c, t :: c in S && step(c, t).Some? ==> t in g && g[t] <= g[c] + step(c, t).value)
  }

  /** The second half: a closed state's cost is at most the cost of every walk to it from src. */
  ghost predicate Optimal<K(!new)>(step: (K, K) -> Option<int>, src: K, g: map<K, int>, S: set<K>)
  {
    forall c, p :: c in S && c in g && WalkFromTo(step, p, src, c) ==> g[c] <= Cost(step, p)
  }

  /**
   * The key step of the correctness of a label-setting search: the state u
   * taken off the queue with the least priority g + h, with h consistent, is
   * no worse (in g + h) than any walk to any state z that is not closed.
   */
  lemma PopOptimal<K(!new)>(step: (K, K) -> Option<int>, h: K -> int, src: K, g: map<K, int>, S: set<K>,
                      L: set<K>, u: K, z: K, p: seq<K>)
    requires Relaxed(step, g, S) && Optimal(step, src, g, S) && Consistent(step, h)
    requires src in g && g[src] <= 0
    requires u in g && u !in S
    requires forall y :: y in g && y !in S ==> y in L || y == u
    requires forall y :: y in L ==> y in g && g[u] + h(u) <= g[y] + h(y)
    requires z !in S && WalkFromTo(step, p, src, z)
    ensures g[u] + h(u) <= Cost(step, p) + h(z)
  {
    var i := FirstOutside(p, S);
    var y := p[i];
    CostSplit(step, p, i);
    if i == 0 {
      assert p[..1] == [src];
    } else {
      var c := p[i - 1];
      var q := p[..i + 1];
      assert q[..i] == p[..i];
      assert WalkFromTo(step, p[..i], src, c) by { CostSplit(step, p, i - 1); }
      assert step(c, y).Some?;
    }
    ConsistentAlong(step, h, p[i..]);
  }

  /**
   * A heuristic h never overestimates the way to target: it is 0 at target and
   * at most the cost of every walk from a state to target.
   */
  ghost predicate Admissible<K(!new)>(step: (K, K) -> Option<int>, h: K -> int, target: K)
  {
    h(target) == 0 && forall a, p :: WalkFromTo(step, p, a, target) ==> h(a) <= Cost(step, p)
  }

  /** A consistent heuristic that is 0 at the target never overestimates. */
  lemma ConsistentAdmissible<K(!new)>(step: (K, K) -> Option<int>, h: K -> int, target: K)
    requires Consistent(step, h) && h(target) == 0
    ensures Admissible(step, h, target)
  {
    forall a, p | WalkFromTo(step, p, a, target) ensures h(a) <= Cost(step, p) {
      ConsistentAlong(step, h, p);
    }
  }

  /** Two heuristics that agree everywhere are admissible together. */
  lemma AdmissibleAgree<K(!new)>(step: (K, K) -> Option<int>, h: K -> int, h': K -> int, target: K)
    requires (forall x :: h(x) == h'(x)) && Admissible(step, h, target)
    ensures Admissible(step, h', target)
  {
  }

  /**
   * The key step of the correctness of A* with an admissible heuristic, which
   * reopens closed states: take a walk from p[k], whose cost is at most the
   * cost of the walk up to it, to a state outside S.  When every state with a
   * cost is closed (in S) or open (in O), and every step out of a closed state
   * that is not open again has been relaxed, some open state of the walk, at
   * or after k, has a cost at most the cost of the walk up to it.
   */
  lemma {:induction false} OpenOnWalk<K(!new)>(step: (K, K) -> Option<int>, g: map<K, int>, S: set<K>, O: set<K>,
                                              p: seq<K>, k: nat) returns (i: nat)
    requires IsWalk(step, p) && k < |p| && p[|p| - 1] !in S && g.Keys <= S + O
    requires forall c, t :: c in S && c !in O && step(c, t).Some? ==> t in g && c in g && g[t] <= g[c] + step(c, t).value
    requires p[k] in g && g[p[k]] <= Cost(step, p[..k + 1])
    ensures k <= i < |p| && p[i] in O && p[i] in g && g[p[i]] <= Cost(step, p[..i + 1])
    decreases |p| - k
  {
    if p[k] in O {
      i := k;
    } else {
      assert p[k] != p[|p| - 1];
      StepOf(step, p, k);
      CostSplit(step, p, k);
      CostAppend(step, p[..k + 1], p[k + 1]);
      assert p[..k + 1] + [p[k + 1]] == p[..k + 2];
      i := OpenOnWalk(step, g, S, O, p, k + 1);
    }
  }

  /** When nothing is left open, every state reachable from src has a cost. */
  lemma ClosedReach<K(!new)>(step: (K, K) -> Option<int>, g: map<K, int>, src: K, p: seq<K>)
    requires Relaxed(step, g, g.Keys) && src in g
    requires IsWalk(step, p) && p[0] == src
    ensures p[|p| - 1] in g
  {
    StaysInside(step, g.Keys, p);
  }
}
