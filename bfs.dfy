/**
 * The invariants of breadth-first search and the facts that give its result:
 * the path it returns has the fewest edges, and when the queue runs empty the
 * end is unreachable.  A ghost depth map records, for each id seen, the
 * length of its chain of back edges; the ids taken off the queue and fully
 * expanded form the ghost set done.  The queue holds ids of two consecutive
 * depths, the shallower ones first: the first k entries are at the lower
 * depth, the others one deeper.
 */
module BreadthFirst {
  import opened Walks
  import opened Paths

  /** The ids waiting in the queue. */
  ghost function QIds(q: seq<(Id, int)>): set<Id>
  {
    set i | 0 <= i < |q| :: q[i].0
  }

  /** The facts about the ids seen so far that hold throughout the search. */
  ghost predicate Chains(A: Adjacency, begin: Id, seen: set<Id>, back: map<Id, Id>, depth: map<Id, nat>)
  {
    && Closed(A) && begin in A
    && seen <= A.Keys && depth.Keys == seen && begin in seen && depth[begin] == 0
    && back.Keys == seen - {begin}
    && (forall x {:trigger x in back} :: x in back ==> back[x] in seen && x in A[back[x]] && depth[x] == depth[back[x]] + 1)
  }

  /** Each id seen has a chain of back edges to begin as long as its depth. */
  lemma {:induction false} ChainsBack(A: Adjacency, begin: Id, seen: set<Id>, back: map<Id, Id>, depth: map<Id, nat>, x: Id)
    requires Chains(A, begin, seen, back, depth) && x in seen
    ensures BackChain(A, back, begin, x, depth[x])
    decreases depth[x]
  {
    if x != begin {
      ChainsBack(A, begin, seen, back, depth, back[x]);
    }
  }

  /** The queue holds ids seen, the first k at depth lo and the rest at depth lo + 1. */
  ghost predicate Layered(q: seq<(Id, int)>, seen: set<Id>, depth: map<Id, nat>, lo: nat, k: nat)
  {
    && k <= |q|
    && forall i :: 0 <= i < |q| ==> q[i].0 in seen && q[i].0 in depth && depth[q[i].0] == if i < k then lo else lo + 1
  }

  /** Every edge out of an expanded id leads to an id seen at most one level deeper. */
  ghost predicate Expanded(A: Adjacency, seen: set<Id>, depth: map<Id, nat>, done: set<Id>)
  {
    forall x, y {:trigger y in A[x], x in done} :: x in done && x in A && y in A[x] ==> y in seen && x in depth && y in depth && depth[y] <= depth[x] + 1
  }

  /** The invariant of the outer loop of bfs; the expanded ids lie at depth lo or less. */
  ghost predicate Frontier(A: Adjacency, begin: Id, end: Id, q: seq<(Id, int)>, seen: set<Id>,
                           back: map<Id, Id>, depth: map<Id, nat>, done: set<Id>, lo: nat, k: nat)
  {
    && Chains(A, begin, seen, back, depth)
    && Layered(q, seen, depth, lo, k)
    && done <= seen && seen <= done + QIds(q)
    && (forall x {:trigger x in done} :: x in done ==> depth[x] <= lo)
    && Expanded(A, seen, depth, done)
    && end !in done
  }

  /**
   * The invariant of the inner loop, while the edges out of current are
   * followed: rest holds the end ids not looked at yet.
   */
  ghost predicate Expanding(A: Adjacency, begin: Id, end: Id, q: seq<(Id, int)>, seen: set<Id>,
                            back: map<Id, Id>, depth: map<Id, nat>, done: set<Id>, current: Id, rest: set<Id>, k: nat)
  {
    && Chains(A, begin, seen, back, depth)
    && current in seen && current != end
    && Layered(q, seen, depth, depth[current], k)
    && done <= seen && seen <= done + QIds(q) + {current}
    && (forall x {:trigger x in done} :: x in done ==> depth[x] <= depth[current])
    && Expanded(A, seen, depth, done)
    && end !in done
    && rest <= A[current].Keys
    && (forall y {:trigger y in A[current]} :: y in A[current] && y !in rest ==> y in seen && depth[y] <= depth[current] + 1)
  }

  lemma FrontierStart(A: Adjacency, begin: Id, end: Id)
    requires Closed(A) && begin in A
    ensures Frontier(A, begin, end, [(begin, 0)], {begin}, map[], map[begin := 0], {}, 0, 1)
  {
    assert [(begin, 0)][0].0 == begin;
    assert QIds([(begin, 0)]) == {begin};
  }

  lemma QIdsAppend(q: seq<(Id, int)>, y: Id, d: int)
    ensures QIds(q + [(y, d)]) == QIds(q) + {y}
  {
    var q' := q + [(y, d)];
    forall x | x in QIds(q') ensures x in QIds(q) + {y} {
      var i :| 0 <= i < |q'| && q'[i].0 == x;
      if i < |q| {
        assert q[i].0 == x;
      }
    }
    forall x | x in QIds(q) ensures x in QIds(q') {
      var i :| 0 <= i < |q| && q[i].0 == x;
      assert q'[i].0 == x;
    }
    assert q'[|q|].0 == y;
  }

  lemma QIdsTail(q: seq<(Id, int)>)
    requires q != []
    ensures QIds(q) == QIds(q[1..]) + {q[0].0}
  {
    var r := q[1..];
    forall x | x in QIds(q) ensures x in QIds(r) + {q[0].0} {
      var i :| 0 <= i < |q| && q[i].0 == x;
      if i > 0 {
        assert r[i - 1].0 == x;
      }
    }
    forall x | x in QIds(r) ensures x in QIds(q) {
      var i :| 0 <= i < |r| && r[i].0 == x;
      assert q[i + 1].0 == x;
    }
  }

  /** Taking the head off the queue, when it is not the end, starts its expansion. */
  lemma FrontierPop(A: Adjacency, begin: Id, end: Id, q: seq<(Id, int)>, seen: set<Id>,
                    back: map<Id, Id>, depth: map<Id, nat>, done: set<Id>, lo: nat, k: nat)
    requires Frontier(A, begin, end, q, seen, back, depth, done, lo, k) && q != [] && q[0].0 != end
    ensures q[0].0 in A
    ensures Expanding(A, begin, end, q[1..], seen, back, depth, done, q[0].0, A[q[0].0].Keys,
                      if k > 0 then k - 1 else |q| - 1)
  {
    var current := q[0].0;
    var r := q[1..];
    var k' := if k > 0 then k - 1 else |q| - 1;
    QIdsTail(q);
    forall i | 0 <= i < |r|
      ensures r[i].0 in seen && r[i].0 in depth
      ensures depth[r[i].0] == if i < k' then depth[current] else depth[current] + 1
    {
      assert r[i] == q[i + 1];
    }
  }

  /** Recording current as the back edge of a new id y one level below it keeps the chains. */
  lemma ChainsGrow(A: Adjacency, begin: Id, seen: set<Id>, back: map<Id, Id>, depth: map<Id, nat>, current: Id, y: Id)
    requires Chains(A, begin, seen, back, depth) && current in seen && current in A && y in A[current] && y !in seen
    ensures Chains(A, begin, seen + {y}, back[y := current], depth[y := depth[current] + 1])
  {
  }

  /** An end id not seen yet is queued one level below current, with current as its back edge. */
  lemma ExpandNew(A: Adjacency, begin: Id, end: Id, q: seq<(Id, int)>, seen: set<Id>,
                  back: map<Id, Id>, depth: map<Id, nat>, done: set<Id>, current: Id, rest: set<Id>, k: nat,
                  y: Id, d: int)
    requires Expanding(A, begin, end, q, seen, back, depth, done, current, rest, k)
    requires y in rest && y !in seen
    ensures Expanding(A, begin, end, q + [(y, d)], seen + {y}, back[y := current], depth[y := depth[current] + 1],
                      done, current, rest - {y}, k)
  {
    ExpandNewChains(A, begin, end, q, seen, back, depth, done, current, rest, k, y, d);
    ExpandNewCovers(A, begin, end, q, seen, back, depth, done, current, rest, k, y, d);
  }

  /** The chains of back edges and the layers of the queue survive queuing a new id. */
  lemma ExpandNewChains(A: Adjacency, begin: Id, end: Id, q: seq<(Id, int)>, seen: set<Id>,
                        back: map<Id, Id>, depth: map<Id, nat>, done: set<Id>, current: Id, rest: set<Id>, k: nat,
                        y: Id, d: int)
    requires Expanding(A, begin, end, q, seen, back, depth, done, current, rest, k)
    requires y in rest && y !in seen
    ensures Chains(A, begin, seen + {y}, back[y := current], depth[y := depth[current] + 1])
    ensures Layered(q + [(y, d)], seen + {y}, depth[y := depth[current] + 1], depth[current], k)
  {
    ChainsGrow(A, begin, seen, back, depth, current, y);
  }

  /** The ids seen stay covered, and the expanded ids keep their edges' depths, after queuing a new id. */
  lemma ExpandNewCovers(A: Adjacency, begin: Id, end: Id, q: seq<(Id, int)>, seen: set<Id>,
                        back: map<Id, Id>, depth: map<Id, nat>, done: set<Id>, current: Id, rest: set<Id>, k: nat,
                        y: Id, d: int)
    requires Expanding(A, begin, end, q, seen, back, depth, done, current, rest, k)
    requires y in rest && y !in seen
    ensures seen + {y} <= done + QIds(q + [(y, d)]) + {current}
    ensures Expanded(A, seen + {y}, depth[y := depth[current] + 1], done)
  {
    QIdsAppend(q, y, d);
  }

  /** An end id already seen is at most one level below current. */
  lemma ExpandSeen(A: Adjacency, begin: Id, end: Id, q: seq<(Id, int)>, seen: set<Id>,
                   back: map<Id, Id>, depth: map<Id, nat>, done: set<Id>, current: Id, rest: set<Id>, k: nat, y: Id)
    requires Expanding(A, begin, end, q, seen, back, depth, done, current, rest, k)
    requires y in rest && y in seen
    ensures Expanding(A, begin, end, q, seen, back, depth, done, current, rest - {y}, k)
  {
    if y in QIds(q) {
      var i :| 0 <= i < |q| && q[i].0 == y;
    }
  }

  /** Once every edge out of current is followed, current joins the expanded ids, at the lower depth. */
  lemma ExpandDone(A: Adjacency, begin: Id, end: Id, q: seq<(Id, int)>, seen: set<Id>,
                   back: map<Id, Id>, depth: map<Id, nat>, done: set<Id>, current: Id, k: nat)
    requires Expanding(A, begin, end, q, seen, back, depth, done, current, {}, k)
    ensures Frontier(A, begin, end, q, seen, back, depth, done + {current}, depth[current], k)
  {
    assert Expanded(A, seen, depth, done + {current});
  }

  /** Seeing more ids leaves fewer of K unseen. */
  lemma FewerUnseen(K: set<Id>, s: set<Id>, t: set<Id>)
    requires s < t <= K
    ensures |K - t| < |K - s|
  {
    assert t == s + (t - s);
    assert K - s == (K - t) + (t - s);
    assert (K - t) !! (t - s);
  }

  /**
   * When the end is at the head of the queue, its chain of back edges is no
   * longer than any path from begin to end.
   */
  lemma FrontierFound(A: Adjacency, begin: Id, end: Id, q: seq<(Id, int)>, seen: set<Id>,
                      back: map<Id, Id>, depth: map<Id, nat>, done: set<Id>, lo: nat, k: nat)
    requires Frontier(A, begin, end, q, seen, back, depth, done, lo, k) && q != [] && q[0].0 == end
    ensures end in depth && forall p :: PathFromTo(A, p, begin, end) ==> depth[end] + 1 <= |p|
  {
    forall p | PathFromTo(A, p, begin, end) ensures depth[end] + 1 <= |p| {
      FoundWithin(A, begin, end, q, seen, back, depth, done, lo, k, p);
    }
  }

  /** The depth of the end bounds the length of one path from begin to end. */
  lemma FoundWithin(A: Adjacency, begin: Id, end: Id, q: seq<(Id, int)>, seen: set<Id>,
                    back: map<Id, Id>, depth: map<Id, nat>, done: set<Id>, lo: nat, k: nat, p: seq<Id>)
    requires Frontier(A, begin, end, q, seen, back, depth, done, lo, k) && q != [] && q[0].0 == end
    requires PathFromTo(A, p, begin, end)
    ensures end in depth && depth[end] + 1 <= |p|
  {
    var i := FirstOutside(p, done);
    var j := 0;
    while j < i
      invariant j <= i && p[j] in seen && depth[p[j]] <= j
    {
      assert Edge(A)(p[j], p[j + 1]).Some?;
      j := j + 1;
    }
    assert p[i] in QIds(q);
    var m :| 0 <= m < |q| && q[m].0 == p[i];
  }

  /** The head of the queue has a chain of back edges as long as its depth. */
  lemma FrontierHead(A: Adjacency, begin: Id, end: Id, q: seq<(Id, int)>, seen: set<Id>,
                     back: map<Id, Id>, depth: map<Id, nat>, done: set<Id>, lo: nat, k: nat)
    requires Frontier(A, begin, end, q, seen, back, depth, done, lo, k) && q != []
    ensures q[0].0 in A && q[0].0 in depth && BackChain(A, back, begin, q[0].0, depth[q[0].0])
  {
    ChainsBack(A, begin, seen, back, depth, q[0].0);
  }

  /** When the queue runs empty the end is unreachable: every id reachable from begin was expanded. */
  lemma FrontierEmpty(A: Adjacency, begin: Id, end: Id, seen: set<Id>,
                      back: map<Id, Id>, depth: map<Id, nat>, done: set<Id>, lo: nat, k: nat)
    requires Frontier(A, begin, end, [], seen, back, depth, done, lo, k)
    ensures !Reachable(A, begin, end)
  {
    assert ClosedUnder(Edge(A), done);
    forall p | PathFromTo(A, p, begin, end) ensures false {
      StaysInside(Edge(A), done, p);
    }
  }
}
