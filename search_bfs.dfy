/** The loops of breadth-first search, proved with the facts of BreadthFirst. */
module BreadthSearch {
  import opened Walks
  import opened Paths
  import opened BreadthFirst

  /**
   * The edge from current to next, whose end is reached at distance d: when
   * next has not been seen, it is marked seen, gets current as its back edge
   * and is queued with d; otherwise nothing changes.
   */
  method Follow(ghost A: Adjacency, begin: Id, end: Id, q0: seq<(Id, int)>, seen0: set<Id>,
                back0: map<Id, Id>, ghost depth0: map<Id, nat>, ghost done: set<Id>, current: Id,
                ghost rest: set<Id>, ghost k: nat, next: Id, d: int)
    returns (q: seq<(Id, int)>, seen: set<Id>, back: map<Id, Id>, ghost depth: map<Id, nat>)
    requires Expanding(A, begin, end, q0, seen0, back0, depth0, done, current, rest, k) && next in rest
    ensures Expanding(A, begin, end, q, seen, back, depth, done, current, rest - {next}, k)
    ensures next !in seen0 ==> q == q0 + [(next, d)] && seen == seen0 + {next} && back == back0[next := current]
    ensures next in seen0 ==> q == q0 && seen == seen0 && back == back0
  {
    if next !in seen0 {
      ExpandNew(A, begin, end, q0, seen0, back0, depth0, done, current, rest, k, next, d);
      seen := seen0 + {next};
      back := back0[next := current];
      depth := depth0[next := depth0[current] + 1];
      q := q0 + [(next, d)];
    } else {
      ExpandSeen(A, begin, end, q0, seen0, back0, depth0, done, current, rest, k, next);
      q, seen, back, depth := q0, seen0, back0, depth0;
    }
  }

  /**
   * The inner loop of bfs: follows each edge out of current, whose weights by
   * end id are adj; every end id not seen yet is marked seen, gets current as
   * its back edge, and is queued with the distance of current plus the edge's
   * weight.  The queue grows only when new ids are seen.
   */
  method ExpandEdges(ghost A: Adjacency, begin: Id, end: Id, q0: seq<(Id, int)>, seen0: set<Id>,
                     back0: map<Id, Id>, ghost depth0: map<Id, nat>, ghost done: set<Id>, ghost k: nat,
                     current: Id, distance: int, adj: map<Id, int>)
    returns (q: seq<(Id, int)>, seen: set<Id>, back: map<Id, Id>, ghost depth: map<Id, nat>)
    requires current in A && adj == A[current]
    requires Expanding(A, begin, end, q0, seen0, back0, depth0, done, current, adj.Keys, k)
    ensures Expanding(A, begin, end, q, seen, back, depth, done, current, {}, k)
    ensures seen0 <= seen && (seen == seen0 ==> q == q0)
  {
    q, seen, back, depth := q0, seen0, back0, depth0;
    var rest := adj.Keys;
    while rest != {}
      invariant Expanding(A, begin, end, q, seen, back, depth, done, current, rest, k)
      invariant seen0 <= seen && (seen == seen0 ==> q == q0)
      decreases |rest|
    {
      var next :| next in rest;
      q, seen, back, depth := Follow(A, begin, end, q, seen, back, depth, done, current, rest, k,
                                     next, distance + adj[next]);
      rest := rest - {next};
    }
  }

  /**
   * One round of the outer loop of bfs, once the head of the queue is known
   * not to be end: takes it off the queue and follows the edges out of it.
   * Either more ids are seen than before, or the queue is shorter.
   */
  method Visit(A: Adjacency, begin: Id, end: Id, q0: seq<(Id, int)>, seen0: set<Id>,
               back0: map<Id, Id>, ghost depth0: map<Id, nat>, ghost done0: set<Id>, ghost lo0: nat, ghost k0: nat)
    returns (q: seq<(Id, int)>, seen: set<Id>, back: map<Id, Id>, ghost depth: map<Id, nat>,
             ghost done: set<Id>, ghost lo: nat, ghost k: nat)
    requires Frontier(A, begin, end, q0, seen0, back0, depth0, done0, lo0, k0) && q0 != [] && q0[0].0 != end
    ensures Frontier(A, begin, end, q, seen, back, depth, done, lo, k)
    ensures |A.Keys - seen| < |A.Keys - seen0| || (seen == seen0 && |q| < |q0|)
  {
    var current, distance := q0[0].0, q0[0].1;
    FrontierPop(A, begin, end, q0, seen0, back0, depth0, done0, lo0, k0);
    k := if k0 > 0 then k0 - 1 else |q0| - 1;
    q, seen, back, depth := ExpandEdges(A, begin, end, q0[1..], seen0, back0, depth0, done0, k,
                                        current, distance, A[current]);
    ExpandDone(A, begin, end, q, seen, back, depth, done0, current, k);
    if seen != seen0 {
      FewerUnseen(A.Keys, seen0, seen);
    }
    done, lo := done0 + {current}, depth[current];
  }

  /**
   * bfs over the adjacency map A: with both ids in A, visits the ids in
   * breadth-first order from begin, recording back edges, until end is taken
   * off the queue, and then builds the path back; otherwise, or when end is
   * never met, returns no path and distance 0.
   */
  method Bfs(A: Adjacency, begin: Id, end: Id) returns (path: seq<Id>, dist: int)
    requires Closed(A)
    ensures path == [] <==> !Reachable(A, begin, end)
    ensures path == [] ==> dist == 0
    ensures path != [] ==> PathFromTo(A, path, begin, end) && dist == Weight(A, path)
    ensures forall p :: PathFromTo(A, p, begin, end) ==> |path| <= |p|
  {
    if begin !in A || end !in A {
      OutsideUnreachable(A, begin, end);
      return [], 0;
    }
    var q: seq<(Id, int)> := [(begin, 0)];
    var seen: set<Id> := {begin};
    var back: map<Id, Id> := map[];
    ghost var depth: map<Id, nat> := map[begin := 0];
    ghost var done: set<Id> := {};
    ghost var lo: nat, k: nat := 0, 1;
    FrontierStart(A, begin, end);
    while q != []
      invariant Frontier(A, begin, end, q, seen, back, depth, done, lo, k)
      decreases |A.Keys - seen|, |q|
    {
      var current, distance := q[0].0, q[0].1;
      if current == end {
        FrontierHead(A, begin, end, q, seen, back, depth, done, lo, k);
        FrontierFound(A, begin, end, q, seen, back, depth, done, lo, k);
        path, dist := BuildPath(A, back, begin, end);
        return;
      }
      q, seen, back, depth, done, lo, k := Visit(A, begin, end, q, seen, back, depth, done, lo, k);
    }
    FrontierEmpty(A, begin, end, seen, back, depth, done, lo, k);
    return [], 0;
  }
}
