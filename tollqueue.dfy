/**
 * The priority queue of the toll-coupon search: the design of
 * Queues.PriorityQueue, with entries [priority, coupons, count, vertex] keyed
 * by the pair (vertex id, coupons used), ordered by priority, then coupons,
 * then insertion count, and a pop that leaves visited flags alone.
 */
module TollQueues {
  import opened Paths
  import opened Vertices
  import opened Queues

  datatype TollNode = TollNode(priority: int, coupons: int, count: nat, vertex: Vertex?)

  /** The key an entry stands for. */
  function KeyOf(n: TollNode): State
    requires n.vertex != null
  {
    (n.vertex.id, n.coupons)
  }

  /** The heap order of entries: by priority, then by coupons used, then by insertion count. */
  predicate TollAtMost(a: TollNode, b: TollNode)
  {
    || a.priority < b.priority
    || (a.priority == b.priority && a.coupons < b.coupons)
    || (a.priority == b.priority && a.coupons == b.coupons && a.count <= b.count)
  }

  /** The index of a least entry: the one a heap pop returns. */
  function MinTollNode(s: seq<TollNode>): (i: nat)
    requires s != []
    ensures i < |s| && forall j :: 0 <= j < |s| ==> TollAtMost(s[i], s[j])
  {
    if |s| == 1 then 0
    else
      var j := MinTollNode(s[..|s| - 1]);
      assert forall k :: 0 <= k < |s| - 1 ==> s[..|s| - 1][k] == s[k];
      if TollAtMost(s[j], s[|s| - 1]) then j else |s| - 1
  }

  ghost predicate DistinctTollCounts(s: seq<TollNode>)
  {
    forall i, j :: 0 <= i < j < |s| ==> s[i].count != s[j].count
  }

  ghost function LiveTollNodes(s: seq<TollNode>): set<TollNode>
  {
    set n | n in s && n.vertex != null
  }

  /**
   * The queue invariant: entries have distinct counts below the counter, and
   * the located entry of each key is a live entry standing for that key.
   */
  ghost predicate TollQueueInv(s: seq<TollNode>, locator: map<State, TollNode>, counter: nat)
  {
    && DistinctTollCounts(s)
    && (forall n :: n in s ==> n.count < counter)
    && (forall key :: key in locator ==>
          && locator[key] in s && locator[key].vertex != null
          && locator[key].vertex.id == key.0 && locator[key].coupons == key.1)
  }

  /** The entry with count c, and only it, is invalidated. */
  function TollTombstone(s: seq<TollNode>, c: nat): (r: seq<TollNode>)
    ensures |r| == |s|
    ensures forall i :: 0 <= i < |s| ==> r[i] == if s[i].count == c then s[i].(vertex := null) else s[i]
  {
    seq(|s|, i requires 0 <= i < |s| => if s[i].count == c then s[i].(vertex := null) else s[i])
  }

  /** Invalidating the located entry of a key and forgetting the key keeps the invariant. */
  lemma TollInvalidateKeeps(s: seq<TollNode>, locator: map<State, TollNode>, counter: nat, key: State)
    requires TollQueueInv(s, locator, counter) && key in locator
    ensures TollQueueInv(TollTombstone(s, locator[key].count), locator - {key}, counter)
    ensures LiveTollNodes(TollTombstone(s, locator[key].count)) == LiveTollNodes(s) - {locator[key]}
  {
    var c := locator[key].count;
    var t := TollTombstone(s, c);
    var k :| 0 <= k < |s| && s[k] == locator[key];
    forall m | m in t ensures m.count < counter && (m.vertex != null ==> m in s && m != locator[key]) {
      var i :| 0 <= i < |t| && t[i] == m;
      assert s[i].count == m.count;
    }
    forall key' | key' in locator - {key} ensures locator[key'] in t {
      var i :| 0 <= i < |s| && s[i] == locator[key'];
      assert i != k;
    }
    forall m | m in s && m.vertex != null && m != locator[key] ensures m in t {
      var i :| 0 <= i < |s| && s[i] == m;
      assert i != k;
    }
  }

  /** The first loop of pop: takes out least entries until a live one comes out, or none is left. */
  method SkipInvalidTolls(s: seq<TollNode>) returns (rest: seq<TollNode>, node: TollNode)
    requires DistinctTollCounts(s)
    ensures DistinctTollCounts(rest) && forall m :: m in rest ==> m in s
    ensures node.vertex == null <==> LiveTollNodes(s) == {}
    ensures node.vertex == null ==> rest == []
    ensures node.vertex != null ==>
      && node in LiveTollNodes(s)
      && (forall m :: m in LiveTollNodes(s) ==> TollAtMost(node, m))
      && LiveTollNodes(rest) == LiveTollNodes(s) - {node}
  {
    rest := s;
    var vertex: Vertex? := null;
    node := TollNode(0, 0, 0, null);
    while vertex == null && rest != []
      invariant DistinctTollCounts(rest) && forall m :: m in rest ==> m in s
      invariant vertex == node.vertex
      invariant vertex != null ==> node in s && node !in rest
      invariant forall m :: m in s && m !in rest ==> m.vertex == null || m == node
      invariant forall m, k :: m in s && m !in rest && k in rest ==> TollAtMost(m, k)
      invariant vertex == null ==> LiveTollNodes(rest) == LiveTollNodes(s)
      invariant vertex != null ==> LiveTollNodes(rest) == LiveTollNodes(s) - {node}
      decreases |rest|
    {
      var i := MinTollNode(rest);
      node := rest[i];
      RemoveAtMembers(rest, i);
      ghost var before := rest;
      rest := RemoveAt(rest, i);
      vertex := node.vertex;
      forall m | m in rest ensures m != node {
        var j :| 0 <= j < |rest| && rest[j] == m;
        if j < i { assert before[j] == m; } else { assert before[j + 1] == m; }
      }
    }
    if vertex != null {
      assert node in LiveTollNodes(s);
    }
  }

  /** The second loop of pop: takes out the invalidated entries that are least. */
  method DrainInvalidTolls(s: seq<TollNode>) returns (rest: seq<TollNode>)
    requires DistinctTollCounts(s)
    ensures DistinctTollCounts(rest) && forall m :: m in rest ==> m in s
    ensures LiveTollNodes(rest) == LiveTollNodes(s)
    ensures rest == [] || rest[MinTollNode(rest)].vertex != null
  {
    rest := s;
    while rest != [] && rest[MinTollNode(rest)].vertex == null
      invariant DistinctTollCounts(rest) && forall m :: m in rest ==> m in s
      invariant LiveTollNodes(rest) == LiveTollNodes(s)
      decreases |rest|
    {
      var i := MinTollNode(rest);
      RemoveAtMembers(rest, i);
      rest := RemoveAt(rest, i);
    }
  }

  /** With some key located, the heap holds a live entry. */
  lemma TollLocatedLive(D: seq<TollNode>, L: map<State, TollNode>, counter: nat)
    requires TollQueueInv(D, L, counter)
    ensures L != map[] ==> LiveTollNodes(D) != {}
  {
    if L != map[] {
      var key :| key in L;
      assert L[key] in LiveTollNodes(D);
    }
  }

  /** The outcome of pop: the least live entry, or the exception the source raises. */
  datatype TollPopped =
    | TollEntry(priority: int, coupons: int, vertex: Vertex)
    | TollMissingKey   // KeyError: the entry's key has no located entry
    | TollEmptyHeap    // IndexError: no live entry was left

  /**
   * push, on the parts of a queue: a new entry with the next count goes on the
   * heap and becomes the located entry of its key.
   */
  function TollPushEntry(D: seq<TollNode>, L: map<State, TollNode>, counter: nat, priority: int, couponsUsed: int, vertex: Vertex)
    : (r: (seq<TollNode>, map<State, TollNode>, nat))
    requires TollQueueInv(D, L, counter)
    ensures TollQueueInv(r.0, r.1, r.2) && LiveTollNodes(r.0) != {}
    ensures r.0 == D + [TollNode(priority, couponsUsed, counter, vertex)]
    ensures r.1 == L[(vertex.id, couponsUsed) := TollNode(priority, couponsUsed, counter, vertex)]
    ensures r.2 == counter + 1
    ensures LiveTollNodes(r.0) == LiveTollNodes(D) + {TollNode(priority, couponsUsed, counter, vertex)}
  {
    var node := TollNode(priority, couponsUsed, counter, vertex);
    assert node in LiveTollNodes(D + [node]);
    (D + [node], L[(vertex.id, couponsUsed) := node], counter + 1)
  }

  /**
   * update, on the parts of a queue: the located entry of the key is
   * invalidated and forgotten, and an entry with the new priority pushed.
   */
  function TollUpdateEntry(D: seq<TollNode>, L: map<State, TollNode>, counter: nat, newPriority: int, couponsUsed: int, vertex: Vertex)
    : (r: (seq<TollNode>, map<State, TollNode>, nat))
    requires TollQueueInv(D, L, counter) && (vertex.id, couponsUsed) in L
    ensures TollQueueInv(r.0, r.1, r.2) && LiveTollNodes(r.0) != {}
    ensures r.0 == TollTombstone(D, L[(vertex.id, couponsUsed)].count) + [TollNode(newPriority, couponsUsed, counter, vertex)]
    ensures r.1 == L[(vertex.id, couponsUsed) := TollNode(newPriority, couponsUsed, counter, vertex)]
    ensures r.2 == counter + 1
    ensures LiveTollNodes(r.0) == LiveTollNodes(D) - {L[(vertex.id, couponsUsed)]} + {TollNode(newPriority, couponsUsed, counter, vertex)}
  {
    var key := (vertex.id, couponsUsed);
    var rest := L - {key};
    TollInvalidateKeeps(D, L, counter, key);
    assert rest[key := TollNode(newPriority, couponsUsed, counter, vertex)] == L[key := TollNode(newPriority, couponsUsed, counter, vertex)];
    TollPushEntry(TollTombstone(D, L[key].count), rest, counter, newPriority, couponsUsed, vertex)
  }

  /**
   * pop, on the parts of a queue: takes out entries from the least up until a
   * live one comes out and forgets its key in the locator; the invalidated
   * entries that are then least are taken out too.  When the key is not
   * located the source raises KeyError after the entry has been taken out.
   * n is the entry taken out last.
   */
  method TollPopEntry(D: seq<TollNode>, L: map<State, TollNode>, counter: nat)
    returns (r: TollPopped, ghost n: TollNode, D': seq<TollNode>, L': map<State, TollNode>)
    requires TollQueueInv(D, L, counter)
    ensures TollQueueInv(D', L', counter)
    ensures forall m :: m in D' ==> m in D
    ensures r.TollEmptyHeap? <==> LiveTollNodes(D) == {}
    ensures r.TollEmptyHeap? ==> D' == [] && L' == L
    ensures !r.TollEmptyHeap? ==>
      && n in LiveTollNodes(D)
      && (forall m :: m in LiveTollNodes(D) ==> TollAtMost(n, m))
      && LiveTollNodes(D') == LiveTollNodes(D) - {n}
    ensures r.TollMissingKey? <==> !r.TollEmptyHeap? && KeyOf(n) !in L
    ensures r.TollMissingKey? ==> L' == L
    ensures r.TollEntry? ==>
      && r == TollEntry(n.priority, n.coupons, n.vertex)
      && L' == L - {KeyOf(n)}
      && (D' == [] || D'[MinTollNode(D')].vertex != null)
  {
    TollLocatedLive(D, L, counter);
    var rest, node := SkipInvalidTolls(D);
    n := node;
    if node.vertex == null {
      return TollEmptyHeap, n, rest, L;
    }
    var vertex := node.vertex;
    var key := (vertex.id, node.coupons);
    forall key' | key' in L && key' != key ensures L[key'] in rest {
      assert L[key'] in LiveTollNodes(D) && L[key'] != node;
      assert L[key'] in LiveTollNodes(rest);
    }
    if key !in L {
      return TollMissingKey, n, rest, L;
    }
    ghost var skipped := rest;
    rest := DrainInvalidTolls(rest);
    forall key' | key' in L && key' != key ensures L[key'] in rest {
      assert L[key'] in LiveTollNodes(skipped);
    }
    r, D', L' := TollEntry(node.priority, node.coupons, vertex), rest, L - {key};
  }

  class TollWayPriorityQueue {
    var data: seq<TollNode>
    var locator: map<State, TollNode>
    var counter: nat

    ghost predicate Valid()
      reads this
    {
      TollQueueInv(data, locator, counter)
    }

    /** A non-empty heap holds a live entry. */
    ghost predicate HasLive()
      reads this
    {
      data != [] ==> LiveTollNodes(data) != {}
    }

    constructor()
      ensures Valid() && HasLive()
      ensures data == [] && locator == map[] && counter == 0
    {
      data := [];
      locator := map[];
      counter := 0;
    }

    /**
     * Whether the heap is empty: then no key is located; and with a live entry
     * in every non-empty heap, exactly when no live entry is left.
     */
    function Empty(): (r: bool)
      reads this
      ensures Valid() ==> (r ==> locator == map[])
      ensures HasLive() ==> (r <==> LiveTollNodes(data) == {})
    {
      |data| == 0
    }

    method Push(priority: int, couponsUsed: int, vertex: Vertex)
      requires Valid()
      modifies this
      ensures Valid() && HasLive()
      ensures data == old(data) + [TollNode(priority, couponsUsed, old(counter), vertex)]
      ensures locator == old(locator)[(vertex.id, couponsUsed) := TollNode(priority, couponsUsed, old(counter), vertex)]
      ensures counter == old(counter) + 1
      ensures LiveTollNodes(data) == old(LiveTollNodes(data)) + {TollNode(priority, couponsUsed, old(counter), vertex)}
    {
      var q := TollPushEntry(data, locator, counter, priority, couponsUsed, vertex);
      data, locator, counter := q.0, q.1, q.2;
    }

    /** Gives the key (vertex, couponsUsed) a new priority: invalidates its entry and pushes a new one. */
    method Update(newPriority: int, couponsUsed: int, vertex: Vertex)
      requires Valid() && (vertex.id, couponsUsed) in locator
      modifies this
      ensures Valid() && HasLive()
      ensures data == TollTombstone(old(data), old(locator)[(vertex.id, couponsUsed)].count)
                      + [TollNode(newPriority, couponsUsed, old(counter), vertex)]
      ensures locator == old(locator)[(vertex.id, couponsUsed) := TollNode(newPriority, couponsUsed, old(counter), vertex)]
      ensures counter == old(counter) + 1
      ensures LiveTollNodes(data) == old(LiveTollNodes(data)) - {old(locator)[(vertex.id, couponsUsed)]}
                                     + {TollNode(newPriority, couponsUsed, old(counter), vertex)}
    {
      var q := TollUpdateEntry(data, locator, counter, newPriority, couponsUsed, vertex);
      data, locator, counter := q.0, q.1, q.2;
    }

    /** pop: TollPopEntry on the queue's fields; visited flags are left alone. */
    method Pop() returns (r: TollPopped, ghost n: TollNode)
      requires Valid()
      modifies this
      ensures Valid() && counter == old(counter)
      ensures forall m :: m in data ==> m in old(data)
      ensures r.TollEmptyHeap? <==> old(LiveTollNodes(data)) == {}
      ensures r.TollEmptyHeap? ==> data == [] && locator == old(locator)
      ensures !r.TollEmptyHeap? ==>
        && n in old(LiveTollNodes(data))
        && (forall m :: m in old(LiveTollNodes(data)) ==> TollAtMost(n, m))
        && LiveTollNodes(data) == old(LiveTollNodes(data)) - {n}
      ensures r.TollMissingKey? <==> !r.TollEmptyHeap? && KeyOf(n) !in old(locator)
      ensures r.TollMissingKey? ==> locator == old(locator)
      ensures r.TollEntry? ==>
        && r == TollEntry(n.priority, n.coupons, n.vertex)
        && locator == old(locator) - {KeyOf(n)}
        && (data == [] || data[MinTollNode(data)].vertex != null)
    {
      r, n, data, locator := TollPopEntry(data, locator, counter);
    }
  }
}
