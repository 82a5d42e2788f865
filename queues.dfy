/**
 * The two lazy-deletion priority queues the searches use.  A queue keeps its
 * entries in `data` and, in `locator`, the entry currently standing for each
 * key.  Changing a key's priority does not move its entry: the old entry is
 * invalidated (its vertex set to null, a tombstone) and a new one pushed.
 *
 * The binary heap is abstracted to a sequence from which the least entry is
 * taken out; the insertion counter that breaks ties is a field.  In the source
 * the heap and the locator share each entry object; here an entry is a value
 * and the unique insertion count identifies it, so invalidating an entry
 * rewrites the one with that count.
 */
module Queues {
  import opened Paths
  import opened Vertices

  /** s without its element at index i. */
  function RemoveAt<T>(s: seq<T>, i: nat): (r: seq<T>)
    requires i < |s|
    ensures |r| == |s| - 1
    ensures forall j :: 0 <= j < i ==> r[j] == s[j]
    ensures forall j :: i <= j < |r| ==> r[j] == s[j + 1]
  {
    s[..i] + s[i + 1..]
  }

  /** Taking out an element keeps the others. */
  lemma RemoveAtMembers<T>(s: seq<T>, i: nat)
    requires i < |s|
    ensures forall m :: m in RemoveAt(s, i) ==> m in s
    ensures forall m :: m in s && m != s[i] ==> m in RemoveAt(s, i)
  {
    var r := RemoveAt(s, i);
    forall m | m in r ensures m in s {
      var j :| 0 <= j < |r| && r[j] == m;
      if j < i { assert s[j] == m; } else { assert s[j + 1] == m; }
    }
    forall m | m in s && m != s[i] ensures m in r {
      var j :| 0 <= j < |s| && s[j] == m;
      if j < i { assert r[j] == m; } else { assert r[j - 1] == m; }
    }
  }

  // ---------------------------------------------------------------------
  // PriorityQueue: entries [priority, count, vertex], keyed by vertex id.
  // ---------------------------------------------------------------------

  datatype Node = Node(priority: int, count: nat, vertex: Vertex?)

  /** The heap order of entries: by priority, then by insertion count. */
  predicate NodeAtMost(a: Node, b: Node)
  {
    a.priority < b.priority || (a.priority == b.priority && a.count <= b.count)
  }

  /** The index of a least entry: the one a heap pop returns. */
  function MinNode(s: seq<Node>): (i: nat)
    requires s != []
    ensures i < |s| && forall j :: 0 <= j < |s| ==> NodeAtMost(s[i], s[j])
  {
    if |s| == 1 then 0
    else
      var j := MinNode(s[..|s| - 1]);
      assert forall k :: 0 <= k < |s| - 1 ==> s[..|s| - 1][k] == s[k];
      if NodeAtMost(s[j], s[|s| - 1]) then j else |s| - 1
  }

  ghost predicate DistinctCounts(s: seq<Node>)
  {
    forall i, j :: 0 <= i < j < |s| ==> s[i].count != s[j].count
  }

  ghost function LiveNodes(s: seq<Node>): set<Node>
  {
    set n | n in s && n.vertex != null
  }

  /** n is a live entry and no live entry comes before it in the heap order: the one pop returns. */
  ghost predicate FirstLive(s: seq<Node>, n: Node)
  {
    n in LiveNodes(s) && forall m :: m in LiveNodes(s) ==> NodeAtMost(n, m)
  }

  /**
   * The queue invariant: entries have distinct counts below the counter, and
   * the located entry of each id is a live entry carrying a vertex with that id.
   */
  ghost predicate QueueInv(s: seq<Node>, locator: map<Id, Node>, counter: nat)
  {
    && DistinctCounts(s)
    && (forall n :: n in s ==> n.count < counter)
    && (forall id :: id in locator ==> locator[id] in s && locator[id].vertex != null && locator[id].vertex.id == id)
  }

  /** Every live entry is the located entry of its id: at most one live entry per id. */
  ghost predicate OneLivePerId(s: seq<Node>, locator: map<Id, Node>)
  {
    forall n :: n in s && n.vertex != null ==> n.vertex.id in locator && locator[n.vertex.id] == n
  }

  /** The entry with count c, and only it, is invalidated. */
  function Tombstone(s: seq<Node>, c: nat): (r: seq<Node>)
    ensures |r| == |s|
    ensures forall i :: 0 <= i < |s| ==> r[i] == if s[i].count == c then s[i].(vertex := null) else s[i]
  {
    seq(|s|, i requires 0 <= i < |s| => if s[i].count == c then s[i].(vertex := null) else s[i])
  }

  /** The entries of a tombstoned heap: the same counts, and the live ones are live entries of s other than the one with count c. */
  lemma TombstoneEntries(s: seq<Node>, c: nat, counter: nat)
    requires DistinctCounts(s) && forall n :: n in s ==> n.count < counter
    ensures DistinctCounts(Tombstone(s, c))
    ensures forall m :: m in Tombstone(s, c) ==> m.count < counter && (m.vertex != null ==> m in s && m.count != c)
    ensures forall m :: m in s && m.count != c ==> m in Tombstone(s, c)
  {
    var t := Tombstone(s, c);
    forall m | m in t ensures m.count < counter && (m.vertex != null ==> m in s && m.count != c) {
      var i :| 0 <= i < |t| && t[i] == m;
      assert s[i].count == m.count;
    }
    forall m | m in s && m.count != c ensures m in t {
      var i :| 0 <= i < |s| && s[i] == m;
      assert t[i] == m;
    }
  }

  /** Invalidating the located entry of id and forgetting id keeps the invariants. */
  lemma InvalidateKeeps(s: seq<Node>, locator: map<Id, Node>, counter: nat, id: Id)
    requires QueueInv(s, locator, counter) && id in locator
    ensures QueueInv(Tombstone(s, locator[id].count), locator - {id}, counter)
    ensures OneLivePerId(s, locator) ==> OneLivePerId(Tombstone(s, locator[id].count), locator - {id})
    ensures LiveNodes(Tombstone(s, locator[id].count)) == LiveNodes(s) - {locator[id]}
  {
    var c := locator[id].count;
    var t := Tombstone(s, c);
    TombstoneEntries(s, c, counter);
    forall m | m in s && m != locator[id] ensures m.count != c {
      var i :| 0 <= i < |s| && s[i] == m;
      var k :| 0 <= k < |s| && s[k] == locator[id];
    }
  }

  /**
   * The first loop of pop: takes out least entries until a live one comes out,
   * or the heap runs empty.
   */
  method SkipInvalid(s: seq<Node>) returns (rest: seq<Node>, node: Node)
    requires DistinctCounts(s)
    ensures DistinctCounts(rest) && forall m :: m in rest ==> m in s
    ensures node.vertex == null <==> LiveNodes(s) == {}
    ensures node.vertex == null ==> rest == []
    ensures node.vertex != null ==>
      && node in LiveNodes(s)
      && (forall m :: m in LiveNodes(s) ==> NodeAtMost(node, m))
      && LiveNodes(rest) == LiveNodes(s) - {node}
  {
    rest := s;
    var vertex: Vertex? := null;
    node := Node(0, 0, null);
    while vertex == null && rest != []
      invariant DistinctCounts(rest) && forall m :: m in rest ==> m in s
      invariant vertex == node.vertex
      invariant vertex != null ==> node in s && node !in rest
      invariant forall m :: m in s && m !in rest ==> m.vertex == null || m == node
      invariant forall m, k :: m in s && m !in rest && k in rest ==> NodeAtMost(m, k)
      invariant vertex == null ==> LiveNodes(rest) == LiveNodes(s)
      invariant vertex != null ==> LiveNodes(rest) == LiveNodes(s) - {node}
      decreases |rest|
    {
      var i := MinNode(rest);
      node := rest[i];
      RemoveAtMembers(rest, i);
      ghost var before := rest;
      rest := RemoveAt(rest, i);
      vertex := node.vertex;
      forall m | m in rest ensures m != node {
        var j :| 0 <= j < |rest| && rest[j] == m;
        if j < i { assert before[j] == m; } else { assert before[j + 1] == m; }
      }
    }
    if vertex != null {
      assert node in LiveNodes(s);
    }
  }

  /** The second loop of pop: takes out the invalidated entries that are least. */
  method DrainInvalid(s: seq<Node>) returns (rest: seq<Node>)
    requires DistinctCounts(s)
    ensures DistinctCounts(rest) && forall m :: m in rest ==> m in s
    ensures LiveNodes(rest) == LiveNodes(s)
    ensures rest == [] || rest[MinNode(rest)].vertex != null
  {
    rest := s;
    while rest != [] && rest[MinNode(rest)].vertex == null
      invariant DistinctCounts(rest) && forall m :: m in rest ==> m in s
      invariant LiveNodes(rest) == LiveNodes(s)
      decreases |rest|
    {
      var i := MinNode(rest);
      RemoveAtMembers(rest, i);
      rest := RemoveAt(rest, i);
    }
  }

  /** With some id located, the heap holds a live entry. */
  lemma LocatedLive(D: seq<Node>, L: map<Id, Node>, counter: nat)
    requires QueueInv(D, L, counter)
    ensures L != map[] ==> LiveNodes(D) != {}
  {
    if L != map[] {
      var id :| id in L;
      assert L[id] in LiveNodes(D);
    }
  }

  /** The outcome of pop: the least live entry, or the exception the source raises. */
  datatype Popped =
    | Entry(priority: int, vertex: Vertex)
    | MissingKey   // KeyError: the entry's id has no located entry
    | EmptyHeap    // IndexError: no live entry was left

  /**
   * push, on the parts of a queue: a new entry with the next count goes on the
   * heap and becomes the located entry of its vertex's id.
   */
  function PushEntry(D: seq<Node>, L: map<Id, Node>, counter: nat, priority: int, vertex: Vertex)
    : (r: (seq<Node>, map<Id, Node>, nat))
    requires QueueInv(D, L, counter)
    ensures QueueInv(r.0, r.1, r.2) && LiveNodes(r.0) != {}
    ensures r.0 == D + [Node(priority, counter, vertex)]
    ensures r.1 == L[vertex.id := Node(priority, counter, vertex)]
    ensures r.2 == counter + 1
    ensures LiveNodes(r.0) == LiveNodes(D) + {Node(priority, counter, vertex)}
    ensures OneLivePerId(D, L) && vertex.id !in L ==> OneLivePerId(r.0, r.1)
  {
    var node := Node(priority, counter, vertex);
    assert node in LiveNodes(D + [node]);
    (D + [node], L[vertex.id := node], counter + 1)
  }

  /**
   * update, on the parts of a queue: the located entry of the vertex's id is
   * invalidated and forgotten, and an entry with the new priority pushed.
   */
  function UpdateEntry(D: seq<Node>, L: map<Id, Node>, counter: nat, newPriority: int, vertex: Vertex)
    : (r: (seq<Node>, map<Id, Node>, nat))
    requires QueueInv(D, L, counter) && vertex.id in L
    ensures QueueInv(r.0, r.1, r.2) && LiveNodes(r.0) != {}
    ensures r.0 == Tombstone(D, L[vertex.id].count) + [Node(newPriority, counter, vertex)]
    ensures r.1 == L[vertex.id := Node(newPriority, counter, vertex)]
    ensures r.2 == counter + 1
    ensures LiveNodes(r.0) == LiveNodes(D) - {L[vertex.id]} + {Node(newPriority, counter, vertex)}
    ensures OneLivePerId(D, L) ==> OneLivePerId(r.0, r.1)
  {
    var node := L[vertex.id];
    var rest := L - {vertex.id};
    InvalidateKeeps(D, L, counter, vertex.id);
    assert rest[vertex.id := Node(newPriority, counter, vertex)] == L[vertex.id := Node(newPriority, counter, vertex)];
    PushEntry(Tombstone(D, node.count), rest, counter, newPriority, vertex)
  }

  /**
   * pop, on the parts of a queue: takes out entries from the least up until a
   * live one comes out, forgets its id in the locator, and takes out the
   * invalidated entries that are then least.  n is the entry taken out last.
   */
  method PopEntry(D: seq<Node>, L: map<Id, Node>, counter: nat) returns (r: Popped, ghost n: Node, D': seq<Node>, L': map<Id, Node>)
    requires QueueInv(D, L, counter)
    ensures QueueInv(D', L', counter)
    ensures forall m :: m in D' ==> m in D
    ensures r.EmptyHeap? <==> LiveNodes(D) == {}
    ensures r.EmptyHeap? ==> D' == [] && L' == L
    ensures !r.EmptyHeap? ==>
      && FirstLive(D, n)
      && LiveNodes(D') == LiveNodes(D) - {n}
    ensures r.MissingKey? <==> !r.EmptyHeap? && n.vertex.id !in L
    ensures r.MissingKey? ==> L' == L
    ensures r.Entry? ==>
      && r == Entry(n.priority, n.vertex)
      && L' == L - {n.vertex.id}
      && (D' == [] || D'[MinNode(D')].vertex != null)
      && (OneLivePerId(D, L) ==> OneLivePerId(D', L'))
  {
    LocatedLive(D, L, counter);
    var rest, node := SkipInvalid(D);
    n := node;
    if node.vertex == null {
      return EmptyHeap, n, rest, L;
    }
    var vertex := node.vertex;
    forall id | id in L && id != vertex.id ensures L[id] in rest {
      assert L[id] in LiveNodes(D) && L[id].vertex.id != node.vertex.id;
      assert L[id] in LiveNodes(rest);
    }
    if vertex.id !in L {
      return MissingKey, n, rest, L;
    }
    ghost var skipped := rest;
    rest := DrainInvalid(rest);
    forall id | id in L && id != vertex.id ensures L[id] in rest {
      assert L[id] in LiveNodes(skipped);
    }
    r, D', L' := Entry(node.priority, vertex), rest, L - {vertex.id};
  }

  class PriorityQueue {
    var data: seq<Node>
    var locator: map<Id, Node>
    var counter: nat

    ghost predicate Valid()
      reads this
    {
      QueueInv(data, locator, counter)
    }

    ghost predicate Unique()
      reads this
    {
      OneLivePerId(data, locator)
    }

    /** A non-empty heap holds a live entry. */
    ghost predicate HasLive()
      reads this
    {
      data != [] ==> LiveNodes(data) != {}
    }

    /** The vertices held by live entries: the ones pop may mark visited. */
    ghost function Payloads(): set<Vertex>
      reads this
    {
      set n | n in data && n.vertex != null :: n.vertex
    }

    constructor()
      ensures Valid() && Unique() && HasLive()
      ensures data == [] && locator == map[] && counter == 0
    {
      data := [];
      locator := map[];
      counter := 0;
    }

    /** Whether the heap is empty; under the invariants, exactly when no id is located. */
    function Empty(): (r: bool)
      reads this
      ensures Valid() ==> (r ==> locator == map[])
      ensures Valid() && Unique() && HasLive() ==> (r <==> locator == map[])
    {
      if |data| == 0 then
        true
      else
        assert Valid() && Unique() && HasLive() ==> locator != map[] by {
          if Valid() && Unique() && HasLive() {
            var n :| n in LiveNodes(data);
          }
        }
        false
    }

    method Push(priority: int, vertex: Vertex)
      requires Valid()
      modifies this
      ensures Valid() && HasLive()
      ensures data == old(data) + [Node(priority, old(counter), vertex)]
      ensures locator == old(locator)[vertex.id := Node(priority, old(counter), vertex)]
      ensures counter == old(counter) + 1
      ensures LiveNodes(data) == old(LiveNodes(data)) + {Node(priority, old(counter), vertex)}
      ensures old(Unique()) && vertex.id !in old(locator) ==> Unique()
    {
      var q := PushEntry(data, locator, counter, priority, vertex);
      data, locator, counter := q.0, q.1, q.2;
    }

    /** Gives vertex a new priority by invalidating its located entry and pushing a new one. */
    method Update(newPriority: int, vertex: Vertex)
      requires Valid() && vertex.id in locator
      modifies this
      ensures Valid() && HasLive()
      ensures data == Tombstone(old(data), old(locator)[vertex.id].count) + [Node(newPriority, old(counter), vertex)]
      ensures locator == old(locator)[vertex.id := Node(newPriority, old(counter), vertex)]
      ensures counter == old(counter) + 1
      ensures LiveNodes(data) == old(LiveNodes(data)) - {old(locator)[vertex.id]} + {Node(newPriority, old(counter), vertex)}
      ensures old(Unique()) ==> Unique()
    {
      var q := UpdateEntry(data, locator, counter, newPriority, vertex);
      data, locator, counter := q.0, q.1, q.2;
    }

    /** pop: PopEntry on the queue's fields, then the vertex that came out is marked visited. */
    method Pop() returns (r: Popped, ghost n: Node)
      requires Valid()
      modifies this, Payloads()`visited
      ensures Valid() && counter == old(counter)
      ensures forall v :: v in old(Payloads()) && !(r.Entry? && v == r.vertex) ==> v.visited == old(v.visited)
      ensures forall m :: m in data ==> m in old(data)
      ensures r.EmptyHeap? <==> old(LiveNodes(data)) == {}
      ensures r.EmptyHeap? ==> data == [] && locator == old(locator)
      ensures !r.EmptyHeap? ==>
        && n in old(LiveNodes(data))
        && (forall m :: m in old(LiveNodes(data)) ==> NodeAtMost(n, m))
        && LiveNodes(data) == old(LiveNodes(data)) - {n}
      ensures r.MissingKey? <==> !r.EmptyHeap? && n.vertex.id !in old(locator)
      ensures r.MissingKey? ==> locator == old(locator)
      ensures r.Entry? ==>
        && r == Entry(n.priority, n.vertex)
        && locator == old(locator) - {n.vertex.id}
        && r.vertex.visited
        && (data == [] || data[MinNode(data)].vertex != null)
        && (old(Unique()) ==> Unique())
    {
      r, n, data, locator := PopEntry(data, locator, counter);
      if r.Entry? {
        r.vertex.visited := true;
      }
    }
  }
}
