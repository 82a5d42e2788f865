/**
 * Tallies over a fixed, duplicate-free list of keys.  The searches use them as
 * termination measures: a search's best-cost map only ever gains keys or lowers
 * a value, so the number of keys still missing and the sum of the values drop.
 */
module Measures {

  ghost predicate Distinct<K>(ks: seq<K>)
  {
    forall i, j :: 0 <= i < j < |ks| ==> ks[i] != ks[j]
  }

  /** The elements of s, each listed once: the keys a search's tallies run over. */
  ghost function Enumerate<K(!new)>(s: set<K>): (ks: seq<K>)
    ensures Distinct(ks)
    ensures forall x :: x in ks <==> x in s
    decreases s
  {
    if s == {} then []
    else
      var x :| x in s;
      var r := Enumerate(s - {x});
      assert forall i :: 1 <= i < |[x] + r| ==> ([x] + r)[i] == r[i - 1];
      [x] + r
  }

  /** The sum of the values m gives to the keys of ks; a key without a value adds 0. */
  ghost function SumOver<K>(ks: seq<K>, m: map<K, int>): int
  {
    if ks == [] then 0 else (if ks[0] in m then m[ks[0]] else 0) + SumOver(ks[1..], m)
  }

  /** How many keys of ks have no value in m. */
  ghost function Missing<K>(ks: seq<K>, m: map<K, int>): nat
  {
    if ks == [] then 0 else (if ks[0] in m then 0 else 1) + Missing(ks[1..], m)
  }

  /** The tallies over ks drop: fewer keys without a value, or as many and a smaller sum of values. */
  ghost predicate Lower<K>(ks: seq<K>, m': map<K, int>, m: map<K, int>)
  {
    Missing(ks, m') < Missing(ks, m) || (Missing(ks, m') == Missing(ks, m) && SumOver(ks, m') < SumOver(ks, m))
  }

  lemma {:induction false} TallyUnrelated<K>(ks: seq<K>, m: map<K, int>, k: K, v: int)
    requires k !in ks
    ensures SumOver(ks, m[k := v]) == SumOver(ks, m)
    ensures Missing(ks, m[k := v]) == Missing(ks, m)
  {
    if ks != [] {
      TallyUnrelated(ks[1..], m, k, v);
    }
  }

  /** Giving key k of ks the value v changes the sum by the difference and fills a missing key. */
  lemma {:induction false} TallyUpdate<K>(ks: seq<K>, m: map<K, int>, k: K, v: int)
    requires Distinct(ks) && k in ks
    ensures SumOver(ks, m[k := v]) == SumOver(ks, m) - (if k in m then m[k] else 0) + v
    ensures Missing(ks, m[k := v]) == Missing(ks, m) - (if k in m then 0 else 1)
  {
    if ks[0] == k {
      assert k !in ks[1..] by {
        forall i | 0 <= i < |ks[1..]| ensures ks[1..][i] != k {
          assert ks[1..][i] == ks[i + 1];
        }
      }
      TallyUnrelated(ks[1..], m, k, v);
    } else {
      assert k in ks[1..] by {
        var i :| 0 <= i < |ks| && ks[i] == k;
        assert ks[1..][i - 1] == k;
      }
      TallyUpdate(ks[1..], m, k, v);
    }
  }

  lemma {:induction false} SumOverNonNegative<K>(ks: seq<K>, m: map<K, int>)
    requires forall k :: k in m ==> m[k] >= 0
    ensures SumOver(ks, m) >= 0
  {
    if ks != [] {
      SumOverNonNegative(ks[1..], m);
    }
  }

  /** A list without duplicates has as many elements as its set of elements. */
  lemma {:induction false} DistinctCard<K>(ks: seq<K>)
    requires Distinct(ks)
    ensures |set k | k in ks| == |ks|
  {
    if ks != [] {
      var rest := ks[1..];
      assert Distinct(rest) by {
        forall i, j | 0 <= i < j < |rest| ensures rest[i] != rest[j] {
          assert rest[i] == ks[i + 1] && rest[j] == ks[j + 1];
        }
      }
      DistinctCard(rest);
      assert ks[0] !in rest by {
        forall i | 0 <= i < |rest| ensures rest[i] != ks[0] {
          assert rest[i] == ks[i + 1];
        }
      }
      assert (set k | k in ks) == (set k | k in rest) + {ks[0]};
    }
  }
}
