/** Orders and string tests shared by several core files: the ascending
    iteration order of an ordered set or map of binding numbers, and the
    prefix, suffix and substring tests on paths. */
module Ordered {

  /** The least element of a non-empty finite set of naturals. */
  function Least(s: set<nat>): (m: nat)
    requires s != {}
    ensures m in s
    ensures forall x :: x in s ==> m <= x
  {
    LeastExists(s);
    var m :| m in s && forall x :: x in s ==> m <= x;
    m
  }

  lemma LeastExists(s: set<nat>)
    requires s != {}
    ensures exists m :: m in s && forall x :: x in s ==> m <= x
  {
    var x :| x in s;
    LeastBelow(s, x);
  }

  /** Descending from any element reaches one that nothing in `s` undercuts. */
  lemma {:induction false} LeastBelow(s: set<nat>, x: nat)
    requires x in s
    ensures exists m :: m in s && forall y :: y in s ==> m <= y
    decreases x
  {
    if y :| y in s && y < x {
      LeastBelow(s, y);
    } else {
      assert forall y :: y in s ==> x <= y;
    }
  }

  /** The elements of `s` in ascending order: the iteration order of a
      `std::set<uint32_t>`, and the order in which this model visits the keys
      of a binding table. `AscendingSorted` states that every element is
      listed once, in increasing order. */
  function Ascending(s: set<nat>): (r: seq<nat>)
    ensures |r| == |s|
    ensures forall i :: 0 <= i < |r| ==> r[i] in s
    decreases |s|
  {
    if s == {} then []
    else
      var m := Least(s);
      [m] + Ascending(s - {m})
  }

  /** The listing is complete and strictly increasing. */
  lemma {:induction false} AscendingSorted(s: set<nat>)
    ensures forall x :: x in s ==> x in Ascending(s)
    ensures forall i, j :: 0 <= i < j < |Ascending(s)| ==> Ascending(s)[i] < Ascending(s)[j]
    decreases |s|
  {
    if s != {} {
      var m := Least(s);
      AscendingSorted(s - {m});
      ConsAscending(s, m, Ascending(s - {m}));
    }
  }

  /** Putting the least element in front of an ascending listing of the
      others lists the whole set in ascending order. */
  lemma ConsAscending(s: set<nat>, m: nat, rest: seq<nat>)
    requires m in s && forall x :: x in s ==> m <= x
    requires |rest| == |s - {m}|
    requires forall i :: 0 <= i < |rest| ==> rest[i] in s - {m}
    requires forall x :: x in s - {m} ==> x in rest
    requires forall i, j :: 0 <= i < j < |rest| ==> rest[i] < rest[j]
    ensures |[m] + rest| == |s|
    ensures forall i :: 0 <= i < |[m] + rest| ==> ([m] + rest)[i] in s
    ensures forall x :: x in s ==> x in [m] + rest
    ensures forall i, j :: 0 <= i < j < |[m] + rest| ==> ([m] + rest)[i] < ([m] + rest)[j]
  {
    var r := [m] + rest;
    assert |s - {m}| == |s| - 1;
    forall x | x in s ensures x in r {
      if x != m { assert x in s - {m}; }
    }
    forall i, j | 0 <= i < j < |r| ensures r[i] < r[j] {
      if i == 0 { assert r[j] == rest[j - 1] && rest[j - 1] in s - {m}; }
      else { assert r[i] == rest[i - 1] && r[j] == rest[j - 1]; }
    }
  }

  /** When every number below `|s|` is in `s`, `s` is `{0, ..., |s|-1}` and
      its ascending order is `0, ..., |s|-1`. */
  lemma {:induction false} AscendingDense(s: set<nat>)
    requires forall k: nat :: k < |s| ==> k in s
    ensures forall k :: 0 <= k < |s| ==> Ascending(s)[k] == k
    ensures forall k :: k in s ==> k < |s|
  {
    var r := Ascending(s);
    AscendingSorted(s);
    forall k | 0 <= k < |r| ensures r[k] == k {
      CoveringAscendingIsIdentity(r, k);
    }
  }

  /** A strictly ascending sequence of length n that contains every number
      below n is the identity. */
  lemma {:induction false} CoveringAscendingIsIdentity(r: seq<nat>, k: nat)
    requires k < |r|
    requires forall v: nat :: v < |r| ==> v in r
    requires forall i, j :: 0 <= i < j < |r| ==> r[i] < r[j]
    ensures r[k] == k
  {
    if k > 0 { CoveringAscendingIsIdentity(r, k - 1); }
    assert k in r;
    var j :| 0 <= j < |r| && r[j] == k;
    if j < k {
      CoveringAscendingIsIdentity(r, j);
      assert false;
    }
  }

  /** A subset is no larger than its superset, and only as large when the
      two are equal. */
  lemma SubsetSize<T>(a: set<T>, b: set<T>)
    requires a <= b
    ensures |a| <= |b|
    ensures |a| == |b| ==> a == b
  {
    var d := b - a;
    assert b == d + a;
    assert d * a == {};
    if |a| == |b| {
      assert |d| == 0;
    }
  }

  /** `order` lists every key of `m` exactly once: the iteration order of
      a hash map, which the program does not choose. */
  predicate ListsKeys<K, V>(order: seq<K>, m: map<K, V>) {
    && (forall i :: 0 <= i < |order| ==> order[i] in m)
    && (forall k :: k in m ==> k in order)
    && (forall i, j :: 0 <= i < j < |order| ==> order[i] != order[j])
  }

  /** A listing is as long as the map: one position per key. */
  lemma ListingLength<K, V>(order: seq<K>, m: map<K, V>)
    requires ListsKeys(order, m)
    ensures |order| == |m|
  {
    var listed := set i | 0 <= i < |order| :: order[i];
    assert listed == m.Keys;
    DistinctCardinality(order);
  }

  /** A sequence without repetitions has as many elements as its set. */
  lemma {:induction false} DistinctCardinality<T>(s: seq<T>)
    requires forall i, j :: 0 <= i < j < |s| ==> s[i] != s[j]
    ensures |set i | 0 <= i < |s| :: s[i]| == |s|
  {
    if s != [] {
      var n := |s| - 1;
      var init := s[..n];
      DistinctCardinality(init);
      var before := set i | 0 <= i < |init| :: init[i];
      var all := set i | 0 <= i < |s| :: s[i];
      assert all == before + {s[n]} by {
        forall x | x in all ensures x in before + {s[n]} {
          var i :| 0 <= i < |s| && s[i] == x;
          if i < n {
            assert init[i] == x;
          }
        }
      }
      assert s[n] !in before;
    }
  }

  predicate StartsWith(s: string, prefix: string) {
    |prefix| <= |s| && s[..|prefix|] == prefix
  }

  predicate EndsWith(s: string, suffix: string) {
    |suffix| <= |s| && s[|s| - |suffix|..] == suffix
  }

  /** `s.find(sub) != npos`: `sub` occurs somewhere in `s`. */
  predicate Contains(s: string, sub: string)
    decreases |s|
  {
    StartsWith(s, sub) || (|s| > 0 && Contains(s[1..], sub))
  }

  /** An occurrence at any position is found. */
  lemma {:induction false} ContainsAt(s: string, sub: string, i: nat)
    requires i + |sub| <= |s| && s[i..i + |sub|] == sub
    ensures Contains(s, sub)
    decreases i
  {
    if i == 0 {
      assert s[..|sub|] == sub;
    } else {
      assert s[1..][i - 1..i - 1 + |sub|] == s[i..i + |sub|];
      ContainsAt(s[1..], sub, i - 1);
    }
  }

  /** Every found occurrence sits at some position. */
  lemma {:induction false} ContainsWitness(s: string, sub: string) returns (i: nat)
    requires Contains(s, sub)
    ensures i + |sub| <= |s| && s[i..i + |sub|] == sub
    decreases |s|
  {
    if StartsWith(s, sub) {
      i := 0;
    } else {
      var j := ContainsWitness(s[1..], sub);
      assert s[1..][j..j + |sub|] == s[j + 1..j + 1 + |sub|];
      i := j + 1;
    }
  }
}
