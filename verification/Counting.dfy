/** Finite counting: sums and counts over sequences, and the pigeonhole bound. */
module Counting {

  function Sum(s: seq<int>): int {
    if |s| == 0 then 0 else Sum(s[..|s| - 1]) + s[|s| - 1]
  }

  lemma {:induction false} SumAppend(s: seq<int>, x: int)
    ensures Sum(s + [x]) == Sum(s) + x
  {
    assert (s + [x])[..|s|] == s;
  }

  /** The total weight of a sequence. */
  ghost function Total<T>(s: seq<T>, weight: T -> int): int {
    if |s| == 0 then 0 else Total(s[..|s| - 1], weight) + weight(s[|s| - 1])
  }

  lemma {:induction false} TotalAppend<T>(s: seq<T>, x: T, weight: T -> int)
    ensures Total(s + [x], weight) == Total(s, weight) + weight(x)
  {
    assert (s + [x])[..|s|] == s;
  }

  lemma {:induction false} TotalUpdate<T>(s: seq<T>, k: nat, x: T, weight: T -> int)
    requires k < |s|
    ensures Total(s[k := x], weight) == Total(s, weight) - weight(s[k]) + weight(x)
  {
    var n := |s|;
    if k == n - 1 {
      assert s[k := x][..n - 1] == s[..n - 1];
    } else {
      TotalUpdate(s[..n - 1], k, x, weight);
      assert s[k := x][..n - 1] == s[..n - 1][k := x];
    }
  }

  lemma {:induction false} TotalSame<T>(s: seq<T>, w: T -> int, v: T -> int)
    requires forall i :: 0 <= i < |s| ==> w(s[i]) == v(s[i])
    ensures Total(s, w) == Total(s, v)
  {
    if |s| > 0 {
      TotalSame(s[..|s| - 1], w, v);
    }
  }

  /** Two weights that differ at one place only. */
  lemma {:induction false} TotalChange<T>(s: seq<T>, w: T -> int, v: T -> int, k: nat)
    requires k < |s| && forall i :: 0 <= i < |s| && i != k ==> w(s[i]) == v(s[i])
    ensures Total(s, v) == Total(s, w) - w(s[k]) + v(s[k])
  {
    if k == |s| - 1 {
      TotalSame(s[..k], w, v);
    } else {
      TotalChange(s[..|s| - 1], w, v, k);
    }
  }

  ghost function SomeKey<K, V>(m: map<K, V>): (k: K)
    requires m != map[]
    ensures k in m
  {
    var k :| k in m; k
  }

  lemma {:induction false} MultisetAppend(s: seq<int>, x: int)
    ensures multiset(s + [x]) == multiset(s) + multiset{x}
  {
  }

  lemma {:induction false} MultisetRegroup(a: multiset<int>, b: multiset<int>, c: multiset<int>, d: multiset<int>)
    ensures a + b + (c + d) == a + c + (b + d)
  {
  }

  lemma {:induction false} FirstOff<T>(s: seq<T>)
    requires |s| > 0
    ensures [s[0]] + s[1..] == s
  {
  }

  lemma {:induction false} LastOff<T>(s: seq<T>)
    requires |s| > 0
    ensures s[..|s| - 1] + [s[|s| - 1]] == s
  {
  }

  lemma {:induction false} Associate<T>(a: seq<T>, b: seq<T>, c: seq<T>)
    ensures a + (b + c) == a + b + c
  {
  }

  predicate Distinct(s: seq<int>) {
    forall i, j :: 0 <= i < j < |s| ==> s[i] != s[j]
  }

  /** The numbers below n. */
  function Range(n: nat): (r: set<int>)
    ensures |r| == n
    ensures forall x :: x in r <==> 0 <= x < n
  {
    if n == 0 then {} else Range(n - 1) + {n - 1}
  }

  function Elements(s: seq<int>): set<int> {
    set x | x in s
  }

  lemma {:induction false} DistinctSize(s: seq<int>)
    requires Distinct(s)
    ensures |Elements(s)| == |s|
  {
    if |s| > 0 {
      var init, last := s[..|s| - 1], s[|s| - 1];
      DistinctSize(init);
      assert Elements(s) == Elements(init) + {last};
    }
  }

  lemma {:induction false} SubsetSize(a: set<int>, b: set<int>)
    requires a <= b
    ensures |a| <= |b|
  {
    assert b == a + (b - a);
  }

  /** Distinct numbers below n are at most n many. */
  lemma {:induction false} Pigeonhole(s: seq<int>, n: nat)
    requires Distinct(s) && forall i :: 0 <= i < |s| ==> 0 <= s[i] < n
    ensures |s| <= n
  {
    DistinctSize(s);
    SubsetSize(Elements(s), Range(n));
  }

  /** Numbers from lo to hi are at most hi - lo + 1 many. */
  lemma {:induction false} WithinSize(s: set<int>, lo: int, hi: int)
    requires lo <= hi + 1 && forall x :: x in s ==> lo <= x <= hi
    ensures |s| <= hi - lo + 1
    decreases hi - lo + 1
  {
    if lo <= hi {
      WithinSize(s - {hi}, lo, hi - 1);
    } else {
      assert forall x :: x !in s;
    }
  }

  /** The least and the greatest number of a nonempty set. */
  lemma {:induction false} Extremes(s: set<int>) returns (lo: int, hi: int)
    requires |s| > 0
    ensures lo in s && hi in s && forall x :: x in s ==> lo <= x <= hi
    decreases |s|
  {
    if forall x :: x !in s {
      SubsetSize(s, {});
    }
    var x :| x in s;
    var rest := s - {x};
    assert s == rest + {x};
    if |rest| == 0 {
      return x, x;
    }
    var l, h := Extremes(rest);
    lo, hi := if x < l then x else l, if h < x then x else h;
  }

  /** Carry a maximum over the prefixes of a sequence across its last element. */
  lemma {:induction false} ExtendMaximum<T>(s: seq<T>, count: seq<T> -> int, when: seq<T> -> bool, peak: int,
                                            newPeak: int)
    requires |s| > 0
    requires var init := s[..|s| - 1];
             && (forall k :: 0 <= k <= |init| && when(init[..k]) ==> count(init[..k]) <= peak)
             && (exists k :: 0 <= k <= |init| && when(init[..k]) && count(init[..k]) == peak)
    requires newPeak == if when(s) && count(s) > peak then count(s) else peak
    ensures forall k :: 0 <= k <= |s| && when(s[..k]) ==> count(s[..k]) <= newPeak
    ensures exists k :: 0 <= k <= |s| && when(s[..k]) && count(s[..k]) == newPeak
  {
    var init := s[..|s| - 1];
    assert s[..|s|] == s;
    assert forall k :: 0 <= k <= |init| ==> init[..k] == s[..k];
    var k :| 0 <= k <= |init| && when(init[..k]) && count(init[..k]) == peak;
    assert when(s[..k]) && count(s[..k]) == peak;
  }

  /** The first n multisets together. */
  ghost function Merged(part: nat -> multiset<int>, n: nat): multiset<int> {
    if n == 0 then multiset{} else Merged(part, n - 1) + part(n - 1)
  }

  lemma {:induction false} MergedNothing(part: nat -> multiset<int>, n: nat)
    requires forall k: nat :: part(k) == multiset{}
    ensures Merged(part, n) == multiset{}
  {
    if n > 0 {
      MergedNothing(part, n - 1);
    }
  }

  /** One of them grows. */
  lemma {:induction false} MergedGrows(was: nat -> multiset<int>, now: nat -> multiset<int>, at: int, x: multiset<int>,
                                       n: nat)
    requires forall k: nat :: now(k) == was(k) + (if k == at then x else multiset{})
    ensures Merged(now, n) == Merged(was, n) + (if 0 <= at < n then x else multiset{})
  {
    if n > 0 {
      var k, none: multiset<int> := n - 1, multiset{};
      MergedGrows(was, now, at, x, k);
      MultisetRegroup(Merged(was, k), if 0 <= at < k then x else none, was(k), if k == at then x else none);
    }
  }
}
