/** Nearest-rank summaries of latency samples. */
module Percentiles {

  datatype Metric =
    | NoSamples
    | Metric(samples: int, min: int, p50: int, p95: int, p99: int, max: int)

  function Insert(x: int, s: seq<int>): seq<int> {
    if |s| == 0 || x <= s[0] then [x] + s else [s[0]] + Insert(x, s[1..])
  }

  function Sorted(s: seq<int>): seq<int> {
    if |s| == 0 then [] else Insert(s[0], Sorted(s[1..]))
  }

  predicate Ascending(s: seq<int>) {
    forall i, j :: 0 <= i < j < |s| ==> s[i] <= s[j]
  }

  lemma {:induction false} InsertContents(x: int, s: seq<int>)
    ensures multiset(Insert(x, s)) == multiset(s) + multiset{x}
  {
    if |s| > 0 && x > s[0] {
      InsertContents(x, s[1..]);
      assert s == [s[0]] + s[1..];
    }
  }

  lemma {:induction false} InsertKeepsOrder(x: int, s: seq<int>)
    requires Ascending(s)
    ensures Ascending(Insert(x, s))
  {
    if |s| > 0 && x > s[0] {
      InsertKeepsOrder(x, s[1..]);
      InsertContents(x, s[1..]);
      var tail := Insert(x, s[1..]);
      forall i | 0 <= i < |tail| ensures s[0] <= tail[i] {
        assert tail[i] in multiset(tail);
        assert tail[i] == x || tail[i] in multiset(s[1..]);
      }
    }
  }

  lemma {:induction false} SortedOrders(s: seq<int>)
    ensures Ascending(Sorted(s)) && multiset(Sorted(s)) == multiset(s) && |Sorted(s)| == |s|
  {
    if |s| > 0 {
      SortedOrders(s[1..]);
      InsertKeepsOrder(s[0], Sorted(s[1..]));
      InsertContents(s[0], Sorted(s[1..]));
      assert s == [s[0]] + s[1..];
    }
    assert |multiset(Sorted(s))| == |multiset(s)|;
  }

  /** The rank spelling of the envelope and parent checkers. */
  function FloorRank(n: nat, percent: nat): int {
    (n * percent - 1) / 100
  }

  /** The rank spelling of the writer-window checker. */
  function CeilingRank(n: nat, percent: nat): int {
    (n * percent + 99) / 100 - 1
  }

  lemma {:induction false} RankInRange(n: nat, percent: nat)
    requires 0 < n && 1 <= percent <= 100
    ensures 0 <= FloorRank(n, percent) < n && FloorRank(n, percent) == CeilingRank(n, percent)
    ensures n * percent <= 100 * (FloorRank(n, percent) + 1) < n * percent + 100
  {
    assert n * percent <= n * 100;
    assert n * percent >= 1;
    var q := n * percent - 1;
    assert q == 100 * (q / 100) + q % 100;
    assert n * percent + 99 == q + 100;
    assert (q + 100) / 100 == q / 100 + 1;
  }

  function Summarize(values: seq<int>): Metric {
    if |values| == 0 then NoSamples else
      SortedOrders(values);
      var ordered := Sorted(values);
      var n := |ordered|;
      RankInRange(n, 50); RankInRange(n, 95); RankInRange(n, 99);
      Metric(n, ordered[0], ordered[FloorRank(n, 50)], ordered[FloorRank(n, 95)],
             ordered[FloorRank(n, 99)], ordered[n - 1])
  }

  /** The same summary with the writer-window checker's rank. */
  function SummarizeByCeiling(values: seq<int>): Metric {
    if |values| == 0 then NoSamples else
      SortedOrders(values);
      var ordered := Sorted(values);
      var n := |ordered|;
      RankInRange(n, 50); RankInRange(n, 95); RankInRange(n, 99);
      Metric(n, ordered[0], ordered[CeilingRank(n, 50)], ordered[CeilingRank(n, 95)],
             ordered[CeilingRank(n, 99)], ordered[n - 1])
  }

  lemma {:induction false} RankSpellingsAgree(values: seq<int>)
    ensures SummarizeByCeiling(values) == Summarize(values)
  {
    if |values| > 0 {
      RankInRange(|Sorted(values)|, 50); RankInRange(|Sorted(values)|, 95); RankInRange(|Sorted(values)|, 99);
    }
  }

  /** How many samples are at most v. */
  function AtMost(s: seq<int>, v: int): nat {
    if |s| == 0 then 0 else (if s[0] <= v then 1 else 0) + AtMost(s[1..], v)
  }

  /** v is the least sample that at least `percent` per cent of the samples do not exceed. */
  ghost predicate IsPercentile(s: seq<int>, percent: nat, v: int) {
    && v in s
    && 100 * AtMost(s, v) >= percent * |s|
    && forall w :: w in s && w < v ==> 100 * AtMost(s, w) < percent * |s|
  }

  lemma {:induction false} AtMostSplit(s: seq<int>, k: nat, v: int)
    requires k <= |s|
    ensures AtMost(s, v) == AtMost(s[..k], v) + AtMost(s[k..], v)
  {
    if k > 0 {
      AtMostSplit(s[1..], k - 1, v);
      assert s[..k][1..] == s[1..][..k - 1];
      assert s[1..][k - 1..] == s[k..];
    } else {
      assert s[k..] == s;
    }
  }

  lemma {:induction false} AtMostAll(s: seq<int>, v: int)
    requires forall i :: 0 <= i < |s| ==> s[i] <= v
    ensures AtMost(s, v) == |s|
  {
    if |s| > 0 { AtMostAll(s[1..], v); }
  }

  lemma {:induction false} AtMostNone(s: seq<int>, v: int)
    requires forall i :: 0 <= i < |s| ==> s[i] > v
    ensures AtMost(s, v) == 0
  {
    if |s| > 0 { AtMostNone(s[1..], v); }
  }

  function Without(s: seq<int>, k: nat): seq<int>
    requires k < |s|
  {
    s[..k] + s[k + 1..]
  }

  lemma {:induction false} WithoutContents(s: seq<int>, k: nat)
    requires k < |s|
    ensures multiset(Without(s, k)) == multiset(s) - multiset{s[k]}
  {
    assert s == s[..k] + [s[k]] + s[k + 1..];
  }

  lemma {:induction false} WithoutAtMost(s: seq<int>, k: nat, v: int)
    requires k < |s|
    ensures AtMost(s, v) == AtMost(Without(s, k), v) + (if s[k] <= v then 1 else 0)
  {
    AtMostSplit(s, k, v);
    AtMostSplit(Without(s, k), k, v);
    assert Without(s, k)[..k] == s[..k] && Without(s, k)[k..] == s[k + 1..] == s[k..][1..];
  }

  lemma {:induction false} AtMostPermutation(s: seq<int>, t: seq<int>, v: int)
    requires multiset(s) == multiset(t)
    ensures AtMost(s, v) == AtMost(t, v)
    decreases |s|
  {
    if |s| == 0 {
      SameLength(s, t);
    } else {
      assert s[0] in multiset(t);
      var k :| 0 <= k < |t| && t[k] == s[0];
      WithoutContents(s, 0);
      WithoutContents(t, k);
      WithoutAtMost(s, 0, v);
      WithoutAtMost(t, k, v);
      AtMostPermutation(Without(s, 0), Without(t, k), v);
    }
  }

  /** In an ascending sequence the nearest rank is the percentile. */
  lemma {:induction false} NearestRankAscending(s: seq<int>, percent: nat)
    requires Ascending(s) && |s| > 0 && 1 <= percent <= 100
    ensures 0 <= FloorRank(|s|, percent) < |s|
    ensures IsPercentile(s, percent, s[FloorRank(|s|, percent)])
  {
    RankInRange(|s|, percent);
    var k := FloorRank(|s|, percent);
    var v := s[k];
    AtMostSplit(s, k + 1, v);
    assert forall i :: 0 <= i <= k ==> s[i] <= s[k];
    AtMostAll(s[..k + 1], v);
    forall w | w in s && w < v ensures 100 * AtMost(s, w) < percent * |s| {
      AtMostSplit(s, k, w);
      forall i | 0 <= i < |s[k..]| ensures s[k..][i] > w {
        assert i > 0 ==> s[k] <= s[k + i];
      }
      AtMostNone(s[k..], w);
      AtMostBound(s[..k], w);
    }
  }

  lemma {:induction false} AtMostBound(s: seq<int>, v: int)
    ensures AtMost(s, v) <= |s|
  {
    if |s| > 0 { AtMostBound(s[1..], v); }
  }

  ghost predicate Bounds(s: seq<int>, low: int, high: int) {
    low in s && high in s && forall i :: 0 <= i < |s| ==> low <= s[i] <= high
  }

  /** A summary reports the extremes and the least samples covering 50, 95 and 99 per cent. */
  ghost predicate Describes(m: Metric, s: seq<int>) {
    && m.Metric?
    && m.samples == |s|
    && Bounds(s, m.min, m.max)
    && IsPercentile(s, 50, m.p50) && IsPercentile(s, 95, m.p95) && IsPercentile(s, 99, m.p99)
    && m.min <= m.p50 <= m.p95 <= m.p99 <= m.max
  }

  lemma {:induction false} PercentilePermutation(s: seq<int>, t: seq<int>, percent: nat, v: int)
    requires multiset(s) == multiset(t) && IsPercentile(s, percent, v)
    ensures IsPercentile(t, percent, v)
  {
    SameLength(s, t);
    assert v in multiset(t);
    AtMostPermutation(s, t, v);
    forall w | w in t && w < v ensures 100 * AtMost(t, w) < percent * |t| {
      assert w in multiset(s);
      AtMostPermutation(s, t, w);
    }
  }

  lemma {:induction false} BoundsPermutation(s: seq<int>, t: seq<int>, low: int, high: int)
    requires multiset(s) == multiset(t) && Bounds(s, low, high)
    ensures Bounds(t, low, high)
  {
    assert low in multiset(t) && high in multiset(t);
    forall i | 0 <= i < |t| ensures low <= t[i] <= high {
      assert t[i] in multiset(s);
    }
  }

  lemma {:induction false} SameLength(s: seq<int>, t: seq<int>)
    requires multiset(s) == multiset(t)
    ensures |s| == |t|
  {
    assert |multiset(s)| == |multiset(t)|;
  }

  lemma {:induction false} PercentileUnique(s: seq<int>, percent: nat, v: int, w: int)
    requires IsPercentile(s, percent, v) && IsPercentile(s, percent, w)
    ensures v == w
  {
  }

  lemma {:induction false} SortedPercentile(values: seq<int>, percent: nat)
    requires |values| > 0 && 1 <= percent <= 100
    ensures |Sorted(values)| == |values| && 0 <= FloorRank(|values|, percent) < |values|
    ensures IsPercentile(values, percent, Sorted(values)[FloorRank(|values|, percent)])
  {
    SortedOrders(values);
    NearestRankAscending(Sorted(values), percent);
    PercentilePermutation(Sorted(values), values, percent, Sorted(values)[FloorRank(|values|, percent)]);
  }

  lemma {:induction false} RankMonotone(n: nat, p: nat, q: nat)
    requires 0 < n && p <= q
    ensures FloorRank(n, p) <= FloorRank(n, q)
  {
    assert n * p <= n * q;
  }

  /** The extremes of an ascending sequence are its ends. */
  lemma {:induction false} AscendingBounds(s: seq<int>)
    requires Ascending(s) && |s| > 0
    ensures Bounds(s, s[0], s[|s| - 1])
  {
  }

  lemma {:induction false} RanksAscend(s: seq<int>, p: nat, q: nat)
    requires Ascending(s) && |s| > 0 && 1 <= p <= q <= 100
    ensures 0 <= FloorRank(|s|, p) <= FloorRank(|s|, q) < |s|
    ensures s[0] <= s[FloorRank(|s|, p)] <= s[FloorRank(|s|, q)] <= s[|s| - 1]
  {
    RankInRange(|s|, p);
    RankInRange(|s|, q);
    RankMonotone(|s|, p, q);
  }

  lemma {:induction false} SummarizeMeaning(values: seq<int>)
    requires |values| > 0
    ensures Describes(Summarize(values), values)
  {
    SortedOrders(values);
    var ordered := Sorted(values);
    SortedPercentile(values, 50); SortedPercentile(values, 95); SortedPercentile(values, 99);
    RanksAscend(ordered, 50, 95);
    RanksAscend(ordered, 95, 99);
    AscendingBounds(ordered);
    BoundsPermutation(ordered, values, ordered[0], ordered[|ordered| - 1]);
  }

  lemma {:induction false} PercentileAlike(s: seq<int>, t: seq<int>, percent: nat, v: int, w: int)
    requires multiset(s) == multiset(t) && IsPercentile(s, percent, v) && IsPercentile(t, percent, w)
    ensures v == w
  {
    PercentilePermutation(t, s, percent, w);
    PercentileUnique(s, percent, v, w);
  }

  /** Two descriptions of the same samples are the same. */
  lemma {:induction false} DescribedAlike(a: Metric, b: Metric, s: seq<int>, t: seq<int>)
    requires multiset(s) == multiset(t) && Describes(a, s) && Describes(b, t)
    ensures a == b
  {
    SameLength(s, t);
    BoundsPermutation(t, s, b.min, b.max);
    PercentileAlike(s, t, 50, a.p50, b.p50);
    PercentileAlike(s, t, 95, a.p95, b.p95);
    PercentileAlike(s, t, 99, a.p99, b.p99);
  }

  /** The summary does not depend on the order in which the samples settled. */
  lemma {:induction false} SummarizePermutation(s: seq<int>, t: seq<int>)
    requires multiset(s) == multiset(t)
    ensures Summarize(s) == Summarize(t)
  {
    SameLength(s, t);
    if |s| > 0 {
      SummarizeMeaning(s);
      SummarizeMeaning(t);
      DescribedAlike(Summarize(s), Summarize(t), s, t);
    }
  }
}
