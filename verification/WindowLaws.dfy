/** Writer brackets against the measurement window: what the classes mean for rows in clock order, how the
    groups share out the rows, and what the clock-read count says. */
module WindowLaws {
  import opened Counting
  import opened WriterTrace

  // ---- the classes ----------------------------------------------------------------------------------

  /** The classes by the order of the four readings alone. */
  lemma {:induction false} ClassMeaning(before: int, after: int, start: int, stop: int)
    requires before <= after && start < stop
    ensures var k := Classify(before, after, start, stop);
            && (k == Before <==> after < start)
            && (k == CrossesOpen <==> before < start < after < stop)
            && (k == Inside <==> start < before && after < stop)
            && (k == CrossesStop <==> start < before < stop < after)
            && (k == CrossesBoth <==> before < start && stop < after)
            && (k == After <==> stop < before)
            && (k == Touches <==> before in {start, stop} || after in {start, stop})
  {
  }

  /** How far into the window a class lies; boundary contacts and double crossings have no place. */
  ghost function Place(k: WindowClass): int {
    match k
    case Before => 0
    case CrossesOpen => 1
    case Inside => 2
    case CrossesStop => 3
    case After => 4
    case CrossesBoth => -1
    case Touches => -1
  }

  ghost function ClassOf(window: Window, i: Interval): WindowClass {
    Classify(i.beforeBegin, i.afterCommit, window.start, window.stop)
  }

  lemma {:induction false} OrderedPairs(intervals: seq<Interval>)
    requires InOrder(intervals)
    ensures forall i :: 0 <= i < |intervals| ==> intervals[i].beforeBegin <= intervals[i].afterCommit
    ensures forall i, j :: 0 <= i < j < |intervals| ==> intervals[i].afterCommit <= intervals[j].beforeBegin
  {
    if |intervals| > 0 {
      OrderedPairs(intervals[..|intervals| - 1]);
    }
  }

  /** Two rows in clock order: their classes come in window order, each crossing once, and a row that
      crosses both boundaries leaves only BEFORE ahead of it and only AFTER behind it. */
  lemma {:induction false} ClassesInOrder(window: Window, intervals: seq<Interval>, i: nat, j: nat)
    requires InOrder(intervals) && window.start < window.stop && i < j < |intervals|
    ensures var a, b := ClassOf(window, intervals[i]), ClassOf(window, intervals[j]);
            && (Place(a) >= 0 && Place(b) >= 0 ==> Place(a) <= Place(b))
            && (a == CrossesOpen ==> b != CrossesOpen)
            && (a == CrossesStop ==> b != CrossesStop)
            && (a == CrossesBoth ==> b == After)
            && (b == CrossesBoth ==> a == Before)
  {
    OrderedPairs(intervals);
  }

  /** So a double crossing excludes the three middle classes, and every boundary contact. */
  lemma {:induction false} DoubleCrossingExcludes(window: Window, intervals: seq<Interval>, i: nat, j: nat)
    requires InOrder(intervals) && window.start < window.stop && i < |intervals| && j < |intervals| && i != j
    requires ClassOf(window, intervals[i]) == CrossesBoth
    ensures ClassOf(window, intervals[j]) == if j < i then Before else After
  {
    if j < i {
      ClassesInOrder(window, intervals, j, i);
    } else {
      ClassesInOrder(window, intervals, i, j);
    }
  }

  // ---- the 21 groups -----------------------------------------------------------------------------------

  ghost predicate NoRepeats(keys: seq<Key>) {
    forall i, j :: 0 <= i < j < |keys| ==> keys[i] != keys[j]
  }

  /** Which of two lists of durations. */
  datatype Duration = Bracket | InTransaction

  ghost function Values(s: Sample, d: Duration): seq<int> {
    if d == Bracket then s.bracket else s.inside
  }

  ghost function Elapsed(raw: Interval, d: Duration): int {
    if d == Bracket then raw.bracketElapsed else raw.insideElapsed
  }

  /** The durations of the groups under these keys, taken together. */
  ghost function Union(window: Window, rows: seq<Row>, keys: seq<Key>, d: Duration): multiset<int> {
    if |keys| == 0 then multiset{} else
      Union(window, rows, keys[..|keys| - 1], d) + multiset(Values(SampleOf(window, rows, keys[|keys| - 1]), d))
  }

  ghost function Changed(window: Window, rows: seq<Row>, keys: seq<Key>): int {
    if |keys| == 0 then 0 else
      Changed(window, rows, keys[..|keys| - 1]) + SampleOf(window, rows, keys[|keys| - 1]).changed
  }

  lemma {:induction false} SampleStep(window: Window, rows: seq<Row>, key: Key, d: Duration)
    requires |rows| > 0
    ensures var init, last := rows[..|rows| - 1], rows[|rows| - 1];
            if KeyOf(window, last) == key then
              && multiset(Values(SampleOf(window, rows, key), d))
                 == multiset(Values(SampleOf(window, init, key), d)) + multiset{Elapsed(last.raw, d)}
              && SampleOf(window, rows, key).changed == SampleOf(window, init, key).changed
                 + (if last.raw.changed then 1 else 0)
            else SampleOf(window, rows, key) == SampleOf(window, init, key)
  {
    MultisetAppend(Values(SampleOf(window, rows[..|rows| - 1], key), d), Elapsed(rows[|rows| - 1].raw, d));
  }

  lemma {:induction false} LastKey(keys: seq<Key>, k: Key)
    requires |keys| > 0 && NoRepeats(keys)
    ensures NoRepeats(keys[..|keys| - 1])
    ensures k in keys <==> k in keys[..|keys| - 1] || k == keys[|keys| - 1]
    ensures k == keys[|keys| - 1] ==> k !in keys[..|keys| - 1]
  {
  }

  /** A row joins exactly one of the groups. */
  lemma {:induction false} UnionStep(window: Window, rows: seq<Row>, keys: seq<Key>, d: Duration)
    requires |rows| > 0 && NoRepeats(keys)
    ensures var init, last := rows[..|rows| - 1], rows[|rows| - 1];
            var joins := KeyOf(window, last) in keys;
            && Union(window, rows, keys, d) == Union(window, init, keys, d)
               + (if joins then multiset{Elapsed(last.raw, d)} else multiset{})
            && Changed(window, rows, keys) == Changed(window, init, keys) + (if joins && last.raw.changed then 1 else 0)
  {
    if |keys| > 0 {
      var front, key := keys[..|keys| - 1], keys[|keys| - 1];
      LastKey(keys, KeyOf(window, rows[|rows| - 1]));
      UnionStep(window, rows, front, d);
      SampleStep(window, rows, key, d);
    }
  }

  lemma {:induction false} NothingYet(window: Window, keys: seq<Key>, d: Duration)
    ensures Union(window, [], keys, d) == multiset{} && Changed(window, [], keys) == 0
  {
    if |keys| > 0 {
      NothingYet(window, keys[..|keys| - 1], d);
    }
  }

  lemma {:induction false} InKeys(k: Key)
    ensures k in KEYS
  {
    var i := match k.kind case Before => 0 case CrossesOpen => 1 case Inside => 2 case CrossesStop => 3
                          case CrossesBoth => 4 case After => 5 case Touches => 6;
    match k.cohort {
      case Control => assert KEYS[i] == k;
      case Warmup => assert KEYS[7 + i] == k;
      case Measurement => assert KEYS[14 + i] == k;
    }
  }

  lemma {:induction false} KeysDiffer()
    ensures |KEYS| == 21 && NoRepeats(KEYS)
  {
  }

  lemma {:induction false} PooledNext(rows: seq<Row>, d: Duration)
    requires |rows| > 0
    ensures var pooled, last := Pooled(rows[..|rows| - 1]), rows[|rows| - 1];
            && Values(Pooled(rows), d) == Values(pooled, d) + [Elapsed(last.raw, d)]
            && Pooled(rows).changed == pooled.changed + (if last.raw.changed then 1 else 0)
            && multiset(Values(Pooled(rows), d)) == multiset(Values(pooled, d)) + multiset{Elapsed(last.raw, d)}
  {
    MultisetAppend(Values(Pooled(rows[..|rows| - 1]), d), Elapsed(rows[|rows| - 1].raw, d));
  }

  lemma {:induction false} KeysPartition(window: Window, rows: seq<Row>, keys: seq<Key>, d: Duration)
    requires NoRepeats(keys) && forall k: Key :: k in keys
    ensures Union(window, rows, keys, d) == multiset(Values(Pooled(rows), d))
    ensures Changed(window, rows, keys) == Pooled(rows).changed
    ensures |Values(Pooled(rows), d)| == |rows|
  {
    if |rows| == 0 {
      assert rows == [];
      NothingYet(window, keys, d);
    } else {
      KeysPartition(window, rows[..|rows| - 1], keys, d);
      assert KeyOf(window, rows[|rows| - 1]) in keys;
      UnionStep(window, rows, keys, d);
      PooledNext(rows, d);
    }
  }

  /** The 21 groups partition the rows: together they hold every duration once and every change once. */
  lemma {:induction false} GroupsPartition(window: Window, rows: seq<Row>, d: Duration)
    ensures Union(window, rows, KEYS, d) == multiset(Values(Pooled(rows), d))
    ensures Changed(window, rows, KEYS) == Pooled(rows).changed
    ensures |Values(Pooled(rows), d)| == |rows|
  {
    KeysDiffer();
    forall k: Key {
      InKeys(k);
    }
    KeysPartition(window, rows, KEYS, d);
  }

  // ---- clock reads -------------------------------------------------------------------------------------

  ghost predicate Nondecreasing(s: seq<int>) {
    forall i, j :: 0 <= i <= j < |s| ==> s[i] <= s[j]
  }

  lemma {:induction false} ReadingsOrdered(intervals: seq<Interval>)
    requires InOrder(intervals)
    ensures Nondecreasing(Readings(intervals)) && |Readings(intervals)| == 4 * |intervals|
    ensures |intervals| > 0 ==> Readings(intervals)[4 * |intervals| - 1] == intervals[|intervals| - 1].afterCommit
  {
    if |intervals| > 0 {
      var init, last := intervals[..|intervals| - 1], intervals[|intervals| - 1];
      ReadingsOrdered(init);
      var s, a, b, c, d := Readings(init), last.beforeBegin, last.afterBegin, last.beforeCommit, last.afterCommit;
      OneMore(s, a);
      OneMore(s + [a], b);
      OneMore(s + [a] + [b], c);
      OneMore(s + [a] + [b] + [c], d);
      assert s + [a, b, c, d] == s + [a] + [b] + [c] + [d];
    }
  }

  lemma {:induction false} OneMore(s: seq<int>, x: int)
    requires Nondecreasing(s) && (|s| > 0 ==> s[|s| - 1] <= x)
    ensures Nondecreasing(s + [x])
  {
  }

  /** In order, the readings before the stop come first and those through the stop come next. */
  lemma {:induction false} InsertionPoints(s: seq<int>, stop: int)
    requires Nondecreasing(s)
    ensures CountBelow(s, stop) <= CountThrough(s, stop) <= |s|
    ensures forall i :: 0 <= i < |s| ==>
            (s[i] < stop <==> i < CountBelow(s, stop))
            && (s[i] <= stop <==> i < CountThrough(s, stop))
  {
    if |s| > 0 {
      InsertionPoints(s[..|s| - 1], stop);
    }
  }

  /** The stop could have been read at place k among these readings. */
  ghost predicate StopFits(s: seq<int>, k: int, stop: int) {
    0 <= k <= |s| && (forall i :: 0 <= i < k ==> s[i] <= stop) && (forall i :: k <= i < |s| ==> stop <= s[i])
  }

  lemma {:induction false} FitsBetween(s: seq<int>, k: int, stop: int)
    requires Nondecreasing(s)
    ensures StopFits(s, k, stop) <==> CountBelow(s, stop) <= k <= CountThrough(s, stop)
  {
    InsertionPoints(s, stop);
    var below, through := CountBelow(s, stop), CountThrough(s, stop);
    if StopFits(s, k, stop) {
      assert k < |s| ==> stop <= s[k];
      assert k > 0 ==> s[k - 1] <= stop;
    }
    if below <= k <= through {
      forall i | k <= i < |s| ensures stop <= s[i] {
        assert !(s[i] < stop);
      }
    }
  }

  /** The declared number of clock reads is accepted exactly when the stop fits, in clock order, after that
      many hook readings besides the opening and the stop themselves. */
  lemma {:induction false} ReadsCorrelateExactly(window: Window, intervals: seq<Interval>)
    requires InOrder(intervals)
    ensures ReadsCorrelate(window, intervals) <==> StopFits(Readings(intervals), window.clockReads - 2, window.stop)
  {
    ReadingsOrdered(intervals);
    FitsBetween(Readings(intervals), window.clockReads - 2, window.stop);
  }

  /** So the declared bound on clock reads can never be what refuses correlated reads of an admitted number of rows. */
  lemma {:induction false} ClockReadBoundImplied(totalCalls: int, window: Window, intervals: seq<Interval>)
    requires InOrder(intervals) && |intervals| <= MaximumRows(totalCalls) && ReadsCorrelate(window, intervals)
    ensures 2 <= window.clockReads <= 4 * MaximumRows(totalCalls) + 2
  {
    ReadingsOrdered(intervals);
    InsertionPoints(Readings(intervals), window.stop);
  }
}
