/** Writer rows are accepted exactly when their brackets, their window classes and their originals are as they should
    be, and the report holds the figures of their positions. */
module WriterExact {
  import opened Wrappers
  import opened Percentiles
  import opened Positions
  import opened WriterTrace
  import L = WriterLaws
  import W = WindowLaws

  // ---- brackets by position ----------------------------------------------------------------------

  /** The whole bracket, from before BEGIN to after COMMIT. */
  ghost function OuterAt(rows: seq<Row>, k: nat): int {
    if k < |rows| then rows[k].raw.afterCommit - rows[k].raw.beforeBegin else 0
  }

  /** Inside the transaction, from after BEGIN to before COMMIT. */
  ghost function InnerAt(rows: seq<Row>, k: nat): int {
    if k < |rows| then rows[k].raw.beforeCommit - rows[k].raw.afterBegin else 0
  }

  ghost function Outer(rows: seq<Row>): nat -> int {
    (k: nat) => OuterAt(rows, k)
  }

  ghost function Inner(rows: seq<Row>): nat -> int {
    (k: nat) => InnerAt(rows, k)
  }

  /** The bracket at position k comes after those before it, in order, and it declares its own spans. */
  ghost predicate BracketSound(rows: seq<Row>, k: nat)
    requires k < |rows|
  {
    var raw := rows[k].raw;
    && raw.ordinal == k + 1 && raw.beforeBegin <= raw.afterBegin <= raw.beforeCommit <= raw.afterCommit
    && raw.bracketElapsed == OuterAt(rows, k) && raw.insideElapsed == InnerAt(rows, k)
    && forall j: nat :: j < k ==> rows[j].raw.afterCommit <= raw.beforeBegin
  }

  ghost predicate BracketsSound(rows: seq<Row>, n: nat) {
    n <= |rows| && forall k: nat :: k < n ==> BracketSound(rows, k)
  }

  lemma {:induction false} IntervalsAre(rows: seq<Row>)
    ensures |Intervals(rows)| == |rows| && forall k: nat :: k < |rows| ==> Intervals(rows)[k] == rows[k].raw
  {
    if |rows| > 0 {
      var init := rows[..|rows| - 1];
      IntervalsAre(init);
      assert forall k: nat :: k < |init| ==> init[k] == rows[k];
    }
  }

  lemma {:induction false} FitsIs(rows: seq<Row>, k: nat)
    requires k < |rows| && BracketsSound(rows, k)
    ensures Fits(Intervals(rows[..k]), rows[k].raw) <==> BracketSound(rows, k)
  {
    IntervalsAre(rows[..k]);
    if k > 0 {
      assert BracketSound(rows, k - 1);
      forall j: nat | j < k ensures rows[j].raw.afterCommit <= rows[k - 1].raw.afterCommit {
        assert BracketSound(rows, j);
      }
    }
  }

  lemma {:induction false} OrderIs(rows: seq<Row>, n: nat)
    requires n <= |rows|
    ensures InOrder(Intervals(rows[..n])) <==> BracketsSound(rows, n)
  {
    if n > 0 {
      var k: nat := n - 1;
      assert k + 1 == n && rows[..n][..k] == rows[..k] && rows[..n][k] == rows[k];
      OrderIs(rows, k);
      var intervals := Intervals(rows[..n]);
      assert intervals[..|intervals| - 1] == Intervals(rows[..k]) && intervals[|intervals| - 1] == rows[k].raw;
      if BracketsSound(rows, k) {
        FitsIs(rows, k);
      }
    }
  }

  // ---- groups by position ------------------------------------------------------------------------

  /** The row is of the cohort, and its bracket lies so against the window. */
  ghost predicate InGroupAt(window: Window, rows: seq<Row>, k: nat, key: Key) {
    && k < |rows| && rows[k].item.cohort == key.cohort
    && Classify(rows[k].raw.beforeBegin, rows[k].raw.afterCommit, window.start, window.stop) == key.kind
  }

  ghost function InGroup(window: Window, rows: seq<Row>, key: Key): nat -> bool {
    (k: nat) => InGroupAt(window, rows, k, key)
  }

  ghost function ChangedIn(window: Window, rows: seq<Row>, key: Key): nat -> bool {
    (k: nat) => InGroupAt(window, rows, k, key) && rows[k].raw.changed
  }

  ghost function AnyRow(): nat -> bool {
    (k: nat) => true
  }

  ghost function GroupAt(window: Window, rows: seq<Row>, key: Key): GroupSummary {
    var n, group := |rows|, InGroup(window, rows, key);
    GroupSummary(Number(n, group), Number(n, ChangedIn(window, rows, key)),
                 Summarize(Values(n, group, Outer(rows))), Summarize(Values(n, group, Inner(rows))))
  }

  /** The pages hold the rows by sixty-four, the groups and the totals are those of the positions, and the first of the
      two totals is that of the whole brackets. */
  ghost predicate Reported(lane: Lane, window: Window, rows: seq<Row>, report: Report) {
    && 64 * (report.pages - 1) < |rows| <= 64 * report.pages
    && report.matchedOriginals == lane.warmupReserved + lane.measuredReserved
    && report.elapsed == window.stop - window.start
    && (forall key: Key :: key in report.groups && report.groups[key] == GroupAt(window, rows, key))
    && report.bracket == Summarize(Values(|rows|, AnyRow(), Outer(rows)))
    && report.inside == Summarize(Values(|rows|, AnyRow(), Inner(rows)))
  }

  lemma {:induction false} SampleIs(window: Window, rows: seq<Row>, n: nat, key: Key)
    requires BracketsSound(rows, n)
    ensures var s, group := SampleOf(window, rows[..n], key), InGroup(window, rows, key);
            && s.bracket == Values(n, group, Outer(rows)) && s.inside == Values(n, group, Inner(rows))
            && s.changed == Number(n, ChangedIn(window, rows, key))
  {
    if n == 0 {
      NumberNone(ChangedIn(window, rows, key));
    } else {
      var k: nat := n - 1;
      assert k + 1 == n && rows[..n][..k] == rows[..k] && rows[..n][k] == rows[k];
      SampleIs(window, rows, k, key);
      NumberNext(k, ChangedIn(window, rows, key));
      assert BracketSound(rows, k);
    }
  }

  lemma {:induction false} PoolIs(rows: seq<Row>, n: nat)
    requires BracketsSound(rows, n)
    ensures Pooled(rows[..n]).bracket == Values(n, AnyRow(), Outer(rows))
    ensures Pooled(rows[..n]).inside == Values(n, AnyRow(), Inner(rows))
  {
    if n > 0 {
      var k: nat := n - 1;
      assert k + 1 == n && rows[..n][..k] == rows[..k] && rows[..n][k] == rows[k];
      PoolIs(rows, k);
      assert BracketSound(rows, k);
    }
  }

  lemma {:induction false} GroupIs(window: Window, rows: seq<Row>, key: Key)
    requires BracketsSound(rows, |rows|)
    ensures Summary(SampleOf(window, rows, key)) == GroupAt(window, rows, key)
  {
    var s, n, group := SampleOf(window, rows, key), |rows|, InGroup(window, rows, key);
    assert rows[..n] == rows;
    SampleIs(window, rows, n, key);
    ValuesMeaning(n, group, Outer(rows));
    RankSpellingsAgree(s.bracket);
    RankSpellingsAgree(s.inside);
  }

  lemma {:induction false} GroupsAre(window: Window, rows: seq<Row>, groups: map<Key, GroupSummary>)
    requires BracketsSound(rows, |rows|)
    ensures GroupsMatch(window, rows, groups) <==>
              forall key: Key :: key in groups && groups[key] == GroupAt(window, rows, key)
  {
    forall key: Key ensures Summary(SampleOf(window, rows, key)) == GroupAt(window, rows, key) {
      GroupIs(window, rows, key);
    }
    if GroupsMatch(window, rows, groups) {
      forall key: Key ensures key in groups && groups[key] == GroupAt(window, rows, key) {
        W.InKeys(key);
        var i :| 0 <= i < |KEYS| && KEYS[i] == key;
      }
    }
  }

  lemma {:induction false} PagesAre(rows: nat, pages: int)
    ensures pages == (rows + 63) / 64 <==> 64 * (pages - 1) < rows <= 64 * pages
  {
  }

  lemma {:induction false} ReportIs(lane: Lane, window: Window, rows: seq<Row>, report: Report)
    requires BracketsSound(rows, |rows|)
    ensures ReportMatches(lane, window, rows, report) <==> Reported(lane, window, rows, report)
  {
    assert rows[..|rows|] == rows;
    GroupsAre(window, rows, report.groups);
    PagesAre(|rows|, report.pages);
    PoolIs(rows, |rows|);
    RankSpellingsAgree(Pooled(rows).bracket);
    RankSpellingsAgree(Pooled(rows).inside);
  }

  // ---- the verdict -----------------------------------------------------------------------------------

  lemma {:induction false} VerdictSplits(lane: Lane, totalCalls: int, window: Window, rows: seq<Row>, report: Report,
                                         n: int)
    ensures Verdict(lane, totalCalls, window, rows, report) == Success(n) <==>
              && 0 < |rows| <= MaximumRows(totalCalls) && InOrder(Intervals(rows))
              && 2 <= window.clockReads <= 4 * MaximumRows(totalCalls) + 2 && window.start < window.stop
              && ReadsCorrelate(window, Intervals(rows)) && AdmitAll(lane, window, rows).Met?
              && L.Complete(lane, rows) && ReportMatches(lane, window, rows, report) && n == |rows|
  {
  }

  /** The writer rows of a lane are accepted exactly when there are some and not too many, their brackets are sound, the
      stop fits the clock reads, every row is attributed soundly and the originals spell the lane's calls, and the
      report is the one that the positions determine. */
  lemma {:induction false} AcceptedExactly(lane: Lane, totalCalls: int, window: Window, rows: seq<Row>, report: Report,
                                           n: int)
    requires L.Counts(lane)
    ensures Verdict(lane, totalCalls, window, rows, report) == Success(n) <==>
              && 0 < |rows| <= MaximumRows(totalCalls) && BracketsSound(rows, |rows|) && window.start < window.stop
              && W.StopFits(Readings(Intervals(rows)), window.clockReads - 2, window.stop)
              && L.AllSound(lane, window, rows)
              && L.InLanguage(L.Marks(lane, rows), lane.warmupReserved + lane.measuredReserved)
              && Reported(lane, window, rows, report) && n == |rows|
  {
    VerdictSplits(lane, totalCalls, window, rows, report, n);
    assert rows[..|rows|] == rows;
    OrderIs(rows, |rows|);
    IntervalsAre(rows);
    L.AttributionExactly(lane, window, rows);
    if BracketsSound(rows, |rows|) {
      ReportIs(lane, window, rows, report);
      W.ReadsCorrelateExactly(window, Intervals(rows));
      if |rows| <= MaximumRows(totalCalls) && ReadsCorrelate(window, Intervals(rows)) {
        W.ClockReadBoundImplied(totalCalls, window, Intervals(rows));
      }
    }
  }
}
