/** The writer checker as it runs: loops over the rows that keep the last original and the groups. */
module WriterReplay {
  import opened Wrappers
  import opened Percentiles
  import opened WriterTrace

  lemma {:induction false} DisorderStays(intervals: seq<Interval>, k: nat)
    requires k <= |intervals| && !InOrder(intervals[..k])
    ensures !InOrder(intervals)
  {
    if k < |intervals| {
      assert intervals[..|intervals| - 1][..k] == intervals[..k];
      DisorderStays(intervals[..|intervals| - 1], k);
    } else {
      assert intervals[..k] == intervals;
    }
  }

  /** The bracket loop: ordinals, the order of the four readings, and the commit before. */
  method CheckIntervals(intervals: seq<Interval>) returns (ordered: bool)
    ensures ordered == InOrder(intervals)
  {
    var previous: Option<int> := None;
    var index := 0;
    while index < |intervals|
      invariant 0 <= index <= |intervals| && InOrder(intervals[..index])
      invariant previous == if index == 0 then None else Some(intervals[index - 1].afterCommit)
    {
      var next := intervals[index];
      assert intervals[..index + 1][..index] == intervals[..index];
      if !(next.ordinal == index + 1 && next.beforeBegin <= next.afterBegin <= next.beforeCommit <= next.afterCommit
           && (previous.None? || previous.value <= next.beforeBegin)
           && next.bracketElapsed == next.afterCommit - next.beforeBegin
              && next.insideElapsed == next.beforeCommit - next.afterBegin) {
        DisorderStays(intervals, index + 1);
        return false;
      }
      previous := Some(next.afterCommit);
      index := index + 1;
    }
    assert intervals[..index] == intervals;
    return true;
  }

  function Bit(b: bool): int {
    if b then 1 else 0
  }

  lemma {:induction false} ReadingsStep(intervals: seq<Interval>, last: Interval, stop: int)
    ensures var all, before := Readings(intervals + [last]), Readings(intervals);
            && CountBelow(all, stop) == CountBelow(before, stop) + Bit(last.beforeBegin < stop)
               + Bit(last.afterBegin < stop)
                                        + Bit(last.beforeCommit < stop) + Bit(last.afterCommit < stop)
            && CountThrough(all, stop) == CountThrough(before, stop) + Bit(last.beforeBegin <= stop)
               + Bit(last.afterBegin <= stop)
                                          + Bit(last.beforeCommit <= stop) + Bit(last.afterCommit <= stop)
  {
    assert (intervals + [last])[..|intervals|] == intervals;
    var s, a, b, c, d := Readings(intervals), last.beforeBegin, last.afterBegin, last.beforeCommit, last.afterCommit;
    OneReading(s, a, stop);
    OneReading(s + [a], b, stop);
    OneReading(s + [a] + [b], c, stop);
    OneReading(s + [a] + [b] + [c], d, stop);
    assert s + [a, b, c, d] == s + [a] + [b] + [c] + [d];
  }

  lemma {:induction false} OneReading(s: seq<int>, x: int, stop: int)
    ensures CountBelow(s + [x], stop) == CountBelow(s, stop) + Bit(x < stop)
    ensures CountThrough(s + [x], stop) == CountThrough(s, stop) + Bit(x <= stop)
  {
    assert (s + [x])[..|s|] == s;
  }

  /** Readings before the stop and through it. */
  method CountReads(intervals: seq<Interval>, stop: int) returns (beforeStop: nat, throughStop: nat)
    ensures beforeStop == CountBelow(Readings(intervals), stop)
            && throughStop == CountThrough(Readings(intervals), stop)
  {
    beforeStop, throughStop := 0, 0;
    for index := 0 to |intervals|
      invariant beforeStop == CountBelow(Readings(intervals[..index]), stop)
      invariant throughStop == CountThrough(Readings(intervals[..index]), stop)
    {
      var raw := intervals[index];
      beforeStop := beforeStop + Bit(raw.beforeBegin < stop) + Bit(raw.afterBegin < stop)
        + Bit(raw.beforeCommit < stop) + Bit(raw.afterCommit < stop);
      throughStop := throughStop + Bit(raw.beforeBegin <= stop) + Bit(raw.afterBegin <= stop)
        + Bit(raw.beforeCommit <= stop) + Bit(raw.afterCommit <= stop);
      ReadingsStep(intervals[..index], raw, stop);
      assert intervals[..index + 1] == intervals[..index] + [raw];
    }
    assert intervals[..|intervals|] == intervals;
  }

  /** The variables of the attribution loop. */
  class Attributor {
    const lane: Lane
    const window: Window
    ghost var seen: seq<Row>
    var lastRank: int
    var closed: bool
    var warmup: int
    var measurement: int
    var groups: map<Key, Sample>
    var all: Sample

    ghost predicate Valid()
      reads this
    {
      && Progress(lastRank, closed, warmup, measurement) == ProgressOf(lane, seen)
      && (forall key: Key :: Group(groups, key) == SampleOf(window, seen, key))
      && all == Pooled(seen)
    }

    constructor (lane: Lane, window: Window)
      ensures Valid() && seen == [] && this.lane == lane && this.window == window
    {
      this.lane, this.window, seen := lane, window, [];
      lastRank, closed, warmup, measurement, groups, all := -1, false, 0, 0, map[], NO_SAMPLE;
    }

    /** The original that the row continues or opens; a control row closes the last one. */
    method Attribute(row: Row, index: nat) returns (r: Requirement<Code>)
      requires Valid() && index == |seen|
      modifies this`lastRank, this`closed, this`warmup, this`measurement
      ensures r.Refused? ==> r == AdmitAttribution(lane, window, seen, row)
      ensures r.Met? ==> (AdmitAttribution(lane, window, seen, row) == Correlation(row))
                         && Progress(lastRank, closed, warmup, measurement)
                            == ProgressAfter(lane, ProgressOf(lane, seen), row.item)
    {
      var raw, item := row.raw, row.item;
      if item.ordinal != index + 1 {
        return Refused(AttributionOrdinal);
      }
      if item.cohort == Control {
        if !(raw.command == ControlCommand && item.originalOrdinal.None? && item.digest.None?) {
          return Refused(ControlInventsOriginal);
        }
        if lastRank >= 0 {
          closed := true;
        }
        return Met;
      }
      var completed := if item.cohort == Warmup then lane.warmupReserved else lane.measuredReserved;
      if !(item.originalOrdinal.Some? && 0 <= item.originalOrdinal.value <= completed - 1) {
        return Refused(UnobservedOrdinal);
      }
      if !(item.digest == Some(Command(item.cohort, item.originalOrdinal.value))
        && raw.command == ApplicationOriginal) {
        return Refused(CommandBinding);
      }
      var rank := item.originalOrdinal.value + (if item.cohort == Measurement then lane.warmupCalls else 0);
      if !(lastRank <= rank <= lastRank + 1 && !(rank == lastRank && closed)) {
        return Refused(OrderOrReopen);
      }
      if rank != lastRank {
        if item.cohort == Warmup {
          warmup := warmup + 1;
        } else {
          measurement := measurement + 1;
        }
        lastRank, closed := rank, false;
      }
      return Met;
    }

    /** Does the attribution repeat its bracket faithfully? */
    function Correlation(row: Row): Requirement<Code> {
      var raw, item := row.raw, row.item;
      Require(item.windowClass == Classify(raw.beforeBegin, raw.afterCommit, window.start, window.stop)
        && item.changed == raw.changed
              && item.bracketElapsed == raw.bracketElapsed && item.insideElapsed == raw.insideElapsed, RowCorrelation)
    }

    /** One row: its original, its class, and its place in the groups. */
    method Accept(row: Row, index: nat) returns (r: Requirement<Code>)
      requires Valid() && index == |seen|
      modifies this
      ensures r == AdmitAttribution(lane, window, old(seen), row)
      ensures r.Met? ==> Valid() && seen == old(seen) + [row]
    {
      r := Attribute(row, index);
      if r.Refused? {
        return;
      }
      r := Correlation(row);
      if r.Refused? {
        return;
      }
      var key := Key(row.item.cohort, row.item.windowClass);
      groups := groups[key := Add(Group(groups, key), row.raw)];
      all := Add(all, row.raw);
      seen := seen + [row];
      assert seen[..|seen| - 1] == old(seen);
    }

    /** The 21 groups against the report. */
    method CheckGroups(declared: map<Key, GroupSummary>) returns (matches: bool)
      requires Valid()
      ensures matches == GroupsMatch(window, seen, declared)
    {
      var i := 0;
      while i < |KEYS|
        invariant 0 <= i <= |KEYS|
        invariant forall k :: 0 <= k < i ==>
                  KEYS[k] in declared
                  && declared[KEYS[k]] == Summary(SampleOf(window, seen, KEYS[k]))
      {
        var key := KEYS[i];
        if !(key in declared && declared[key] == Summary(Group(groups, key))) {
          return false;
        }
        i := i + 1;
      }
      return true;
    }

    /** The declared report against the figures of all rows. */
    method CheckReport(report: Report, count: nat) returns (matches: bool)
      requires Valid() && count == |seen|
      ensures matches == ReportMatches(lane, window, seen, report)
    {
      var grouped := CheckGroups(report.groups);
      return grouped && report.pages == (count + 63) / 64
        && report.matchedOriginals == lane.warmupReserved + lane.measuredReserved
        && report.elapsed == window.stop - window.start && report.bracket == SummarizeByCeiling(all.bracket)
        && report.inside == SummarizeByCeiling(all.inside);
    }
  }

  /** The checks before the rows are attributed. */
  ghost function Opening(totalCalls: int, window: Window, rows: seq<Row>): Requirement<Code> {
    if !(0 < |rows| <= MaximumRows(totalCalls)) then Refused(WriterBound)
    else if !InOrder(Intervals(rows)) then Refused(IntervalOrder)
    else if !(2 <= window.clockReads <= 4 * MaximumRows(totalCalls) + 2) then Refused(ClockReadBound)
    else if !(window.start < window.stop) then Refused(WindowUnknown)
    else Require(ReadsCorrelate(window, Intervals(rows)), ClockReadCorrelation)
  }

  method CheckOpening(totalCalls: int, window: Window, rows: seq<Row>) returns (r: Requirement<Code>)
    ensures r == Opening(totalCalls, window, rows)
  {
    if !(0 < |rows| <= MaximumRows(totalCalls)) {
      return Refused(WriterBound);
    }
    var intervals := Intervals(rows);
    var ordered := CheckIntervals(intervals);
    if !ordered {
      return Refused(IntervalOrder);
    }
    if !(2 <= window.clockReads <= 4 * MaximumRows(totalCalls) + 2) {
      return Refused(ClockReadBound);
    }
    if !(window.start < window.stop) {
      return Refused(WindowUnknown);
    }
    var beforeStop, throughStop := CountReads(intervals, window.stop);
    return Require(2 + beforeStop <= window.clockReads <= 2 + throughStop, ClockReadCorrelation);
  }

  function Group(groups: map<Key, Sample>, key: Key): Sample {
    if key in groups then groups[key] else NO_SAMPLE
  }

  lemma {:induction false} RefusalStays(lane: Lane, window: Window, rows: seq<Row>, k: nat)
    requires k <= |rows| && AdmitAll(lane, window, rows[..k]).Refused?
    ensures AdmitAll(lane, window, rows) == AdmitAll(lane, window, rows[..k])
  {
    if k < |rows| {
      assert rows[..|rows| - 1][..k] == rows[..k];
      RefusalStays(lane, window, rows[..|rows| - 1], k);
    } else {
      assert rows[..k] == rows;
    }
  }

  lemma {:induction false} NextRow(lane: Lane, window: Window, rows: seq<Row>, k: nat)
    requires k < |rows| && AdmitAll(lane, window, rows[..k]).Met?
    ensures rows[..k] + [rows[k]] == rows[..k + 1]
    ensures AdmitAll(lane, window, rows[..k + 1]) == AdmitAttribution(lane, window, rows[..k], rows[k])
  {
    assert rows[..k + 1][..k] == rows[..k];
  }

  /** The attribution loop, up to the first refusal. */
  method AttributeAll(lane: Lane, window: Window, rows: seq<Row>) returns (r: Requirement<Code>, pass: Attributor)
    ensures r == AdmitAll(lane, window, rows)
    ensures fresh(pass) && (r.Met? ==> pass.Valid() && pass.seen == rows && pass.lane == lane && pass.window == window)
  {
    pass := new Attributor(lane, window);
    var index := 0;
    while index < |rows|
      invariant 0 <= index <= |rows| && fresh(pass) && pass.Valid() && pass.lane == lane && pass.window == window
      invariant pass.seen == rows[..index] && AdmitAll(lane, window, pass.seen).Met?
    {
      NextRow(lane, window, rows, index);
      r := pass.Accept(rows[index], index);
      if r.Refused? {
        RefusalStays(lane, window, rows, index + 1);
        return;
      }
      index := index + 1;
    }
    assert rows[..index] == rows;
    r := Met;
  }

  /** The writer checker: its loops reach the verdict that the declarative groups and originals define. */
  method CheckWriters(lane: Lane, totalCalls: int, window: Window, rows: seq<Row>,
                      report: Report) returns (r: Result<int, Code>)
    ensures r == Verdict(lane, totalCalls, window, rows, report)
  {
    var opening := CheckOpening(totalCalls, window, rows);
    if opening.Refused? {
      return Failure(opening.code);
    }
    var admitted, pass := AttributeAll(lane, window, rows);
    if admitted.Refused? {
      return Failure(admitted.code);
    }
    if !(pass.warmup == lane.warmupReserved && pass.measurement == lane.measuredReserved) {
      return Failure(OriginalMissing);
    }
    var matches := pass.CheckReport(report, |rows|);
    if !matches {
      return Failure(SummaryMismatch);
    }
    return Success(|rows|);
  }
}
