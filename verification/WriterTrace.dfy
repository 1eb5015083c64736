/** The service child's writer rows: their clock brackets, the originals they are attributed to, and
    where each lies against the measurement window. */
module WriterTrace {
  import opened Wrappers
  import opened Clock
  import opened Percentiles

  datatype CommandClass = ControlCommand | ApplicationOriginal

  /** One writer bracket, read at four hooks. */
  datatype Interval = Interval(
    ordinal: int, command: CommandClass, changed: bool, beforeBegin: Nanos, afterBegin: Nanos,
    beforeCommit: Nanos, afterCommit: Nanos, bracketElapsed: int, insideElapsed: int)

  datatype Cohort = Control | Warmup | Measurement

  datatype WindowClass = Before | CrossesOpen | Inside | CrossesStop | CrossesBoth | After | Touches

  /** The command an original row is bound to, up to the digest of its text. */
  datatype Command = Command(cohort: Cohort, ordinal: int)

  datatype Attribution = Attribution(
    ordinal: int, cohort: Cohort, originalOrdinal: Option<int>, digest: Option<Command>,
    windowClass: WindowClass, changed: bool, bracketElapsed: int, insideElapsed: int)

  datatype Row = Row(raw: Interval, item: Attribution)

  /** What the lane reserved, and how many warmup calls its plan has. */
  datatype Lane = Lane(warmupCalls: int, warmupReserved: int, measuredReserved: int)

  datatype Window = Window(start: Nanos, stop: Nanos, clockReads: int)

  datatype Code =
    | WriterBound | IntervalOrder | WindowUnknown | ClockReadBound | ClockReadCorrelation
    | AttributionOrdinal | ControlInventsOriginal | UnobservedOrdinal | CommandBinding | OrderOrReopen
    | RowCorrelation | OriginalMissing | SummaryMismatch

  // ---- the brackets -----------------------------------------------------------------------------

  /** May the interval follow these? Its readings are in order and none precedes the last commit. */
  predicate Fits(before: seq<Interval>, next: Interval) {
    && next.ordinal == |before| + 1
    && next.beforeBegin <= next.afterBegin <= next.beforeCommit <= next.afterCommit
    && (|before| > 0 ==> before[|before| - 1].afterCommit <= next.beforeBegin)
    && next.bracketElapsed == next.afterCommit - next.beforeBegin
    && next.insideElapsed == next.beforeCommit - next.afterBegin
  }

  predicate InOrder(intervals: seq<Interval>) {
    |intervals| == 0 || (InOrder(intervals[..|intervals| - 1])
      && Fits(intervals[..|intervals| - 1], intervals[|intervals| - 1]))
  }

  function Intervals(rows: seq<Row>): seq<Interval> {
    if |rows| == 0 then [] else Intervals(rows[..|rows| - 1]) + [rows[|rows| - 1].raw]
  }

  // ---- the window ---------------------------------------------------------------------------------

  /** Where a bracket lies; contact with a boundary is a class of its own. */
  function Classify(before: int, after: int, start: int, stop: int): WindowClass {
    if before == start || before == stop || after == start || after == stop then Touches
    else if after < start then Before
    else if before > stop then After
    else if before < start && after > stop then CrossesBoth
    else if before < start then CrossesOpen
    else if after > stop then CrossesStop
    else Inside
  }

  /** All hook readings, in row order. */
  function Readings(intervals: seq<Interval>): seq<int> {
    if |intervals| == 0 then [] else
      var last := intervals[|intervals| - 1];
      Readings(intervals[..|intervals| - 1]) + [last.beforeBegin, last.afterBegin, last.beforeCommit, last.afterCommit]
  }

  function CountBelow(readings: seq<int>, stop: int): nat {
    if |readings| == 0 then 0 else
      CountBelow(readings[..|readings| - 1], stop)
      + (if readings[|readings| - 1] < stop then 1 else 0)
  }

  function CountThrough(readings: seq<int>, stop: int): nat {
    if |readings| == 0 then 0 else
      CountThrough(readings[..|readings| - 1], stop)
      + (if readings[|readings| - 1] <= stop then 1 else 0)
  }

  // ---- originals ------------------------------------------------------------------------------------

  /** The latest original, whether a control row has closed it, and the originals seen by cohort. */
  datatype Progress = Progress(lastRank: int, closed: bool, warmup: int, measurement: int)

  const NO_PROGRESS := Progress(-1, false, 0, 0)

  /** The place of an original in the lane's sequence of calls. */
  function Rank(lane: Lane, item: Attribution): int {
    if item.cohort == Control || item.originalOrdinal.None? then -1
    else item.originalOrdinal.value + (if item.cohort == Measurement then lane.warmupCalls else 0)
  }

  function ProgressAfter(lane: Lane, p: Progress, item: Attribution): Progress {
    if item.cohort == Control then (if p.lastRank >= 0 then p.(closed := true) else p)
    else
      var rank := Rank(lane, item);
      if rank == p.lastRank then p
      else Progress(rank, false, if item.cohort == Warmup then p.warmup + 1 else p.warmup,
                    if item.cohort == Measurement then p.measurement + 1 else p.measurement)
  }

  function ProgressOf(lane: Lane, rows: seq<Row>): Progress {
    if |rows| == 0 then NO_PROGRESS else ProgressAfter(lane, ProgressOf(lane, rows[..|rows| - 1]),
      rows[|rows| - 1].item)
  }

  function Reserved(lane: Lane, cohort: Cohort): int {
    if cohort == Warmup then lane.warmupReserved else lane.measuredReserved
  }

  function AdmitAttribution(lane: Lane, window: Window, rows: seq<Row>, row: Row): Requirement<Code> {
    var raw, item, p := row.raw, row.item, ProgressOf(lane, rows);
    var kind := Classify(raw.beforeBegin, raw.afterCommit, window.start, window.stop);
    var bound :=
      if item.ordinal != |rows| + 1 then Refused(AttributionOrdinal)
      else if item.cohort == Control then
        Require(raw.command == ControlCommand && item.originalOrdinal.None?
          && item.digest.None?, ControlInventsOriginal)
      else if !(item.originalOrdinal.Some? && 0 <= item.originalOrdinal.value <= Reserved(lane, item.cohort) - 1)
        then Refused(UnobservedOrdinal)
      else if !(item.digest == Some(Command(item.cohort, item.originalOrdinal.value))
        && raw.command == ApplicationOriginal) then Refused(CommandBinding)
      else Require(Follows(p, Rank(lane, item)), OrderOrReopen);
    if bound.Refused? then bound
    else Require(item.windowClass == kind && item.changed == raw.changed && item.bracketElapsed == raw.bracketElapsed
                 && item.insideElapsed == raw.insideElapsed, RowCorrelation)
  }

  /** The next original, or more of the current one while it is open. */
  predicate Follows(p: Progress, rank: int) {
    p.lastRank <= rank <= p.lastRank + 1 && !(rank == p.lastRank && p.closed)
  }

  function AdmitAll(lane: Lane, window: Window, rows: seq<Row>): Requirement<Code> {
    if |rows| == 0 then Met else
      var init := AdmitAll(lane, window, rows[..|rows| - 1]);
      if init.Refused? then init else AdmitAttribution(lane, window, rows[..|rows| - 1], rows[|rows| - 1])
  }

  // ---- the samples by cohort and class -----------------------------------------------------------------

  datatype Key = Key(cohort: Cohort, kind: WindowClass)

  function KeyOf(window: Window, row: Row): Key {
    Key(row.item.cohort, Classify(row.raw.beforeBegin, row.raw.afterCommit, window.start, window.stop))
  }

  datatype Sample = Sample(bracket: seq<int>, inside: seq<int>, changed: int)

  const NO_SAMPLE := Sample([], [], 0)

  function Add(s: Sample, raw: Interval): Sample {
    Sample(s.bracket + [raw.bracketElapsed], s.inside + [raw.insideElapsed], if raw.changed then s.changed + 1
      else s.changed)
  }

  function SampleOf(window: Window, rows: seq<Row>, key: Key): Sample {
    if |rows| == 0 then NO_SAMPLE else
      var before, last := SampleOf(window, rows[..|rows| - 1], key), rows[|rows| - 1];
      if KeyOf(window, last) == key then Add(before, last.raw) else before
  }

  /** All samples, whatever their group. */
  function Pooled(rows: seq<Row>): Sample {
    if |rows| == 0 then NO_SAMPLE else Add(Pooled(rows[..|rows| - 1]), rows[|rows| - 1].raw)
  }

  datatype GroupSummary = GroupSummary(writerIntervals: int, changedIntervals: int, bracket: Metric, inside: Metric)

  function Summary(s: Sample): GroupSummary {
    GroupSummary(|s.bracket|, s.changed, SummarizeByCeiling(s.bracket), SummarizeByCeiling(s.inside))
  }

  /** The 21 groups. */
  const KEYS: seq<Key> := KeysOf(Control) + KeysOf(Warmup) + KeysOf(Measurement)

  function KeysOf(cohort: Cohort): seq<Key> {
    [Key(cohort, Before), Key(cohort, CrossesOpen), Key(cohort, Inside), Key(cohort, CrossesStop),
      Key(cohort, CrossesBoth),
     Key(cohort, After), Key(cohort, Touches)]
  }

  /** The reported summaries: one per cohort and class, and one of all rows. */
  datatype Report = Report(pages: int, matchedOriginals: int, elapsed: int, groups: map<Key, GroupSummary>,
    bracket: Metric, inside: Metric)

  predicate GroupsMatch(window: Window, rows: seq<Row>, groups: map<Key, GroupSummary>) {
    forall i :: 0 <= i < |KEYS| ==> KEYS[i] in groups && groups[KEYS[i]] == Summary(SampleOf(window, rows, KEYS[i]))
  }

  predicate ReportMatches(lane: Lane, window: Window, rows: seq<Row>, report: Report) {
    && report.pages == (|rows| + 63) / 64 && report.matchedOriginals == lane.warmupReserved + lane.measuredReserved
    && report.elapsed == window.stop - window.start && GroupsMatch(window, rows, report.groups)
    && report.bracket == SummarizeByCeiling(Pooled(rows).bracket)
       && report.inside == SummarizeByCeiling(Pooled(rows).inside)
  }

  /** Writer rows that a lane of so many calls may report. */
  function MaximumRows(totalCalls: int): int {
    12 * totalCalls + 64
  }

  /** The service clock was read at the hooks, at the opening and at the stop; the hooks that the window
      saw before its stop are those earlier than it, and perhaps some of the equal ones. */
  predicate ReadsCorrelate(window: Window, intervals: seq<Interval>) {
    2 + CountBelow(Readings(intervals), window.stop) <= window.clockReads
      <= 2 + CountThrough(Readings(intervals), window.stop)
  }

  /** The verdict on the writer rows of one lane. */
  function Verdict(lane: Lane, totalCalls: int, window: Window, rows: seq<Row>, report: Report): Result<int, Code> {
    var intervals := Intervals(rows);
    :- Require(0 < |rows| <= MaximumRows(totalCalls), WriterBound);
    :- Require(InOrder(intervals), IntervalOrder);
    :- Require(2 <= window.clockReads <= 4 * MaximumRows(totalCalls) + 2, ClockReadBound);
    :- Require(window.start < window.stop, WindowUnknown);
    :- Require(ReadsCorrelate(window, intervals), ClockReadCorrelation);
    :- AdmitAll(lane, window, rows);
    :- Require(ProgressOf(lane, rows).warmup == lane.warmupReserved
      && ProgressOf(lane, rows).measurement == lane.measuredReserved, OriginalMissing);
    :- Require(ReportMatches(lane, window, rows, report), SummaryMismatch);
    Success(|rows|)
  }
}
