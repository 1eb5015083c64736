/** The paced dispatcher: one FIFO over several lanes, a minimum gap between starts, and every
    request bound to a funded call of the parent trace. */
module PacedTrace {
  import opened Wrappers
  import opened Clock
  import opened Percentiles
  import opened Recorder
  import P = ParentTrace

  datatype Event =
    | Request(request: int, lane: int, ordinal: int)
    | WaitBegin(request: int, at: Nanos)
    | Dispatch(request: int, at: Nanos)
    | SourceTerminal(request: int, outcome: Outcome, at: Nanos)
    | Withdraw(request: int, recordedWait: bool, at: Nanos)
    | Finalize

  datatype Row = Row(sequence: int, event: Event)

  datatype Code =
    | Lanes | PlanBound | SampleBound | InFlightBound | GapBound | RecordingCapacity
    | ReportCounter | QueuePeak | TimerBound | ParentRefused(code: P.Code)
    | EventArray | EventAfterFinalize | EventSequence | ClockOrder
    | RequestOrder | LaneIndex | OriginalOrdinal | NonoverlapAndOriginal | CoreFinishMissing | QueueBound
    | RequestId | RequestMissing | WaitBracket | DispatchBracket | TerminalBracket | WithdrawBracket
    | SeriesTerminalOrder | FinalizeOrder
    | TerminalCounters | PlannedCalls | RecorderFieldsMismatch

  /** The declared workload. */
  datatype Plan = Plan(
    lanes: nat, warmupCallsPerLane: int, measurementCallsPerLane: int, setupBudgetMs: int,
    measurementWindowMs: int, drainGraceMs: int, maxLedgerTransactionsPerOperation: int,
    limits: Limits, minimumStartGapMs: int)
  {
    /** The minimum gap in nanoseconds. */
    function Gap(): int {
      minimumStartGapMs * 1_000_000
    }
  }

  function AdmitPlan(plan: Plan): Requirement<Code> {
    var samples, inFlight := plan.limits.maxSamplesPerPhase, plan.limits.maxInFlightPerPhase;
    if !(1 <= plan.lanes <= 16) then Refused(Lanes)
    else if !(0 <= plan.warmupCallsPerLane <= 256 && 1 <= plan.measurementCallsPerLane <= 256
              && 1 <= plan.setupBudgetMs <= 60000 && 1 <= plan.measurementWindowMs <= 60000
              && 1 <= plan.drainGraceMs <= 1000 && 1 <= plan.maxLedgerTransactionsPerOperation <= 16)
      then Refused(PlanBound)
    else if !(1 <= samples <= 4096) then Refused(SampleBound)
    else if !(1 <= inFlight <= 64) then Refused(InFlightBound)
    else if !(1 <= plan.minimumStartGapMs <= 1000) then Refused(GapBound)
    else Require(inFlight <= samples && plan.lanes <= inFlight && 3 * plan.lanes <= samples
                 && (1 + plan.warmupCallsPerLane + plan.measurementCallsPerLane) * plan.lanes
                    * plan.maxLedgerTransactionsPerOperation <= samples, RecordingCapacity)
  }

  // ---- the funded calls of the parent trace --------------------------------------------

  datatype CoreBegin = CoreBegin(observation: int, at: Nanos)
  datatype CoreFinish = CoreFinish(outcome: Outcome, at: Nanos)
  datatype Core = Core(begins: seq<CoreBegin>, finishes: map<int, CoreFinish>)

  predicate IsMeasuredCall(event: P.Event) {
    event.Begin? && event.phase == P.FundedCall && event.cohort == P.Measurement
  }

  /** Measured funded calls in order, and how the finished ones among them ended. */
  function CoreAfter(core: Core, event: P.Event): Core {
    if IsMeasuredCall(event) then core.(begins := core.begins + [CoreBegin(event.observation, event.at)])
    else if event.Finish? && Measured(core.begins, event.observation)
      then core.(finishes := core.finishes[event.observation := CoreFinish(event.outcome, event.at)])
    else core
  }

  predicate Measured(begins: seq<CoreBegin>, observation: int) {
    exists i :: 0 <= i < |begins| && begins[i].observation == observation
  }

  function CoreOf(rows: seq<P.Row>): Core {
    if |rows| == 0 then Core([], map[]) else CoreAfter(CoreOf(rows[..|rows| - 1]), rows[|rows| - 1].event)
  }

  // ---- what a prefix of the rows determines ------------------------------------------

  datatype Phase = Reserved | Waiting | Entered | Done | Withheld

  /** One request: its lane, the bracket of its core call, and how far it has come. */
  datatype Item = Item(state: Phase, lane: int, begin: int, finish: int, outcome: Outcome, waitAt: int, sourceAt: int)

  function ItemsAfter(core: Core, items: seq<Item>, event: Event): seq<Item> {
    match event
    case Request(r, lane, _) =>
      if 1 <= r <= |core.begins| && core.begins[r - 1].observation in core.finishes then
        var original := core.begins[r - 1];
        var finish := core.finishes[original.observation];
        items + [Item(Reserved, lane, original.at, finish.at, finish.outcome, 0, 0)]
      else items
    case WaitBegin(r, at) =>
      if 1 <= r <= |items| then items[r - 1 := items[r - 1].(state := Waiting, waitAt := at)] else items
    case Dispatch(r, at) =>
      if 1 <= r <= |items| then items[r - 1 := items[r - 1].(state := Entered, sourceAt := at)] else items
    case SourceTerminal(r, _, _) =>
      if 1 <= r <= |items| then items[r - 1 := items[r - 1].(state := Done)] else items
    case Withdraw(r, _, _) =>
      if 1 <= r <= |items| then items[r - 1 := items[r - 1].(state := Withheld)] else items
    case Finalize => items
  }

  function Items(core: Core, rows: seq<Row>): seq<Item> {
    if |rows| == 0 then [] else ItemsAfter(core, Items(core, rows[..|rows| - 1]), rows[|rows| - 1].event)
  }

  function FifoAfter(fifo: seq<int>, event: Event): seq<int> {
    match event
    case Request(r, _, _) => fifo + [r]
    case Dispatch(_, _) => if |fifo| > 0 then fifo[1..] else fifo
    case Withdraw(_, _, _) => if |fifo| > 0 then fifo[1..] else fifo
    case _ => fifo
  }

  /** The queue, oldest request first. */
  function Fifo(rows: seq<Row>): seq<int> {
    if |rows| == 0 then [] else FifoAfter(Fifo(rows[..|rows| - 1]), rows[|rows| - 1].event)
  }

  function OccupiedAfter(items: seq<Item>, occupied: map<int, int>, event: Event): map<int, int> {
    match event
    case Request(r, lane, _) => occupied[lane := r]
    case SourceTerminal(r, _, _) => if 1 <= r <= |items| then occupied - {items[r - 1].lane} else occupied
    case Withdraw(r, _, _) => if 1 <= r <= |items| then occupied - {items[r - 1].lane} else occupied
    case _ => occupied
  }

  /** Which request holds each busy lane. */
  function Occupied(core: Core, rows: seq<Row>): map<int, int> {
    if |rows| == 0 then map[] else
      var init := rows[..|rows| - 1];
      OccupiedAfter(Items(core, init), Occupied(core, init), rows[|rows| - 1].event)
  }

  /** The next ordinal of a lane. */
  function NextOrdinal(rows: seq<Row>, lane: int): int {
    if |rows| == 0 then 0 else
      var event := rows[|rows| - 1].event;
      if event.Request? && event.lane == lane then event.ordinal + 1 else NextOrdinal(rows[..|rows| - 1], lane)
  }

  /** The largest queue so far. */
  function PeakQueue(rows: seq<Row>): int {
    if |rows| == 0 then 0 else
      var before := PeakQueue(rows[..|rows| - 1]);
      if rows[|rows| - 1].event.Request? then Max(before, |Fifo(rows)|) else before
  }

  function Count(rows: seq<Row>, kind: Event -> bool): nat {
    if |rows| == 0 then 0 else
      Count(rows[..|rows| - 1], kind) + (if kind(rows[|rows| - 1].event) then 1 else 0)
  }

  function IsDispatch(): Event -> bool { (e: Event) => e.Dispatch? }

  function IsWithdraw(): Event -> bool { (e: Event) => e.Withdraw? }

  function IsFinalize(): Event -> bool { (e: Event) => e.Finalize? }

  predicate Timed(event: Event) {
    !event.Request? && !event.Finalize?
  }

  /** The latest clock reading. */
  function Previous(rows: seq<Row>): Option<int> {
    if |rows| == 0 then None
    else if Timed(rows[|rows| - 1].event) then Some(rows[|rows| - 1].event.at)
    else Previous(rows[..|rows| - 1])
  }

  /** The clock readings of the dispatches, in order. */
  function Starts(rows: seq<Row>): seq<int> {
    if |rows| == 0 then [] else
      var before := Starts(rows[..|rows| - 1]);
      if rows[|rows| - 1].event.Dispatch? then before + [rows[|rows| - 1].event.at] else before
  }

  // ---- the two series: queue wait and source call ---------------------------------------

  datatype Series = Wait | Source

  /** Does the row open an observation of the series? */
  predicate Opens(s: Series, event: Event) {
    (s == Wait && event.WaitBegin?) || (s == Source && event.Dispatch?)
  }

  /** Does the row close an observation of the series? */
  predicate Closes(s: Series, event: Event) {
    (s == Wait && (event.Dispatch? || (event.Withdraw? && event.recordedWait)))
      || (s == Source && event.SourceTerminal?)
  }

  function ClosingOutcome(event: Event): Outcome {
    if event.SourceTerminal? then event.outcome
    else if event.Withdraw? then Rejected
    else Succeeded
  }

  /** When the observation that the row closes was opened. */
  function OpenedAt(s: Series, items: seq<Item>, event: Event): int {
    if !event.Finalize? && 1 <= event.request <= |items| then
      (if s == Wait then items[event.request - 1].waitAt else items[event.request - 1].sourceAt)
    else 0
  }

  function SeriesGroup(s: Series, rows: seq<Row>): Group {
    if |rows| == 0 then NO_GROUP else
      var before, event := SeriesGroup(s, rows[..|rows| - 1]), rows[|rows| - 1].event;
      if Opens(s, event) then before.Enter()
      else if Closes(s, event) then before.Leave(ClosingOutcome(event))
      else before
  }

  function SeriesSamples(core: Core, s: Series, rows: seq<Row>): Samples {
    if |rows| == 0 then NO_SAMPLES else
      var init, event := rows[..|rows| - 1], rows[|rows| - 1].event;
      var before := SeriesSamples(core, s, init);
      if Closes(s, event) && Timed(event)
      then before.Add(event.at - OpenedAt(s, Items(core, init), event), ClosingOutcome(event)) else before
  }

  function SeriesSpan(s: Series, rows: seq<Row>): Span {
    if |rows| == 0 then NO_SPAN else
      var before, event := SeriesSpan(s, rows[..|rows| - 1]), rows[|rows| - 1].event;
      if (Opens(s, event) || Closes(s, event)) && Timed(event) then before.Tick(event.at) else before
  }

  datatype SeriesReport = SeriesReport(
    empty: bool, observedSpan: Option<int>, group: Group, nonSuccess: Option<(int, int)>,
    terminalLatency: Metric, successfulLatency: Metric)

  function ReportSeries(group: Group, samples: Samples, span: Span): SeriesReport {
    SeriesReport(group.entered == 0, span.Elapsed(), group,
                 if group.settled == 0 then None else Some((group.rejected, group.settled)),
                 Summarize(samples.all), Summarize(samples.success))
  }

  function ReportOf(core: Core, s: Series, rows: seq<Row>): SeriesReport {
    ReportSeries(SeriesGroup(s, rows), SeriesSamples(core, s, rows), SeriesSpan(s, rows))
  }

  // ---- which rows are admitted ---------------------------------------------------------

  function AdmitRequest(plan: Plan, core: Core, rows: seq<Row>, r: int, lane: int, ordinal: int): Requirement<Code> {
    var n := |Items(core, rows)|;
    if r != n + 1 then Refused(RequestOrder)
    else if !(0 <= lane <= plan.lanes - 1) then Refused(LaneIndex)
    else if !(0 <= ordinal <= plan.measurementCallsPerLane - 1) then Refused(OriginalOrdinal)
    else if !(n < plan.limits.maxSamplesPerPhase && lane !in Occupied(core, rows)
              && ordinal == NextOrdinal(rows, lane) && r <= |core.begins|) then Refused(NonoverlapAndOriginal)
    else if core.begins[r - 1].observation !in core.finishes then Refused(CoreFinishMissing)
    else Require(|Fifo(rows)| + 1 <= plan.lanes, QueueBound)
  }

  /** A request that the log has introduced. */
  function KnownRequest(items: seq<Item>, r: int): Requirement<Code> {
    if !(1 <= r <= 4096) then Refused(RequestId) else Require(r <= |items|, RequestMissing)
  }

  predicate AtHead(fifo: seq<int>, r: int) {
    |fifo| > 0 && fifo[0] == r
  }

  /** The terminal check of a series: an observation is open and began no later. */
  function AdmitTerminal(s: Series, rows: seq<Row>, openedAt: int, at: int): Requirement<Code> {
    Require(at >= openedAt && SeriesGroup(s, rows).active > 0, SeriesTerminalOrder)
  }

  function AdmitEvent(plan: Plan, core: Core, rows: seq<Row>, event: Event, last: bool): Requirement<Code> {
    var items := Items(core, rows);
    match event
    case Request(r, lane, ordinal) => AdmitRequest(plan, core, rows, r, lane, ordinal)
    case WaitBegin(r, at) =>
      if KnownRequest(items, r).Refused? then KnownRequest(items, r) else
        var item := items[r - 1];
        Require(item.state == Reserved && item.begin <= at <= item.finish, WaitBracket)
    case Dispatch(r, at) =>
      if KnownRequest(items, r).Refused? then KnownRequest(items, r) else
        var item, starts := items[r - 1], Starts(rows);
        if !(item.state == Waiting && AtHead(Fifo(rows), r) && item.begin <= at <= item.finish
             && (|starts| == 0 || at - starts[|starts| - 1] >= plan.Gap())) then Refused(DispatchBracket)
        else AdmitTerminal(Wait, rows, item.waitAt, at)
    case SourceTerminal(r, outcome, at) =>
      if KnownRequest(items, r).Refused? then KnownRequest(items, r) else
        var item := items[r - 1];
        if !(item.state == Entered && outcome == item.outcome && item.sourceAt <= at <= item.finish)
          then Refused(TerminalBracket)
        else AdmitTerminal(Source, rows, item.sourceAt, at)
    case Withdraw(r, recordedWait, at) =>
      if KnownRequest(items, r).Refused? then KnownRequest(items, r) else
        var item := items[r - 1];
        if !((item.state == Reserved || item.state == Waiting) && recordedWait == (item.state == Waiting)
             && AtHead(Fifo(rows), r) && item.begin <= at <= item.finish && item.outcome == Rejected)
                then Refused(WithdrawBracket)
        else if recordedWait then AdmitTerminal(Wait, rows, item.waitAt, at) else Met
    case Finalize => Require(last, FinalizeOrder)
  }

  /** May `row` follow `rows` in a log of `total` rows? */
  function Admit(plan: Plan, core: Core, rows: seq<Row>, row: Row, total: nat): Requirement<Code> {
    if Count(rows, IsFinalize()) > 0 then Refused(EventAfterFinalize)
    else if row.sequence != |rows| + 1 then Refused(EventSequence)
    else if Timed(row.event) && Previous(rows).Some? && Previous(rows).value > row.event.at then Refused(ClockOrder)
    else AdmitEvent(plan, core, rows, row.event, |rows| + 1 == total)
  }

  function AdmitAll(plan: Plan, core: Core, rows: seq<Row>, total: nat): Requirement<Code> {
    if |rows| == 0 then Met else
      var init := AdmitAll(plan, core, rows[..|rows| - 1], total);
      if init.Refused? then init else Admit(plan, core, rows[..|rows| - 1], rows[|rows| - 1], total)
  }

  // ---- the verdict ---------------------------------------------------------------------

  datatype Report = Report(
    requestedMeasuredCalls: int, sourceExecuteEntries: int, preEntryWithheld: int, peakQueuedCalls: int,
    pacingTimersStarted: int, plannedCallsCompleted: bool, queueWait: SeriesReport, dispatched: SeriesReport)

  datatype Check = Check(eventsChecked: int, requestsChecked: int, sourceEntriesChecked: int, withdrawalsChecked: int)

  function AdmitReport(plan: Plan, report: Report): Requirement<Code> {
    var samples := plan.limits.maxSamplesPerPhase;
    if !(0 <= report.requestedMeasuredCalls <= samples && 0 <= report.sourceExecuteEntries <= samples
         && 0 <= report.preEntryWithheld <= samples) then Refused(ReportCounter)
    else if !(0 <= report.peakQueuedCalls <= plan.lanes) then Refused(QueuePeak)
    else Require(0 <= report.pacingTimersStarted <= report.requestedMeasuredCalls, TimerBound)
  }

  /** Every lane has used all its ordinals. */
  predicate PlannedCallsDone(plan: Plan, rows: seq<Row>) {
    forall lane :: 0 <= lane < plan.lanes ==> NextOrdinal(rows, lane) == plan.measurementCallsPerLane
  }

  function AdmitEnd(core: Core, rows: seq<Row>, report: Report): Requirement<Code> {
    Require(
      && Count(rows, IsFinalize()) > 0 && Fifo(rows) == [] && Occupied(core, rows) == map[]
      && SeriesGroup(Wait, rows).active == 0 && SeriesGroup(Source, rows).active == 0
      && |core.begins| == |Items(core, rows)| == report.requestedMeasuredCalls
      && Count(rows, IsDispatch()) == report.sourceExecuteEntries
      && Count(rows, IsWithdraw()) == report.preEntryWithheld
      && PeakQueue(rows) == report.peakQueuedCalls, TerminalCounters)
  }

  /** The paced checker on the rows: what is left once the plan, the report's ranges and the parent are admitted. */
  function RowsVerdict(plan: Plan, core: Core, rows: seq<Row>, report: Report): Result<Check, Code> {
    var maximumEvents := 4 * plan.limits.maxSamplesPerPhase + 1;
    :- Require(1 <= |rows| <= maximumEvents, EventArray);
    :- AdmitAll(plan, core, rows, |rows|);
    :- AdmitEnd(core, rows, report);
    :- Require(report.plannedCallsCompleted == PlannedCallsDone(plan, rows), PlannedCalls);
    :- Require(report.queueWait == ReportOf(core, Wait, rows) && report.dispatched == ReportOf(core, Source, rows),
               RecorderFieldsMismatch);
    Success(Check(|rows|, |Items(core, rows)|, Count(rows, IsDispatch()), Count(rows, IsWithdraw())))
  }

  /** The verdict on a paced log, the report supplied with it and the parent trace it is bound to. */
  function Verdict(plan: Plan, parent: P.Trace, recording: P.Recording, rows: seq<Row>,
                   report: Report): Result<Check, Code> {
    var checked := P.Verdict(parent, recording, plan.limits);
    :- AdmitPlan(plan);
    :- AdmitReport(plan, report);
    if checked.Failure? then Failure(ParentRefused(checked.error)) else
      RowsVerdict(plan, CoreOf(parent.rows), rows, report)
  }
}
