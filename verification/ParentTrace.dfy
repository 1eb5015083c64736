/** The staged parent recorder: which event rows follow which, and the recording the rows
    determine. Every counter is a function of the rows replayed so far. */
module ParentTrace {
  import opened Wrappers
  import opened Clock
  import opened Percentiles
  import opened Recorder

  datatype Phase = Funding | FundedCall | LedgerTransaction
  datatype Cohort = Warmup | Measurement
  datatype Stage = Created | Warming | Measuring | Draining

  datatype Event =
    | StartWarmup(at: Nanos)
    | StartMeasurement(at: Nanos)
    | StopMeasurement(at: Nanos)
    | Begin(observation: int, phase: Phase, cohort: Cohort, at: Nanos)
    | Finish(observation: int, outcome: Outcome, at: Nanos)
    | BalanceCheck(matches: bool, at: Nanos)
    | Finalize(at: Nanos)

  datatype Row = Row(sequence: int, event: Event)

  datatype Code =
    | SampleBound | InFlightBound | PlanLimitBinding | EventBound | EventArray
    | EventSequence | EventAfterFinalize | ClockOrder | WarmupOrder | StartOrder | StopOrder
    | BeginCohort | BeginOrdinal | PhaseCapacity | FinishOrdinal | FinishUnknownOrDuplicate
    | BalanceUnknown | FinalizationPendingOrOrder | CompleteWindow | AllRecorderFieldsMismatch

  // ---- the counters the replay keeps -------------------------------------------------

  /** Terminals seen on one side of a window boundary. */
  datatype Tally = Tally(settled: int, succeeded: int, rejected: int) {
    function Add(outcome: Outcome): Tally {
      match outcome
      case Succeeded => Tally(settled + 1, succeeded + 1, rejected)
      case Rejected => Tally(settled + 1, succeeded, rejected + 1)
    }
  }

  /** Counters of one phase, both cohorts together. */
  datatype Flow = Flow(entered: int, active: int, peak: int, windowPeak: int) {
    function Enter(stage: Stage): Flow {
      Flow(entered + 1, active + 1, Max(peak, active + 1),
           if stage == Measuring then Max(windowPeak, active + 1) else windowPeak)
    }

    function Leave(): Flow {
      this.(active := active - 1)
    }

    function OpenWindow(): Flow {
      this.(windowPeak := active)
    }
  }

  /** Clock span and balance checks of one cohort. */
  datatype Meta = Meta(span: Span, balances: int)

  const NO_TALLY := Tally(0, 0, 0)
  const NO_FLOW := Flow(0, 0, 0, 0)
  const NO_META := Meta(NO_SPAN, 0)

  /** An observation that has begun and not finished. */
  datatype Begun = Begun(at: Nanos, phase: Phase, cohort: Cohort)

  /** The cohort an observation begun in this stage belongs to. */
  function CohortOf(stage: Stage): Cohort {
    if stage == Warming then Warmup else Measurement
  }

  // ---- what a prefix of the rows determines ------------------------------------------

  function StageAfter(stage: Stage, event: Event): Stage {
    match event
    case StartWarmup(_) => Warming
    case StartMeasurement(_) => Measuring
    case StopMeasurement(_) => Draining
    case _ => stage
  }

  function StageOf(rows: seq<Row>): Stage {
    if |rows| == 0 then Created else StageAfter(StageOf(rows[..|rows| - 1]), rows[|rows| - 1].event)
  }

  function OpenAfter(open: map<int, Begun>, event: Event): map<int, Begun> {
    match event
    case Begin(o, p, c, at) => open[o := Begun(at, p, c)]
    case Finish(o, _, _) => open - {o}
    case _ => open
  }

  /** The observations begun and not finished by these rows. */
  function Open(rows: seq<Row>): map<int, Begun> {
    if |rows| == 0 then map[] else OpenAfter(Open(rows[..|rows| - 1]), rows[|rows| - 1].event)
  }

  /** How many rows of the given kind there are. */
  function Count(rows: seq<Row>, kind: Event -> bool): nat {
    if |rows| == 0 then 0 else
      Count(rows[..|rows| - 1], kind) + (if kind(rows[|rows| - 1].event) then 1 else 0)
  }

  function IsBegin(): Event -> bool { (e: Event) => e.Begin? }

  function IsFinish(): Event -> bool { (e: Event) => e.Finish? }

  function IsBalance(): Event -> bool { (e: Event) => e.BalanceCheck? }

  /** The clock reading of the latest row of the given kind. */
  function Latest(rows: seq<Row>, kind: Event -> bool): Option<int> {
    if |rows| == 0 then None
    else if kind(rows[|rows| - 1].event) then Some(rows[|rows| - 1].event.at)
    else Latest(rows[..|rows| - 1], kind)
  }

  function IsWarmupStart(): Event -> bool { (e: Event) => e.StartWarmup? }

  function IsStart(): Event -> bool { (e: Event) => e.StartMeasurement? }

  function IsStop(): Event -> bool { (e: Event) => e.StopMeasurement? }

  function IsFinalize(): Event -> bool { (e: Event) => e.Finalize? }

  /** Does this row settle an open observation of the phase? */
  predicate Settles(open: map<int, Begun>, event: Event, p: Phase) {
    event.Finish? && event.observation in open && open[event.observation].phase == p
  }

  predicate SettlesIn(open: map<int, Begun>, event: Event, c: Cohort, p: Phase) {
    Settles(open, event, p) && open[event.observation].cohort == c
  }

  function FlowAfter(flow: Flow, stage: Stage, open: map<int, Begun>, event: Event, p: Phase): Flow {
    if event.StartMeasurement? then flow.OpenWindow()
    else if event.Begin? && event.phase == p then flow.Enter(stage)
    else if Settles(open, event, p) then flow.Leave()
    else flow
  }

  function FlowOf(rows: seq<Row>, p: Phase): Flow {
    if |rows| == 0 then NO_FLOW else
      var init := rows[..|rows| - 1];
      FlowAfter(FlowOf(init, p), StageOf(init), Open(init), rows[|rows| - 1].event, p)
  }

  function GroupAfter(group: Group, open: map<int, Begun>, event: Event, c: Cohort, p: Phase): Group {
    if event.Begin? && event.phase == p && event.cohort == c then group.Enter()
    else if SettlesIn(open, event, c, p) then group.Leave(event.outcome)
    else group
  }

  function GroupOf(rows: seq<Row>, c: Cohort, p: Phase): Group {
    if |rows| == 0 then NO_GROUP else
      var init := rows[..|rows| - 1];
      GroupAfter(GroupOf(init, c, p), Open(init), rows[|rows| - 1].event, c, p)
  }

  /** Live observations of one cohort at the latest boundary of the given kind. */
  function LiveAt(rows: seq<Row>, c: Cohort, p: Phase, kind: Event -> bool): int {
    if |rows| == 0 then 0
    else if kind(rows[|rows| - 1].event) then GroupOf(rows[..|rows| - 1], c, p).active
    else LiveAt(rows[..|rows| - 1], c, p, kind)
  }

  /** Terminals of one cohort recorded while in the given stage. */
  function TallyOf(rows: seq<Row>, c: Cohort, p: Phase, stage: Stage): Tally {
    if |rows| == 0 then NO_TALLY else
      var init, event := rows[..|rows| - 1], rows[|rows| - 1].event;
      var tally := TallyOf(init, c, p, stage);
      if SettlesIn(Open(init), event, c, p) && StageOf(init) == stage then tally.Add(event.outcome) else tally
  }

  function SamplesOf(rows: seq<Row>, c: Cohort, p: Phase): Samples {
    if |rows| == 0 then NO_SAMPLES else
      var init, event := rows[..|rows| - 1], rows[|rows| - 1].event;
      var samples := SamplesOf(init, c, p);
      if SettlesIn(Open(init), event, c, p)
      then samples.Add(event.at - Open(init)[event.observation].at, event.outcome) else samples
  }

  function MetaAfter(meta: Meta, stage: Stage, open: map<int, Begun>, event: Event, c: Cohort): Meta {
    match event
    case Begin(_, _, d, at) => if c == d then meta.(span := meta.span.Tick(at)) else meta
    case Finish(o, _, at) => if o in open && open[o].cohort == c then meta.(span := meta.span.Tick(at)) else meta
    case BalanceCheck(_, _) => if c == CohortOf(stage) then meta.(balances := meta.balances + 1) else meta
    case _ => meta
  }

  function MetaOf(rows: seq<Row>, c: Cohort): Meta {
    if |rows| == 0 then NO_META else
      var init := rows[..|rows| - 1];
      MetaAfter(MetaOf(init, c), StageOf(init), Open(init), rows[|rows| - 1].event, c)
  }

  /** Balance checks recorded while in the given stage. */
  function ChecksIn(rows: seq<Row>, s: Stage): nat {
    if |rows| == 0 then 0 else
      var init := rows[..|rows| - 1];
      ChecksIn(init, s) + (if rows[|rows| - 1].event.BalanceCheck? && StageOf(init) == s then 1 else 0)
  }

  // ---- which rows are admitted ---------------------------------------------------------

  function AdmitEvent(limits: Limits, rows: seq<Row>, event: Event, last: bool): Requirement<Code> {
    var stage := StageOf(rows);
    match event
    case StartWarmup(_) => Require(stage == Created, WarmupOrder)
    case StartMeasurement(_) => Require(stage == Created || stage == Warming, StartOrder)
    case StopMeasurement(at) =>
      Require(stage == Measuring && Latest(rows, IsStart()).Some? && at > Latest(rows, IsStart()).value, StopOrder)
    case Begin(o, p, c, _) =>
      if !((stage == Warming || stage == Measuring) && c == CohortOf(stage)) then Refused(BeginCohort)
      else if o != Count(rows, IsBegin()) + 1 then Refused(BeginOrdinal)
      else Require(FlowOf(rows, p).entered < limits.maxSamplesPerPhase
                   && FlowOf(rows, p).active < limits.maxInFlightPerPhase, PhaseCapacity)
    case Finish(o, _, _) =>
      if !(1 <= o <= 3 * limits.maxSamplesPerPhase) then Refused(FinishOrdinal)
      else Require(o in Open(rows), FinishUnknownOrDuplicate)
    case BalanceCheck(matches, _) =>
      Require(stage != Created && matches && Count(rows, IsBalance()) < limits.maxSamplesPerPhase, BalanceUnknown)
    case Finalize(_) => Require(stage == Draining && Open(rows) == map[] && last, FinalizationPendingOrOrder)
  }

  /** May `row` follow `rows` in a log of `total` rows? */
  function Admit(limits: Limits, rows: seq<Row>, row: Row, total: nat): Requirement<Code> {
    if row.sequence != |rows| + 1 then Refused(EventSequence)
    else if Latest(rows, IsFinalize()).Some? then Refused(EventAfterFinalize)
    else if |rows| > 0 && rows[|rows| - 1].event.at > row.event.at then Refused(ClockOrder)
    else AdmitEvent(limits, rows, row.event, |rows| + 1 == total)
  }

  /** The first refusal among these rows of a log of `total` rows. */
  function AdmitAll(limits: Limits, rows: seq<Row>, total: nat): Requirement<Code> {
    if |rows| == 0 then Met else
      var init := AdmitAll(limits, rows[..|rows| - 1], total);
      if init.Refused? then init else Admit(limits, rows[..|rows| - 1], rows[|rows| - 1], total)
  }

  // ---- the report --------------------------------------------------------------------

  datatype GroupSummary = GroupSummary(
    entered: int, settled: int, succeeded: int, rejected: int, peakInFlight: int,
    nonSuccess: Option<(int, int)>, terminalLatency: Metric, successfulLatency: Metric)

  datatype CohortSummary = CohortSummary(
    empty: bool, observedSpan: Option<int>, phases: map<Phase, GroupSummary>, balances: int)

  datatype PhaseSummary = PhaseSummary(
    entered: int, peakInFlight: int, peakDuringMeasurement: int,
    warmupAtStart: int, warmupAtStop: int, measurementAtStop: int,
    warmupInside: Tally, measurementInside: Tally, warmupAfter: Tally, measurementAfter: Tally,
    completionRatio: Option<(int, int)>)

  datatype Recording = Recording(
    limits: Limits, empty: bool,
    warmupNanoseconds: Option<int>, measurementNanoseconds: int, drainNanoseconds: int, runNanoseconds: int,
    phases: map<Phase, PhaseSummary>, cohorts: map<Cohort, CohortSummary>,
    balanceSamples: int, stageSamples: map<Stage, int>)

  datatype Check = Check(eventsChecked: int, observationsChecked: int, measurementNanoseconds: int)

  function SummarizeGroup(group: Group, samples: Samples): GroupSummary {
    GroupSummary(group.entered, group.settled, group.succeeded, group.rejected, group.peak,
                 if group.settled == 0 then None else Some((group.rejected, group.settled)),
                 Summarize(samples.all), Summarize(samples.success))
  }

  function SummarizeCohort(rows: seq<Row>, c: Cohort): CohortSummary {
    var entries := GroupOf(rows, c, Funding).entered + GroupOf(rows, c, FundedCall).entered
                   + GroupOf(rows, c, LedgerTransaction).entered;
    CohortSummary(entries == 0, MetaOf(rows, c).span.Elapsed(),
                  map[Funding := SummarizeGroup(GroupOf(rows, c, Funding), SamplesOf(rows, c, Funding)),
                      FundedCall := SummarizeGroup(GroupOf(rows, c, FundedCall), SamplesOf(rows, c, FundedCall)),
                      LedgerTransaction := SummarizeGroup(GroupOf(rows, c, LedgerTransaction),
                        SamplesOf(rows, c, LedgerTransaction))],
                  MetaOf(rows, c).balances)
  }

  function SummarizePhase(rows: seq<Row>, p: Phase, duration: int): PhaseSummary {
    var flow, inside := FlowOf(rows, p), TallyOf(rows, Measurement, p, Measuring);
    PhaseSummary(flow.entered, flow.peak, flow.windowPeak,
                 LiveAt(rows, Warmup, p, IsStart()), LiveAt(rows, Warmup, p, IsStop()),
                   LiveAt(rows, Measurement, p, IsStop()),
                 TallyOf(rows, Warmup, p, Measuring), inside,
                 TallyOf(rows, Warmup, p, Draining), TallyOf(rows, Measurement, p, Draining),
                 if GroupOf(rows, Measurement, p).entered == 0 then None
                 else Some((inside.succeeded * 1_000_000_000, duration)))
  }

  predicate CompleteWindowRows(rows: seq<Row>) {
    Latest(rows, IsFinalize()).Some? && Latest(rows, IsStart()).Some? && Latest(rows, IsStop()).Some?
  }

  /** The recording that the rows determine; the run starts with the warmup, when there is one. */
  function Rebuild(limits: Limits, rows: seq<Row>): Recording
    requires CompleteWindowRows(rows)
  {
    var start, stop, ended := Latest(rows, IsStart()).value, Latest(rows, IsStop()).value,
      Latest(rows, IsFinalize()).value;
    var warmupStart := Latest(rows, IsWarmupStart());
    Recording(
      limits, Count(rows, IsBegin()) == 0,
      if warmupStart.None? then None else Some(start - warmupStart.value),
      stop - start, ended - stop, ended - (if warmupStart.None? then start else warmupStart.value),
      map[Funding := SummarizePhase(rows, Funding, stop - start),
          FundedCall := SummarizePhase(rows, FundedCall, stop - start),
          LedgerTransaction := SummarizePhase(rows, LedgerTransaction, stop - start)],
      map[Warmup := SummarizeCohort(rows, Warmup), Measurement := SummarizeCohort(rows, Measurement)],
      Count(rows, IsBalance()), map[Warming := ChecksIn(rows, Warming), Measuring := ChecksIn(rows, Measuring),
        Draining := ChecksIn(rows, Draining)])
  }

  datatype Trace = Trace(limits: Limits, maximumEvents: int, rows: seq<Row>)

  function AdmitLimits(trace: Trace, expected: Limits): Requirement<Code> {
    var samples, inFlight := trace.limits.maxSamplesPerPhase, trace.limits.maxInFlightPerPhase;
    if !(1 <= samples <= 4096) then Refused(SampleBound)
    else if !(1 <= inFlight <= 64) then Refused(InFlightBound)
    else if !(inFlight <= samples && trace.limits == expected) then Refused(PlanLimitBinding)
    else if trace.maximumEvents != 7 * samples + 4 then Refused(EventBound)
    else Require(1 <= |trace.rows| <= trace.maximumEvents, EventArray)
  }

  /** The verdict on a declared trace and the recording supplied with it. */
  function Verdict(trace: Trace, recording: Recording, expected: Limits): Result<Check, Code> {
    var rows := trace.rows;
    :- AdmitLimits(trace, expected);
    :- AdmitAll(trace.limits, rows, |rows|);
    :- Require(CompleteWindowRows(rows), CompleteWindow);
    :- Require(recording == Rebuild(trace.limits, trace.rows), AllRecorderFieldsMismatch);
    Success(Check(|trace.rows|, Count(trace.rows, IsBegin()),
                  Latest(trace.rows, IsStop()).value - Latest(trace.rows, IsStart()).value))
  }
}
