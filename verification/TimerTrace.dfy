/** The pacing timer log, read against the paced log through a monotone anchor: before each timer
    row the cursor advances over the paced rows that precede it. */
module TimerTrace {
  import opened Wrappers
  import opened Clock
  import Q = PacedTrace

  datatype Event =
    | Arm(timer: int, at: Nanos, due: Nanos, delayMs: int)
    | Armed(timer: int)
    | Fire(timer: int, at: Nanos)
    | Cancel(timer: int, returned: bool)
    | Finalize

  datatype Row = Row(sequence: int, pacedSequence: int, event: Event)

  datatype Code =
    | EventArray | AfterFinalize | EventSequence | MonotonePacedAnchor
    | FireNextMustDispatch | SharedClockOrder | NoDispatchWithLiveTimer | FireDispatchBinding | CrossBoundQueue
    | AttemptOrdinal | DelayBound | DueAnchorDelayOrLiveSlot
    | ArmedOrdinal | SingleArmedTransition | FireOrdinal | FireAfterRegistrationAndDue
    | CancelOrdinal | CancelMustReturn | FinalizeFullAnchor | CompleteCounts

  /** One step of the merged reading. */
  datatype Step = Paced(row: Q.Row) | Timer(event: Event)

  /** The timer that is set, and whether its registration has returned. */
  datatype Live = Live(timer: int, due: int, armed: bool)

  // ---- the merged order ------------------------------------------------------------------

  function PacedSteps(rows: seq<Q.Row>): seq<Step> {
    if |rows| == 0 then [] else PacedSteps(rows[..|rows| - 1]) + [Paced(rows[|rows| - 1])]
  }

  function Slice(paced: seq<Q.Row>, from: int, to: int): seq<Q.Row> {
    if 0 <= from <= to <= |paced| then paced[from..to] else []
  }

  /** How many paced rows the timer rows have read. */
  function Cursor(rows: seq<Row>): int {
    if |rows| == 0 then 0 else rows[|rows| - 1].pacedSequence
  }

  /** The paced rows that the last timer row reads first. */
  function Advance(rows: seq<Row>, paced: seq<Q.Row>): seq<Q.Row>
    requires |rows| > 0
  {
    Slice(paced, Cursor(rows[..|rows| - 1]), Cursor(rows))
  }

  function Merge(rows: seq<Row>, paced: seq<Q.Row>): seq<Step> {
    if |rows| == 0 then [] else
      Merge(rows[..|rows| - 1], paced) + PacedSteps(Advance(rows, paced)) + [Timer(rows[|rows| - 1].event)]
  }

  // ---- what a prefix of the merged steps determines ----------------------------------------

  function Count(steps: seq<Step>, kind: Step -> bool): nat {
    if |steps| == 0 then 0 else
      Count(steps[..|steps| - 1], kind) + (if kind(steps[|steps| - 1]) then 1 else 0)
  }

  function IsArm(): Step -> bool { (s: Step) => s.Timer? && s.event.Arm? }

  function IsArmed(): Step -> bool { (s: Step) => s.Timer? && s.event.Armed? }

  function IsFire(): Step -> bool { (s: Step) => s.Timer? && s.event.Fire? }

  function IsCancel(): Step -> bool { (s: Step) => s.Timer? && s.event.Cancel? }

  predicate IsDispatchStep(s: Step) {
    s.Paced? && s.row.event.Dispatch?
  }

  function QueueChange(event: Q.Event): int {
    match event
    case Request(_, _, _) => 1
    case Withdraw(_, _, _) => -1
    case Dispatch(_, _) => -1
    case _ => 0
  }

  /** The integer that stands for the queue length. */
  function Queued(steps: seq<Step>): int {
    if |steps| == 0 then 0 else
      var last := steps[|steps| - 1];
      Queued(steps[..|steps| - 1]) + (if last.Paced? then QueueChange(last.row.event) else 0)
  }

  function LastDispatch(steps: seq<Step>): Option<int> {
    if |steps| == 0 then None
    else if IsDispatchStep(steps[|steps| - 1]) then Some(steps[|steps| - 1].row.event.at)
    else LastDispatch(steps[..|steps| - 1])
  }

  function LiveAfter(live: Option<Live>, event: Event): Option<Live> {
    match event
    case Arm(timer, _, due, _) => Some(Live(timer, due, false))
    case Armed(_) => if live.Some? then Some(live.value.(armed := true)) else live
    case Fire(_, _) => None
    case Cancel(_, _) => None
    case Finalize => live
  }

  /** The one live timer. */
  function Active(steps: seq<Step>): Option<Live> {
    if |steps| == 0 then None else
      var before, last := Active(steps[..|steps| - 1]), steps[|steps| - 1];
      if last.Timer? then LiveAfter(before, last.event) else before
  }

  /** The reading at which the next paced row must dispatch. */
  function Expected(steps: seq<Step>): Option<int> {
    if |steps| == 0 then None else
      var init, last := steps[..|steps| - 1], steps[|steps| - 1];
      if IsDispatchStep(last) then None
      else if last.Timer? && last.event.Fire? && Queued(init) > 0 then Some(last.event.at)
      else Expected(init)
  }

  /** The clock reading of a step, if it has one. */
  function Reading(s: Step): Option<int> {
    match s
    case Paced(row) => if Q.Timed(row.event) then Some(row.event.at) else None
    case Timer(event) => if event.Arm? || event.Fire? then Some(event.at) else None
  }

  /** The latest reading of both logs. */
  function Latest(steps: seq<Step>): Option<int> {
    if |steps| == 0 then None
    else if Reading(steps[|steps| - 1]).Some? then Reading(steps[|steps| - 1])
    else Latest(steps[..|steps| - 1])
  }

  // ---- which steps are admitted --------------------------------------------------------------

  /** The shared clock never runs backwards. */
  predicate InClockOrder(steps: seq<Step>, at: int) {
    Latest(steps).Some? ==> Latest(steps).value <= at
  }

  function AdmitPaced(plan: Q.Plan, steps: seq<Step>, row: Q.Row): Requirement<Code> {
    if Expected(steps).Some? && !row.event.Dispatch? then Refused(FireNextMustDispatch)
    else if Q.Timed(row.event) && !InClockOrder(steps, row.event.at) then Refused(SharedClockOrder)
    else if row.event.Dispatch? && Active(steps).Some? then Refused(NoDispatchWithLiveTimer)
    else if row.event.Dispatch? && Expected(steps).Some?
      && Expected(steps).value != row.event.at then Refused(FireDispatchBinding)
    else Require(0 <= Queued(steps) + QueueChange(row.event) <= plan.lanes, CrossBoundQueue)
  }

  /** The delay in milliseconds, rounded up, that reaches the due reading. */
  function CeilingDelay(due: int, at: int): int {
    (due - at + 999_999) / 1_000_000
  }

  /** What ARM demands beyond its ordinal, its delay bound and the clock order. */
  predicate ArmAnchored(plan: Q.Plan, steps: seq<Step>, at: int, due: int, delayMs: int) {
    && Active(steps).None? && Expected(steps).None? && Queued(steps) > 0 && LastDispatch(steps).Some?
    && due == LastDispatch(steps).value + plan.Gap() && at < due
    && delayMs == CeilingDelay(due, at)
    && Count(steps, IsArm()) < plan.limits.maxSamplesPerPhase
  }

  predicate HasLive(steps: seq<Step>, timer: int, armed: bool) {
    Active(steps).Some? && Active(steps).value.timer == timer && Active(steps).value.armed == armed
  }

  function AdmitTimer(plan: Q.Plan, steps: seq<Step>, event: Event, last: bool): Requirement<Code> {
    var attempts := Count(steps, IsArm());
    match event
    case Arm(timer, at, due, delayMs) =>
      if timer != attempts + 1 then Refused(AttemptOrdinal)
      else if !(1 <= delayMs <= plan.minimumStartGapMs) then Refused(DelayBound)
      else if !ArmAnchored(plan, steps, at, due, delayMs) then Refused(DueAnchorDelayOrLiveSlot)
      else Require(InClockOrder(steps, at), SharedClockOrder)
    case Armed(timer) =>
      if !(1 <= timer <= attempts) then Refused(ArmedOrdinal)
      else Require(HasLive(steps, timer, false), SingleArmedTransition)
    case Fire(timer, at) =>
      if !(1 <= timer <= attempts) then Refused(FireOrdinal)
      else if !(HasLive(steps, timer, true) && at >= Active(steps).value.due) then Refused(FireAfterRegistrationAndDue)
      else Require(InClockOrder(steps, at), SharedClockOrder)
    case Cancel(timer, returned) =>
      if !(1 <= timer <= attempts) then Refused(CancelOrdinal)
      else Require(HasLive(steps, timer, true) && returned, CancelMustReturn)
    case Finalize => Require(last, FinalizeFullAnchor)
  }

  /** The first refusal among paced steps read after `steps`. */
  function AdmitAdvance(plan: Q.Plan, steps: seq<Step>, paced: seq<Q.Row>): Requirement<Code> {
    if |paced| == 0 then Met else
      var init := paced[..|paced| - 1];
      var before := AdmitAdvance(plan, steps, init);
      if before.Refused? then before else AdmitPaced(plan, steps + PacedSteps(init), paced[|paced| - 1])
  }

  predicate Finalized(rows: seq<Row>) {
    exists i :: 0 <= i < |rows| && rows[i].event.Finalize?
  }

  /** May the last timer row follow the others in a log of `total` rows? */
  function AdmitRow(plan: Q.Plan, rows: seq<Row>, paced: seq<Q.Row>, total: nat): Requirement<Code>
    requires |rows| > 0
  {
    var init, row := rows[..|rows| - 1], rows[|rows| - 1];
    if Finalized(init) then Refused(AfterFinalize)
    else if row.sequence != |rows| then Refused(EventSequence)
    else if !(Cursor(init) <= row.pacedSequence <= |paced|) then Refused(MonotonePacedAnchor)
    else
      var advance := AdmitAdvance(plan, Merge(init, paced), Advance(rows, paced));
      if advance.Refused? then advance else
        AdmitTimer(plan, Merge(init, paced) + PacedSteps(Advance(rows, paced)), row.event,
                   |rows| == total && row.pacedSequence == |paced|)
  }

  function AdmitAll(plan: Q.Plan, rows: seq<Row>, paced: seq<Q.Row>, total: nat): Requirement<Code> {
    if |rows| == 0 then Met else
      var init := AdmitAll(plan, rows[..|rows| - 1], paced, total);
      if init.Refused? then init else AdmitRow(plan, rows, paced, total)
  }

  datatype Check = Check(eventsChecked: int, pacedEventsChecked: int, armAttempts: int, timersStarted: int,
                         timerFires: int, cancelReturns: int, maximumLiveTimers: int)

  function AdmitEnd(rows: seq<Row>, paced: seq<Q.Row>, timersStarted: int): Requirement<Code> {
    var steps := Merge(rows, paced);
    var armed := Count(steps, IsArmed());
    Require(
      && Finalized(rows) && Cursor(rows) == |paced| && Queued(steps) == 0 && Active(steps).None?
         && Expected(steps).None?
      && Count(steps, IsArm()) == armed && Count(steps, IsFire()) + Count(steps, IsCancel()) == armed
      && armed == timersStarted, CompleteCounts)
  }

  /** The verdict on a timer log against an accepted paced log and its report. */
  function Verdict(plan: Q.Plan, rows: seq<Row>, paced: seq<Q.Row>, report: Q.Report): Result<Check, Code> {
    var maximumEvents := 4 * plan.limits.maxSamplesPerPhase + 1;
    :- Require(1 <= |rows| <= maximumEvents, EventArray);
    :- AdmitAll(plan, rows, paced, |rows|);
    :- AdmitEnd(rows, paced, report.pacingTimersStarted);
    var steps := Merge(rows, paced);
    var armed := Count(steps, IsArmed());
    Success(Check(|rows|, Cursor(rows), Count(steps, IsArm()), armed, Count(steps, IsFire()), Count(steps, IsCancel()),
                  if armed == 0 then 0 else 1))
  }
}
