/** The balance barriers: every lane reads its balance at three barriers in turn, on the parent's
    clock, and the parent log records a check per read. */
module BalanceTrace {
  import opened Wrappers
  import opened Clock
  import opened Percentiles
  import P = ParentTrace

  /** The barriers in order: after funding, after warmup, after drain. */
  const BARRIERS: nat := 3

  datatype Event =
    | Begin(lane: int, barrier: int, at: Nanos)
    | End(lane: int, barrier: int, outcome: Outcome, at: Nanos)

  datatype Code =
    | CompleteBarriers | LaneIndex | BarrierName | EventOrder | OverlappingBegin | TerminalUnknownOrBound
    | Incomplete | RecordingFields | ParentContext | PhaseOrder | TerminalPrecedesCheck | CheckPrecedesNext

  // ---- what a prefix of the events determines ----------------------------------------------

  /** How many barriers the lane has ended. */
  function Ended(events: seq<Event>, lane: int): nat {
    if |events| == 0 then 0 else
      var last := events[|events| - 1];
      Ended(events[..|events| - 1], lane) + (if last.End? && last.lane == lane then 1 else 0)
  }

  /** When the lane's open barrier began. */
  function Pending(events: seq<Event>, lane: int): Option<int> {
    if |events| == 0 then None else
      var last := events[|events| - 1];
      if last.lane != lane then Pending(events[..|events| - 1], lane)
      else if last.Begin? then Some(last.at)
      else None
  }

  /** The duration of the barrier that the last event ends. */
  function Elapsed(events: seq<Event>): int
    requires |events| > 0
  {
    var last := events[|events| - 1];
    match Pending(events[..|events| - 1], last.lane)
    case Some(begun) => last.at - begun
    case None => 0
  }

  function Starts(events: seq<Event>, barrier: int): seq<int> {
    if |events| == 0 then [] else
      var before, last := Starts(events[..|events| - 1], barrier), events[|events| - 1];
      if last.Begin? && last.barrier == barrier then before + [last.at] else before
  }

  function Ends(events: seq<Event>, barrier: int): seq<int> {
    if |events| == 0 then [] else
      var before, last := Ends(events[..|events| - 1], barrier), events[|events| - 1];
      if last.End? && last.barrier == barrier then before + [last.at] else before
  }

  /** Durations at one barrier, all lanes. */
  function BarrierSeries(events: seq<Event>, barrier: int): seq<int> {
    if |events| == 0 then [] else
      var before, last := BarrierSeries(events[..|events| - 1], barrier), events[|events| - 1];
      if last.End? && last.barrier == barrier then before + [Elapsed(events)] else before
  }

  /** Durations of one lane, all barriers. */
  function LaneSeries(events: seq<Event>, lane: int): seq<int> {
    if |events| == 0 then [] else
      var before, last := LaneSeries(events[..|events| - 1], lane), events[|events| - 1];
      if last.End? && last.lane == lane then before + [Elapsed(events)] else before
  }

  // ---- which events are admitted --------------------------------------------------------------

  /** May `event` follow `events`? */
  function Admit(lanes: nat, maximum: int, events: seq<Event>, event: Event): Requirement<Code> {
    if !(0 <= event.lane <= lanes - 1) then Refused(LaneIndex)
    else if !(0 <= event.barrier < BARRIERS) then Refused(BarrierName)
    else if !(event.barrier == Ended(events, event.lane) && (|events| > 0 ==> events[|events| - 1].at <= event.at))
      then Refused(EventOrder)
    else
      var pending := Pending(events, event.lane);
      match event
      case Begin(_, _, _) => Require(pending.None?, OverlappingBegin)
      case End(_, _, outcome, at) =>
        Require(outcome == Succeeded && pending.Some? && pending.value <= at
          && at - pending.value <= maximum, TerminalUnknownOrBound)
  }

  function AdmitAll(lanes: nat, maximum: int, events: seq<Event>): Requirement<Code> {
    if |events| == 0 then Met else
      var init := AdmitAll(lanes, maximum, events[..|events| - 1]);
      if init.Refused? then init else Admit(lanes, maximum, events[..|events| - 1], events[|events| - 1])
  }

  /** Every lane has ended its three barriers. */
  predicate AllEnded(events: seq<Event>, lanes: nat) {
    forall lane :: 0 <= lane < lanes ==> Ended(events, lane) == BARRIERS && Pending(events, lane).None?
  }

  // ---- against the parent log -------------------------------------------------------------------

  /** The readings of the parent's balance checks. */
  function Checks(rows: seq<P.Row>): seq<int> {
    if |rows| == 0 then [] else
      var before, last := Checks(rows[..|rows| - 1]), rows[|rows| - 1].event;
      if last.BalanceCheck? then before + [last.at] else before
  }

  function Least(s: seq<int>): int
    requires |s| > 0
  {
    if |s| == 1 then s[0] else
      var rest := Least(s[..|s| - 1]);
      if s[|s| - 1] < rest then s[|s| - 1] else rest
  }

  function Greatest(s: seq<int>): int
    requires |s| > 0
  {
    if |s| == 1 then s[0] else
      var rest := Greatest(s[..|s| - 1]);
      if s[|s| - 1] > rest then s[|s| - 1] else rest
  }

  /** `max(a) <= min(b)`; both sides are nonempty where the log is complete. */
  predicate Before(a: seq<int>, b: seq<int>) {
    |a| > 0 && |b| > 0 && Greatest(a) <= Least(b)
  }

  /** The parent checks of one barrier. */
  function ChecksOf(rows: seq<P.Row>, lanes: nat, barrier: nat): seq<int>
    requires |Checks(rows)| == BARRIERS * lanes && barrier < BARRIERS
  {
    Checks(rows)[barrier * lanes..(barrier + 1) * lanes]
  }

  predicate PhasesOrdered(events: seq<Event>, rows: seq<P.Row>)
    requires |rows| > 0
  {
    var start, stop := P.Latest(rows, P.IsStart()), P.Latest(rows, P.IsStop());
    && start.Some? && stop.Some?
    && Before([rows[0].event.at], Starts(events, 0)) && Before(Ends(events, 0), Starts(events, 1))
    && Before(Ends(events, 1), [start.value]) && start.value <= stop.value && Before([stop.value], Starts(events, 2))
    && Before(Ends(events, 2), [rows[|rows| - 1].event.at])
  }

  predicate EndsBeforeChecks(ends: seq<int>, checks: seq<int>) {
    forall i :: 0 <= i < |ends| && i < |checks| ==> ends[i] <= checks[i]
  }

  function AdmitBarrier(events: seq<Event>, rows: seq<P.Row>, lanes: nat, barrier: nat): Requirement<Code>
    requires |Checks(rows)| == BARRIERS * lanes && barrier < BARRIERS
  {
    if !EndsBeforeChecks(Ends(events, barrier), ChecksOf(rows, lanes, barrier)) then Refused(TerminalPrecedesCheck)
    else if barrier + 1 < BARRIERS then Require(Before(ChecksOf(rows, lanes, barrier), Starts(events, barrier + 1)),
      CheckPrecedesNext)
    else Met
  }

  /** The barriers from the given one on. */
  function AdmitBarriers(events: seq<Event>, rows: seq<P.Row>, lanes: nat, from: nat): Requirement<Code>
    requires |Checks(rows)| == BARRIERS * lanes && from <= BARRIERS
    decreases BARRIERS - from
  {
    if from == BARRIERS then Met
    else if AdmitBarrier(events, rows, lanes, from).Refused? then AdmitBarrier(events, rows, lanes, from)
    else AdmitBarriers(events, rows, lanes, from + 1)
  }

  /** The log against the parent's window and checks. */
  function AdmitParent(events: seq<Event>, rows: seq<P.Row>, lanes: nat): Requirement<Code>
    requires |rows| > 0
  {
    if !(P.Count(rows, P.IsStart()) == P.Count(rows, P.IsStop()) == 1 && |Checks(rows)| == BARRIERS * lanes)
      then Refused(ParentContext)
    else if !PhasesOrdered(events, rows) then Refused(PhaseOrder)
    else AdmitBarriers(events, rows, lanes, 0)
  }

  datatype Check = Check(laneMetrics: seq<Metric>, events: int, observations: int)

  function LaneMetrics(events: seq<Event>, lanes: nat): seq<Metric> {
    if lanes == 0 then [] else LaneMetrics(events, lanes - 1) + [Summarize(LaneSeries(events, lanes - 1))]
  }

  /** The three barrier summaries of the declared recording. */
  function BarrierMetrics(events: seq<Event>): seq<Metric> {
    [Summarize(BarrierSeries(events, 0)), Summarize(BarrierSeries(events, 1)), Summarize(BarrierSeries(events, 2))]
  }

  /** The verdict on a balance log, the barrier summaries supplied with it, and the parent rows. */
  function Verdict(lanes: nat, maximum: int, events: seq<Event>, metrics: seq<Metric>,
                   rows: seq<P.Row>): Result<Check, Code>
    requires |rows| > 0
  {
    var expected := 2 * BARRIERS * lanes;
    :- Require(|events| == expected, CompleteBarriers);
    :- AdmitAll(lanes, maximum, events);
    :- Require(AllEnded(events, lanes), Incomplete);
    :- Require(metrics == BarrierMetrics(events), RecordingFields);
    :- AdmitParent(events, rows, lanes);
    Success(Check(LaneMetrics(events, lanes), |events|, BARRIERS * lanes))
  }
}
