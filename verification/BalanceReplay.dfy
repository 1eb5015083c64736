/** The balance checker as it runs: arrays indexed by lane and by barrier, updated event by event. */
module BalanceReplay {
  import opened Wrappers
  import opened Clock
  import opened Percentiles
  import opened BalanceTrace
  import P = ParentTrace

  class Replay {
    const lanes: nat
    const maximum: int
    ghost var seen: seq<Event>
    /** By lane: how many barriers ended, when the open one began, and the durations so far. */
    const stages: array<int>
    const pending: array<Option<int>>
    const perLane: array<seq<int>>
    /** By barrier: readings of BEGIN and END, and the durations. */
    const starts: array<seq<int>>
    const ends: array<seq<int>>
    const series: array<seq<int>>
    var previous: Option<int>

    ghost predicate Shaped() {
      && stages.Length == pending.Length == perLane.Length == lanes
      && starts.Length == ends.Length == series.Length == BARRIERS
      && starts != ends && starts != series && ends != series && perLane != starts && perLane != ends
         && perLane != series
    }

    ghost predicate ValidLanes()
      reads this, stages, pending, perLane
      requires Shaped()
    {
      && (forall lane :: 0 <= lane < lanes ==> stages[lane] == Ended(seen, lane))
      && (forall lane :: 0 <= lane < lanes ==> pending[lane] == Pending(seen, lane))
      && (forall lane :: 0 <= lane < lanes ==> perLane[lane] == LaneSeries(seen, lane))
    }

    ghost predicate ValidBarriers()
      reads this, starts, ends, series
      requires Shaped()
    {
      && (forall b :: 0 <= b < BARRIERS ==> starts[b] == Starts(seen, b))
      && (forall b :: 0 <= b < BARRIERS ==> ends[b] == Ends(seen, b))
      && (forall b :: 0 <= b < BARRIERS ==> series[b] == BarrierSeries(seen, b))
    }

    ghost predicate Valid()
      reads this, stages, pending, perLane, starts, ends, series
    {
      && Shaped() && ValidLanes() && ValidBarriers()
      && previous == (if |seen| == 0 then None else Some(seen[|seen| - 1].at))
    }

    constructor (lanes: nat, maximum: int)
      ensures Valid() && seen == [] && this.lanes == lanes && this.maximum == maximum
      ensures fresh(stages) && fresh(pending) && fresh(perLane) && fresh(starts) && fresh(ends) && fresh(series)
    {
      this.lanes, this.maximum, seen, previous := lanes, maximum, [], None;
      stages := new int[lanes](_ => 0);
      pending := new Option<int>[lanes](_ => None);
      perLane := new seq<int>[lanes](_ => []);
      starts := new seq<int>[BARRIERS](_ => []);
      ends := new seq<int>[BARRIERS](_ => []);
      series := new seq<int>[BARRIERS](_ => []);
    }

    /** May the event come next? */
    method Check(event: Event) returns (r: Requirement<Code>)
      requires Valid()
      ensures r == Admit(lanes, maximum, seen, event)
    {
      if !(0 <= event.lane <= lanes - 1) {
        return Refused(LaneIndex);
      }
      if !(0 <= event.barrier < BARRIERS) {
        return Refused(BarrierName);
      }
      if !(event.barrier == stages[event.lane] && (previous.None? || event.at >= previous.value)) {
        return Refused(EventOrder);
      }
      var begun := pending[event.lane];
      match event {
        case Begin(_, _, _) => r := Require(begun.None?, OverlappingBegin);
        case End(_, _, outcome, at) =>
          r := Require(outcome == Succeeded && begun.Some? && begun.value <= at
            && at - begun.value <= maximum, TerminalUnknownOrBound);
      }
    }

    /** The lane begins a barrier. */
    method OnBegin(event: Event)
      requires Valid() && event.Begin? && 0 <= event.lane < lanes && 0 <= event.barrier < BARRIERS
      modifies this, pending, starts
      ensures Valid() && seen == old(seen) + [event]
    {
      previous := Some(event.at);
      pending[event.lane] := Some(event.at);
      starts[event.barrier] := starts[event.barrier] + [event.at];
      seen := seen + [event];
      assert seen[..|seen| - 1] == old(seen);
    }

    /** The lane ends the barrier it began. */
    method OnEnd(event: Event)
      requires Valid() && event.End? && 0 <= event.lane < lanes && 0 <= event.barrier < BARRIERS
               && pending[event.lane].Some?
      modifies this, stages, pending, perLane, ends, series
      ensures Valid() && seen == old(seen) + [event]
    {
      previous := Some(event.at);
      var elapsed := event.at - pending[event.lane].value;
      series[event.barrier] := series[event.barrier] + [elapsed];
      perLane[event.lane] := perLane[event.lane] + [elapsed];
      ends[event.barrier] := ends[event.barrier] + [event.at];
      pending[event.lane] := None;
      stages[event.lane] := stages[event.lane] + 1;
      seen := seen + [event];
      assert seen[..|seen| - 1] == old(seen);
    }

    /** The pass over all events, up to the first refusal. */
    method Run(events: seq<Event>) returns (r: Requirement<Code>)
      requires Valid() && seen == []
      modifies this, stages, pending, perLane, starts, ends, series
      ensures r == AdmitAll(lanes, maximum, events)
      ensures r.Met? ==> Valid() && seen == events
    {
      var index := 0;
      while index < |events|
        invariant 0 <= index <= |events| && Valid() && seen == events[..index] && AdmitAll(lanes, maximum, seen).Met?
      {
        NextEvent(lanes, maximum, events, index);
        r := Check(events[index]);
        if r.Refused? {
          return;
        }
        Enter(events[index]);
        index := index + 1;
      }
      assert events[..index] == events;
      return Met;
    }

    method Enter(event: Event)
      requires Valid() && Admit(lanes, maximum, seen, event).Met?
      modifies this, stages, pending, perLane, starts, ends, series
      ensures Valid() && seen == old(seen) + [event]
    {
      if event.Begin? {
        OnBegin(event);
      } else {
        OnEnd(event);
      }
    }

    /** Has every lane ended its barriers? */
    method Complete() returns (complete: bool)
      requires Valid()
      ensures complete == AllEnded(seen, lanes)
    {
      var lane := 0;
      while lane < lanes
        invariant 0 <= lane <= lanes
        invariant forall k :: 0 <= k < lane ==> Ended(seen, k) == BARRIERS && Pending(seen, k).None?
      {
        if !(stages[lane] == BARRIERS && pending[lane].None?) {
          return false;
        }
        lane := lane + 1;
      }
      return true;
    }

    /** One summary per lane. */
    method LaneSummaries() returns (metrics: seq<Metric>)
      requires Valid()
      ensures metrics == LaneMetrics(seen, lanes)
    {
      metrics := [];
      for lane := 0 to lanes
        invariant metrics == LaneMetrics(seen, lane)
      {
        metrics := metrics + [Summarize(perLane[lane])];
      }
    }
  }

  lemma {:induction false} RefusalStays(lanes: nat, maximum: int, events: seq<Event>, k: nat)
    requires k <= |events| && AdmitAll(lanes, maximum, events[..k]).Refused?
    ensures AdmitAll(lanes, maximum, events) == AdmitAll(lanes, maximum, events[..k])
  {
    if k < |events| {
      assert events[..|events| - 1][..k] == events[..k];
      RefusalStays(lanes, maximum, events[..|events| - 1], k);
    } else {
      assert events[..k] == events;
    }
  }

  lemma {:induction false} NextEvent(lanes: nat, maximum: int, events: seq<Event>, k: nat)
    requires k < |events| && AdmitAll(lanes, maximum, events[..k]).Met?
    ensures events[..k] + [events[k]] == events[..k + 1]
    ensures AdmitAll(lanes, maximum, events[..k + 1]) == Admit(lanes, maximum, events[..k], events[k])
    ensures Admit(lanes, maximum, events[..k], events[k]).Refused? ==>
              AdmitAll(lanes, maximum, events) == Admit(lanes, maximum, events[..k], events[k])
  {
    assert events[..k + 1][..k] == events[..k];
    if Admit(lanes, maximum, events[..k], events[k]).Refused? {
      RefusalStays(lanes, maximum, events, k + 1);
    }
  }

  /** What the parent log says about the window and the checks. */
  method Context(rows: seq<P.Row>) returns (measured: seq<int>, stopped: seq<int>, checks: seq<int>)
    ensures |measured| == P.Count(rows, P.IsStart()) && |stopped| == P.Count(rows, P.IsStop()) && checks == Checks(rows)
    ensures |measured| > 0 ==> P.Latest(rows, P.IsStart()) == Some(measured[|measured| - 1])
    ensures |stopped| > 0 ==> P.Latest(rows, P.IsStop()) == Some(stopped[|stopped| - 1])
  {
    measured, stopped, checks := [], [], [];
    for index := 0 to |rows|
      invariant |measured| == P.Count(rows[..index], P.IsStart()) && |stopped| == P.Count(rows[..index], P.IsStop())
      invariant checks == Checks(rows[..index])
      invariant |measured| > 0 ==> P.Latest(rows[..index], P.IsStart()) == Some(measured[|measured| - 1])
      invariant |stopped| > 0 ==> P.Latest(rows[..index], P.IsStop()) == Some(stopped[|stopped| - 1])
    {
      assert rows[..index + 1][..index] == rows[..index];
      var event := rows[index].event;
      match event {
        case StartMeasurement(at) => measured := measured + [at];
        case StopMeasurement(at) => stopped := stopped + [at];
        case BalanceCheck(_, at) => checks := checks + [at];
        case _ =>
      }
    }
    assert rows[..|rows|] == rows;
  }

  /** `zip`: each END with its check, as far as both go. */
  method PairedInOrder(ends: seq<int>, checks: seq<int>) returns (ordered: bool)
    ensures ordered == EndsBeforeChecks(ends, checks)
  {
    var i := 0;
    while i < |ends| && i < |checks|
      invariant 0 <= i <= |ends| && i <= |checks|
      invariant forall k :: 0 <= k < i ==> ends[k] <= checks[k]
    {
      if ends[i] > checks[i] {
        return false;
      }
      i := i + 1;
    }
    return true;
  }

  /** One barrier against its parent checks, and those against the next barrier. */
  method CheckBarrier(pass: Replay, ghost rows: seq<P.Row>, checks: seq<int>,
                      barrier: nat) returns (r: Requirement<Code>)
    requires pass.Valid() && checks == Checks(rows) && |checks| == BARRIERS * pass.lanes && barrier < BARRIERS
    ensures r == AdmitBarrier(pass.seen, rows, pass.lanes, barrier)
  {
    var actual := checks[barrier * pass.lanes..(barrier + 1) * pass.lanes];
    var ordered := PairedInOrder(pass.ends[barrier], actual);
    if !ordered {
      return Refused(TerminalPrecedesCheck);
    }
    if barrier < 2 {
      return Require(Before(actual, pass.starts[barrier + 1]), CheckPrecedesNext);
    }
    return Met;
  }

  lemma {:induction false} BarriersNext(events: seq<Event>, rows: seq<P.Row>, lanes: nat, barrier: nat)
    requires |Checks(rows)| == BARRIERS * lanes && barrier < BARRIERS
    ensures AdmitBarriers(events, rows, lanes, barrier) ==
              if AdmitBarrier(events, rows, lanes, barrier).Refused? then AdmitBarrier(events, rows, lanes, barrier)
              else AdmitBarriers(events, rows, lanes, barrier + 1)
  {
  }

  /** The three barriers in turn, up to the first refusal. */
  method CheckBarriers(pass: Replay, ghost rows: seq<P.Row>, checks: seq<int>) returns (r: Requirement<Code>)
    requires pass.Valid() && checks == Checks(rows) && |checks| == BARRIERS * pass.lanes
    ensures r == AdmitBarriers(pass.seen, rows, pass.lanes, 0)
  {
    r := Met;
    var stage := 0;
    while stage < BARRIERS
      invariant 0 <= stage <= BARRIERS && r == Met
      invariant AdmitBarriers(pass.seen, rows, pass.lanes, 0) == AdmitBarriers(pass.seen, rows, pass.lanes, stage)
    {
      BarriersNext(pass.seen, rows, pass.lanes, stage);
      r := CheckBarrier(pass, rows, checks, stage);
      if r.Refused? {
        return;
      }
      stage := stage + 1;
    }
  }

  /** The first two barriers lie before the window and the third after it. */
  method PhasesInOrder(pass: Replay, rows: seq<P.Row>, measured: int, stopped: int) returns (ordered: bool)
    requires pass.Valid() && |rows| > 0
    requires P.Latest(rows, P.IsStart()) == Some(measured) && P.Latest(rows, P.IsStop()) == Some(stopped)
    ensures ordered == PhasesOrdered(pass.seen, rows)
  {
    var first, final := rows[0].event.at, rows[|rows| - 1].event.at;
    var starts, ends := pass.starts, pass.ends;
    ordered := Before([first], starts[0]) && Before(ends[0], starts[1]) && Before(ends[1], [measured])
      && measured <= stopped && Before([stopped], starts[2]) && Before(ends[2], [final]);
  }

  method CheckPhases(pass: Replay, rows: seq<P.Row>) returns (r: Requirement<Code>)
    requires pass.Valid() && |rows| > 0
    ensures r == AdmitParent(pass.seen, rows, pass.lanes)
  {
    var measured, stopped, checks := Context(rows);
    if !(|measured| == |stopped| == 1 && |checks| == BARRIERS * pass.lanes) {
      return Refused(ParentContext);
    }
    var ordered := PhasesInOrder(pass, rows, measured[0], stopped[0]);
    if !ordered {
      return Refused(PhaseOrder);
    }
    r := CheckBarriers(pass, rows, checks);
  }

  /** The balance checker: its pass over the events reaches the verdict that the declarative series define. */
  method CheckBalance(lanes: nat, maximum: int, events: seq<Event>, metrics: seq<Metric>,
                      rows: seq<P.Row>) returns (r: Result<Check, Code>)
    requires |rows| > 0
    ensures r == Verdict(lanes, maximum, events, metrics, rows)
  {
    if |events| != 2 * BARRIERS * lanes {
      return Failure(CompleteBarriers);
    }
    var pass := new Replay(lanes, maximum);
    var admitted := pass.Run(events);
    if admitted.Refused? {
      return Failure(admitted.code);
    }
    var complete := pass.Complete();
    if !complete {
      return Failure(Incomplete);
    }
    if metrics != [Summarize(pass.series[0]), Summarize(pass.series[1]), Summarize(pass.series[2])] {
      return Failure(RecordingFields);
    }
    var phases := CheckPhases(pass, rows);
    if phases.Refused? {
      return Failure(phases.code);
    }
    var laneMetrics := pass.LaneSummaries();
    return Success(Check(laneMetrics, |events|, BARRIERS * lanes));
  }
}
