/** The balance logs that go with the sample parent logs: at each barrier the lanes read their balance in turn,
    the first two barriers when the run opens, the last one when its window closes. */
module SampleBalance {
  import opened Wrappers
  import opened Clock
  import opened BalanceTrace
  import opened BalanceLaws
  import P = ParentTrace
  import S = SampleParent

  function Reading(c: S.Course, barrier: nat): Nanos
    requires S.InRange(c)
  {
    if barrier < 2 then 0 else S.Closing(c)
  }

  /** The given barriers in full, and of the next one the first `lane` lanes. */
  function Turns(c: S.Course, barrier: nat, lane: nat): seq<Event>
    requires S.InRange(c)
    decreases barrier, lane
  {
    if lane > 0 then
      Turns(c, barrier, lane - 1) + [Begin(lane - 1, barrier, Reading(c, barrier))]
        + [End(lane - 1, barrier, Succeeded, Reading(c, barrier))]
    else if barrier > 0 then Turns(c, barrier - 1, c.lanes)
    else []
  }

  function Log(c: S.Course): seq<Event>
    requires S.InRange(c)
  {
    Turns(c, BARRIERS - 1, c.lanes)
  }

  /** Where every lane stands. */
  ghost predicate At(c: S.Course, events: seq<Event>, barrier: nat, lane: nat)
    requires S.InRange(c)
  {
    && (forall l :: 0 <= l < c.lanes ==>
       Ended(events, l) == (if l < lane then barrier + 1 else barrier)
       && Pending(events, l).None?)
    && (|events| > 0 ==> events[|events| - 1].at <= Reading(c, barrier))
  }

  /** Every event of a barrier happens at that barrier's reading. */
  ghost predicate Punctual(c: S.Course, events: seq<Event>)
    requires S.InRange(c)
  {
    forall i :: 0 <= i < |events| ==> 0 <= events[i].barrier && events[i].at == Reading(c, events[i].barrier)
  }

  lemma {:induction false} OneTurn(c: S.Course, maximum: nat, events: seq<Event>, barrier: nat, lane: nat)
    requires S.InRange(c) && lane < c.lanes && barrier < BARRIERS
    requires Admitted(c.lanes, maximum, events) && At(c, events, barrier, lane) && Punctual(c, events)
    ensures var at := Reading(c, barrier);
            var more := events + [Begin(lane, barrier, at)] + [End(lane, barrier, Succeeded, at)];
            Admitted(c.lanes, maximum, more) && At(c, more, barrier, lane + 1) && Punctual(c, more)
  {
    var at := Reading(c, barrier);
    var begun := events + [Begin(lane, barrier, at)];
    var more := begun + [End(lane, barrier, Succeeded, at)];
    assert begun[..|events|] == events && more[..|begun|] == begun;
    assert Admit(c.lanes, maximum, events, Begin(lane, barrier, at)).Met?;
    assert forall l :: Ended(begun, l) == Ended(events, l);
    assert forall l :: Pending(begun, l) == if l == lane then Some(at as int) else Pending(events, l);
    assert Admit(c.lanes, maximum, begun, End(lane, barrier, Succeeded, at)).Met?;
    assert forall l :: Ended(more, l) == Ended(begun, l) + (if l == lane then 1 else 0);
    assert forall l :: Pending(more, l) == if l == lane then None else Pending(begun, l);
  }

  lemma {:induction false} NextBarrier(c: S.Course, events: seq<Event>, barrier: nat)
    requires S.InRange(c) && barrier > 0 && At(c, events, barrier - 1, c.lanes)
    ensures At(c, events, barrier, 0)
  {
  }

  lemma {:induction false} TurnsHold(c: S.Course, maximum: nat, barrier: nat, lane: nat)
    requires S.InRange(c) && lane <= c.lanes && barrier < BARRIERS
    ensures var events := Turns(c, barrier, lane);
            Admitted(c.lanes, maximum, events) && At(c, events, barrier, lane) && Punctual(c, events)
    decreases barrier, lane
  {
    if lane > 0 {
      TurnsHold(c, maximum, barrier, lane - 1);
      OneTurn(c, maximum, Turns(c, barrier, lane - 1), barrier, lane - 1);
    } else if barrier > 0 {
      TurnsHold(c, maximum, barrier - 1, c.lanes);
      NextBarrier(c, Turns(c, barrier - 1, c.lanes), barrier);
    }
  }

  ghost predicate All(readings: seq<int>, at: int) {
    forall i :: 0 <= i < |readings| ==> readings[i] == at
  }

  lemma {:induction false} PunctualReadings(c: S.Course, events: seq<Event>, barrier: nat)
    requires S.InRange(c) && Punctual(c, events)
    ensures All(Starts(events, barrier), Reading(c, barrier)) && All(Ends(events, barrier), Reading(c, barrier))
  {
    if |events| > 0 {
      assert forall i :: 0 <= i < |events| - 1 ==> events[..|events| - 1][i] == events[i];
      PunctualReadings(c, events[..|events| - 1], barrier);
    }
  }

  lemma {:induction false} BeforeWhen(a: seq<int>, b: seq<int>, x: int, y: int)
    requires |a| > 0 && |b| > 0 && All(a, x) && All(b, y) && x <= y
    ensures Before(a, b)
  {
    BeforeMeansAll(a, b);
  }

  /** What the log says at each barrier. */
  lemma {:induction false} LogHolds(c: S.Course, maximum: nat)
    requires S.InRange(c)
    ensures var events := Log(c);
            && Admitted(c.lanes, maximum, events) && AllEnded(events, c.lanes) && |events| == 2 * BARRIERS * c.lanes
            && forall b: nat :: b < BARRIERS ==>
                 && |Starts(events, b)| == |Ends(events, b)| == c.lanes
                 && All(Starts(events, b), Reading(c, b)) && All(Ends(events, b), Reading(c, b))
  {
    var events := Log(c);
    TurnsHold(c, maximum, BARRIERS - 1, c.lanes);
    forall b: nat | b < BARRIERS
      ensures |Starts(events, b)| == |Ends(events, b)| == c.lanes && |events| == 2 * BARRIERS * c.lanes
      ensures All(Starts(events, b), Reading(c, b)) && All(Ends(events, b), Reading(c, b))
    {
      CompleteLog(c.lanes, maximum, events, b);
      PunctualReadings(c, events, b);
    }
    assert |events| == 2 * BARRIERS * c.lanes by {
      CompleteLog(c.lanes, maximum, events, 0);
    }
  }

  /** The checks that the sample parent log records, barrier by barrier. */
  lemma {:induction false} ChecksHold(c: S.Course, rows: seq<P.Row>, b: nat)
    requires S.InRange(c) && Checks(rows) == S.Repeated(0, 2 * c.lanes) + S.Repeated(S.Closing(c), c.lanes)
             && b < BARRIERS
    ensures |Checks(rows)| == BARRIERS * c.lanes
    ensures |ChecksOf(rows, c.lanes, b)| == c.lanes && All(ChecksOf(rows, c.lanes, b), Reading(c, b))
  {
  }

  lemma {:induction false} PhasesHold(c: S.Course, rows: seq<P.Row>)
    requires S.InRange(c) && |rows| > 0 && S.Finished(c, S.FactsOf(rows))
    ensures PhasesOrdered(Log(c), rows)
  {
    var events, closing := Log(c), S.Closing(c);
    LogHolds(c, 0);
    BeforeWhen([rows[0].event.at], Starts(events, 0), 0, 0);
    BeforeWhen(Ends(events, 0), Starts(events, 1), 0, 0);
    BeforeWhen(Ends(events, 1), [0], 0, 0);
    BeforeWhen([closing], Starts(events, 2), closing, closing);
    BeforeWhen(Ends(events, 2), [rows[|rows| - 1].event.at], closing, closing);
  }

  lemma {:induction false} BarrierHolds(c: S.Course, rows: seq<P.Row>, b: nat)
    requires S.InRange(c) && |rows| > 0 && S.Finished(c, S.FactsOf(rows)) && b < BARRIERS
    ensures |Checks(rows)| == BARRIERS * c.lanes && AdmitBarrier(Log(c), rows, c.lanes, b).Met?
  {
    LogHolds(c, 0);
    ChecksHold(c, rows, b);
    if b + 1 < BARRIERS {
      BeforeWhen(ChecksOf(rows, c.lanes, b), Starts(Log(c), b + 1), Reading(c, b), Reading(c, b + 1));
    }
  }

  /** The balance checker accepts the log beside the sample parent log. */
  lemma {:induction false} LogAccepted(c: S.Course, maximum: nat, rows: seq<P.Row>)
    requires S.InRange(c) && |rows| > 0 && S.Finished(c, S.FactsOf(rows))
    ensures Verdict(c.lanes, maximum, Log(c), BarrierMetrics(Log(c)), rows).Success?
  {
    LogHolds(c, maximum);
    PhasesHold(c, rows);
    BarrierHolds(c, rows, 0);
    BarrierHolds(c, rows, 1);
    BarrierHolds(c, rows, 2);
    assert AdmitBarriers(Log(c), rows, c.lanes, 3).Met?;
    assert AdmitBarriers(Log(c), rows, c.lanes, 2).Met?;
    assert AdmitBarriers(Log(c), rows, c.lanes, 1).Met?;
  }
}
