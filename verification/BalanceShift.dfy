/** The balance verdict depends on clock differences only, when the balance log moves with the parent log. */
module BalanceShift {
  import opened Percentiles
  import opened BalanceTrace
  import P = ParentTrace
  import PS = ParentShift

  ghost predicate EventMoved(e: Event, f: Event, delta: int) {
    && f.at == e.at + delta && f.lane == e.lane && f.barrier == e.barrier
    && (if e.Begin? then f.Begin? else f.End? && f.outcome == e.outcome)
  }

  ghost predicate Moved(events: seq<Event>, moved: seq<Event>, delta: int) {
    |events| == |moved| && forall i :: 0 <= i < |events| ==> EventMoved(events[i], moved[i], delta)
  }

  lemma {:induction false} MovedInit(events: seq<Event>, moved: seq<Event>, delta: int)
    requires Moved(events, moved, delta) && |events| > 0
    ensures Moved(events[..|events| - 1], moved[..|events| - 1], delta)
            && EventMoved(events[|events| - 1], moved[|events| - 1], delta)
  {
  }

  lemma {:induction false} LaneMoved(events: seq<Event>, moved: seq<Event>, delta: int, lane: int)
    requires Moved(events, moved, delta)
    ensures Ended(moved, lane) == Ended(events, lane) && Pending(moved, lane) == PS.Later(Pending(events, lane), delta)
  {
    if |events| > 0 {
      MovedInit(events, moved, delta);
      LaneMoved(events[..|events| - 1], moved[..|events| - 1], delta, lane);
    }
  }

  lemma {:induction false} ElapsedMoved(events: seq<Event>, moved: seq<Event>, delta: int)
    requires Moved(events, moved, delta) && |events| > 0
    ensures Elapsed(moved) == Elapsed(events)
  {
    MovedInit(events, moved, delta);
    LaneMoved(events[..|events| - 1], moved[..|events| - 1], delta, events[|events| - 1].lane);
  }

  /** Durations do not move. */
  lemma {:induction false} SeriesMoved(events: seq<Event>, moved: seq<Event>, delta: int, k: int)
    requires Moved(events, moved, delta)
    ensures BarrierSeries(moved, k) == BarrierSeries(events, k) && LaneSeries(moved, k) == LaneSeries(events, k)
  {
    if |events| > 0 {
      MovedInit(events, moved, delta);
      SeriesMoved(events[..|events| - 1], moved[..|events| - 1], delta, k);
      ElapsedMoved(events, moved, delta);
    }
  }

  /** The same readings, `delta` later. */
  ghost predicate ReadingsMoved(s: seq<int>, t: seq<int>, delta: int) {
    |s| == |t| && forall i :: 0 <= i < |s| ==> t[i] == s[i] + delta
  }

  lemma {:induction false} EdgesMoved(events: seq<Event>, moved: seq<Event>, delta: int, barrier: int)
    requires Moved(events, moved, delta)
    ensures ReadingsMoved(Starts(events, barrier), Starts(moved, barrier), delta)
    ensures ReadingsMoved(Ends(events, barrier), Ends(moved, barrier), delta)
  {
    if |events| > 0 {
      MovedInit(events, moved, delta);
      EdgesMoved(events[..|events| - 1], moved[..|events| - 1], delta, barrier);
    }
  }

  lemma {:induction false} ChecksMoved(rows: seq<P.Row>, moved: seq<P.Row>, delta: int)
    requires PS.Moved(rows, moved, delta)
    ensures ReadingsMoved(Checks(rows), Checks(moved), delta)
  {
    if |rows| > 0 {
      PS.MovedInit(rows, moved, delta);
      ChecksMoved(rows[..|rows| - 1], moved[..|rows| - 1], delta);
    }
  }

  lemma {:induction false} ExtremesMoved(s: seq<int>, t: seq<int>, delta: int)
    requires ReadingsMoved(s, t, delta) && |s| > 0
    ensures Greatest(t) == Greatest(s) + delta && Least(t) == Least(s) + delta
  {
    if |s| > 1 {
      ExtremesMoved(s[..|s| - 1], t[..|s| - 1], delta);
    }
  }

  lemma {:induction false} BeforeMoved(a: seq<int>, b: seq<int>, c: seq<int>, d: seq<int>, delta: int)
    requires ReadingsMoved(a, c, delta) && ReadingsMoved(b, d, delta)
    ensures Before(c, d) <==> Before(a, b)
  {
    if |a| > 0 && |b| > 0 {
      ExtremesMoved(a, c, delta);
      ExtremesMoved(b, d, delta);
    }
  }

  lemma {:induction false} AdmitEventMoved(lanes: nat, maximum: int, events: seq<Event>, moved: seq<Event>,
                                           delta: int, e: Event, f: Event)
    requires Moved(events, moved, delta) && EventMoved(e, f, delta)
    ensures Admit(lanes, maximum, moved, f) == Admit(lanes, maximum, events, e)
  {
    LaneMoved(events, moved, delta, e.lane);
    if |events| > 0 {
      MovedInit(events, moved, delta);
    }
  }

  lemma {:induction false} AdmitMoved(lanes: nat, maximum: int, events: seq<Event>, moved: seq<Event>, delta: int)
    requires Moved(events, moved, delta)
    ensures AdmitAll(lanes, maximum, moved) == AdmitAll(lanes, maximum, events)
  {
    if |events| > 0 {
      MovedInit(events, moved, delta);
      AdmitMoved(lanes, maximum, events[..|events| - 1], moved[..|events| - 1], delta);
      AdmitEventMoved(lanes, maximum, events[..|events| - 1], moved[..|events| - 1], delta, events[|events| - 1],
        moved[|events| - 1]);
    }
  }

  lemma {:induction false} PhasesMoved(events: seq<Event>, moved: seq<Event>, rows: seq<P.Row>, later: seq<P.Row>,
                                       delta: int)
    requires Moved(events, moved, delta) && PS.Moved(rows, later, delta) && |rows| > 0
    ensures PhasesOrdered(moved, later) <==> PhasesOrdered(events, rows)
  {
    PS.BoundariesMoved(rows, later, delta);
    forall b ensures ReadingsMoved(Starts(events, b), Starts(moved, b), delta)
      && ReadingsMoved(Ends(events, b), Ends(moved, b), delta) {
      EdgesMoved(events, moved, delta, b);
    }
    var first, final := rows[0].event.at, rows[|rows| - 1].event.at;
    BeforeMoved([first], Starts(events, 0), [later[0].event.at], Starts(moved, 0), delta);
    BeforeMoved(Ends(events, 0), Starts(events, 1), Ends(moved, 0), Starts(moved, 1), delta);
    BeforeMoved(Ends(events, 2), [final], Ends(moved, 2), [later[|rows| - 1].event.at], delta);
    var start, stop := P.Latest(rows, P.IsStart()), P.Latest(rows, P.IsStop());
    if start.Some? && stop.Some? {
      BeforeMoved(Ends(events, 1), [start.value], Ends(moved, 1), [start.value + delta], delta);
      BeforeMoved([stop.value], Starts(events, 2), [stop.value + delta], Starts(moved, 2), delta);
    }
  }

  lemma {:induction false} BarrierMoved(events: seq<Event>, moved: seq<Event>, rows: seq<P.Row>, later: seq<P.Row>,
                                        delta: int, lanes: nat, barrier: nat)
    requires Moved(events, moved, delta) && PS.Moved(rows, later, delta)
    requires |Checks(rows)| == BARRIERS * lanes && |Checks(later)| == BARRIERS * lanes && barrier < BARRIERS
    ensures AdmitBarrier(moved, later, lanes, barrier) == AdmitBarrier(events, rows, lanes, barrier)
  {
    ChecksMoved(rows, later, delta);
    EdgesMoved(events, moved, delta, barrier);
    var checks, others := ChecksOf(rows, lanes, barrier), ChecksOf(later, lanes, barrier);
    assert ReadingsMoved(checks, others, delta);
    PairsMoved(Ends(events, barrier), Ends(moved, barrier), checks, others, delta);
    EdgesMoved(events, moved, delta, barrier + 1);
    BeforeMoved(checks, Starts(events, barrier + 1), others, Starts(moved, barrier + 1), delta);
  }

  lemma {:induction false} PairsMoved(ends: seq<int>, later: seq<int>, checks: seq<int>, others: seq<int>, delta: int)
    requires ReadingsMoved(ends, later, delta) && ReadingsMoved(checks, others, delta)
    ensures EndsBeforeChecks(later, others) <==> EndsBeforeChecks(ends, checks)
  {
  }

  lemma {:induction false} BarriersMoved(events: seq<Event>, moved: seq<Event>, rows: seq<P.Row>, later: seq<P.Row>,
                                         delta: int, lanes: nat, from: nat)
    requires Moved(events, moved, delta) && PS.Moved(rows, later, delta)
    requires |Checks(rows)| == BARRIERS * lanes && |Checks(later)| == BARRIERS * lanes && from <= BARRIERS
    ensures AdmitBarriers(moved, later, lanes, from) == AdmitBarriers(events, rows, lanes, from)
    decreases BARRIERS - from
  {
    if from < BARRIERS {
      BarrierMoved(events, moved, rows, later, delta, lanes, from);
      BarriersMoved(events, moved, rows, later, delta, lanes, from + 1);
    }
  }

  lemma {:induction false} ParentMoved(events: seq<Event>, moved: seq<Event>, rows: seq<P.Row>, later: seq<P.Row>,
                                       delta: int, lanes: nat)
    requires Moved(events, moved, delta) && PS.Moved(rows, later, delta) && |rows| > 0
    ensures AdmitParent(moved, later, lanes) == AdmitParent(events, rows, lanes)
  {
    PS.AllAlike(rows, later, delta);
    PS.CountMoved(rows, later, P.IsStart());
    PS.CountMoved(rows, later, P.IsStop());
    ChecksMoved(rows, later, delta);
    PhasesMoved(events, moved, rows, later, delta);
    if |Checks(rows)| == BARRIERS * lanes {
      BarriersMoved(events, moved, rows, later, delta, lanes, 0);
    }
  }

  lemma {:induction false} LaneSummaryMoved(events: seq<Event>, moved: seq<Event>, delta: int, lane: int)
    requires Moved(events, moved, delta)
    ensures Summarize(LaneSeries(moved, lane)) == Summarize(LaneSeries(events, lane))
  {
    SeriesMoved(events, moved, delta, lane);
  }

  lemma {:induction false} LaneMetricsMoved(events: seq<Event>, moved: seq<Event>, delta: int, lanes: nat)
    requires Moved(events, moved, delta)
    ensures LaneMetrics(moved, lanes) == LaneMetrics(events, lanes)
  {
    if lanes > 0 {
      var lane := lanes - 1;
      LaneMetricsMoved(events, moved, delta, lane);
      LaneSummaryMoved(events, moved, delta, lane);
      assert LaneMetrics(events, lanes) == LaneMetrics(events, lane) + [Summarize(LaneSeries(events, lane))];
      assert LaneMetrics(moved, lanes) == LaneMetrics(moved, lane) + [Summarize(LaneSeries(moved, lane))];
    }
  }

  /** Moving the balance and the parent log together leaves the balance verdict and its check unchanged. */
  lemma {:induction false} VerdictMoved(lanes: nat, maximum: int, events: seq<Event>, moved: seq<Event>,
                                        metrics: seq<Metric>,
                     rows: seq<P.Row>, later: seq<P.Row>, delta: int)
    requires Moved(events, moved, delta) && PS.Moved(rows, later, delta) && |rows| > 0
    ensures Verdict(lanes, maximum, moved, metrics, later) == Verdict(lanes, maximum, events, metrics, rows)
  {
    AdmitMoved(lanes, maximum, events, moved, delta);
    forall k ensures Ended(moved, k) == Ended(events, k) && (Pending(moved, k).None? <==> Pending(events, k).None?) {
      LaneMoved(events, moved, delta, k);
    }
    assert AllEnded(moved, lanes) == AllEnded(events, lanes);
    SeriesMoved(events, moved, delta, 0);
    SeriesMoved(events, moved, delta, 1);
    SeriesMoved(events, moved, delta, 2);
    ParentMoved(events, moved, rows, later, delta, lanes);
    LaneMetricsMoved(events, moved, delta, lanes);
  }
}
