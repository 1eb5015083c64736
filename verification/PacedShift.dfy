/** The paced verdict depends on clock differences only, when the parent and the paced log move together. */
module PacedShift {
  import opened Recorder
  import opened PacedTrace
  import P = ParentTrace
  import PS = ParentShift

  ghost predicate EventMoved(e: Event, f: Event, delta: int) {
    match e
    case Request(r, lane, ordinal) => f == e
    case WaitBegin(r, at) => f.WaitBegin? && f.request == r && f.at == at + delta
    case Dispatch(r, at) => f.Dispatch? && f.request == r && f.at == at + delta
    case SourceTerminal(r, outcome, at) => f.SourceTerminal? && f.request == r && f.outcome == outcome
      && f.at == at + delta
    case Withdraw(r, recordedWait, at) => f.Withdraw? && f.request == r && f.recordedWait == recordedWait
      && f.at == at + delta
    case Finalize => f == e
  }

  ghost predicate Moved(rows: seq<Row>, moved: seq<Row>, delta: int) {
    |rows| == |moved|
    && forall i :: 0 <= i < |rows| ==>
       moved[i].sequence == rows[i].sequence
       && EventMoved(rows[i].event, moved[i].event, delta)
  }

  lemma {:induction false} MovedInit(rows: seq<Row>, moved: seq<Row>, delta: int)
    requires Moved(rows, moved, delta) && |rows| > 0
    ensures Moved(rows[..|rows| - 1], moved[..|rows| - 1], delta)
    ensures EventMoved(rows[|rows| - 1].event, moved[|rows| - 1].event, delta)
            && rows[|rows| - 1].sequence == moved[|rows| - 1].sequence
  {
  }

  // ---- the funded calls ---------------------------------------------------------------------------------

  ghost predicate CoreMoved(core: Core, moved: Core, delta: int) {
    && |core.begins| == |moved.begins|
    && (forall i :: 0 <= i < |core.begins| ==>
          moved.begins[i].observation == core.begins[i].observation && moved.begins[i].at == core.begins[i].at + delta)
    && (forall o :: o in core.finishes <==> o in moved.finishes)
    && (forall o :: o in core.finishes ==>
          moved.finishes[o].outcome == core.finishes[o].outcome && moved.finishes[o].at == core.finishes[o].at + delta)
  }

  lemma {:induction false} MeasuredMoved(core: Core, moved: Core, delta: int, o: int)
    requires CoreMoved(core, moved, delta)
    ensures Measured(core.begins, o) <==> Measured(moved.begins, o)
  {
    if Measured(core.begins, o) {
      var i :| 0 <= i < |core.begins| && core.begins[i].observation == o;
      assert moved.begins[i].observation == o;
    }
    if Measured(moved.begins, o) {
      var i :| 0 <= i < |moved.begins| && moved.begins[i].observation == o;
      assert core.begins[i].observation == o;
    }
  }

  lemma {:induction false} CoreStep(core: Core, moved: Core, delta: int, e: P.Event, f: P.Event)
    requires CoreMoved(core, moved, delta) && PS.EventMoved(e, f, delta)
    ensures CoreMoved(CoreAfter(core, e), CoreAfter(moved, f), delta)
  {
    if e.Finish? {
      MeasuredMoved(core, moved, delta, e.observation);
    }
  }

  lemma {:induction false} CoresMoved(rows: seq<P.Row>, moved: seq<P.Row>, delta: int)
    requires PS.Moved(rows, moved, delta)
    ensures CoreMoved(CoreOf(rows), CoreOf(moved), delta)
  {
    if |rows| > 0 {
      PS.MovedInit(rows, moved, delta);
      CoresMoved(rows[..|rows| - 1], moved[..|rows| - 1], delta);
      CoreStep(CoreOf(rows[..|rows| - 1]), CoreOf(moved[..|rows| - 1]), delta, rows[|rows| - 1].event,
        moved[|rows| - 1].event);
    }
  }

  // ---- requests -------------------------------------------------------------------------------------------

  /** The same request in the same state, its bracket later. */
  ghost predicate ItemMoved(item: Item, later: Item, delta: int) {
    && later.state == item.state && later.lane == item.lane && later.outcome == item.outcome
    && later.begin == item.begin + delta && later.finish == item.finish + delta
  }

  /** The readings taken so far are later too. */
  ghost predicate ReadingsMoved(item: Item, later: Item, delta: int) {
    && (item.state == Waiting || item.state == Entered ==> later.waitAt == item.waitAt + delta)
    && (item.state == Entered ==> later.sourceAt == item.sourceAt + delta)
  }

  ghost predicate ItemsMoved(items: seq<Item>, moved: seq<Item>, delta: int) {
    |items| == |moved| && forall i :: 0 <= i < |items| ==> ItemMoved(items[i], moved[i], delta)
  }

  ghost predicate TimesMoved(items: seq<Item>, moved: seq<Item>, delta: int) {
    |items| == |moved| && forall i :: 0 <= i < |items| ==> ReadingsMoved(items[i], moved[i], delta)
  }

  lemma {:induction false} ItemsStep(core: Core, later: Core, items: seq<Item>, moved: seq<Item>, delta: int,
                                     e: Event, f: Event)
    requires CoreMoved(core, later, delta) && ItemsMoved(items, moved, delta) && EventMoved(e, f, delta)
    ensures ItemsMoved(ItemsAfter(core, items, e), ItemsAfter(later, moved, f), delta)
  {
  }

  lemma {:induction false} AllItemsMoved(core: Core, later: Core, rows: seq<Row>, moved: seq<Row>, delta: int)
    requires CoreMoved(core, later, delta) && Moved(rows, moved, delta)
    ensures ItemsMoved(Items(core, rows), Items(later, moved), delta)
  {
    if |rows| > 0 {
      var init, rest := rows[..|rows| - 1], moved[..|rows| - 1];
      MovedInit(rows, moved, delta);
      AllItemsMoved(core, later, init, rest, delta);
      ItemsStep(core, later, Items(core, init), Items(later, rest), delta, rows[|rows| - 1].event,
        moved[|rows| - 1].event);
    }
  }

  lemma {:induction false} TimesStep(core: Core, later: Core, items: seq<Item>, moved: seq<Item>, delta: int,
                                     e: Event, f: Event)
    requires CoreMoved(core, later, delta) && ItemsMoved(items, moved, delta) && TimesMoved(items, moved, delta)
             && EventMoved(e, f, delta)
    requires e.Dispatch? ==> 1 <= e.request <= |items| && items[e.request - 1].state == Waiting
    ensures TimesMoved(ItemsAfter(core, items, e), ItemsAfter(later, moved, f), delta)
  {
  }

  // ---- what does not move ------------------------------------------------------------------------------------

  lemma {:induction false} QueueMoved(rows: seq<Row>, moved: seq<Row>, delta: int)
    requires Moved(rows, moved, delta)
    ensures Fifo(moved) == Fifo(rows) && PeakQueue(moved) == PeakQueue(rows)
  {
    if |rows| > 0 {
      MovedInit(rows, moved, delta);
      QueueMoved(rows[..|rows| - 1], moved[..|rows| - 1], delta);
    }
  }

  lemma {:induction false} LanesMoved(core: Core, later: Core, rows: seq<Row>, moved: seq<Row>, delta: int)
    requires CoreMoved(core, later, delta) && Moved(rows, moved, delta)
    ensures Occupied(later, moved) == Occupied(core, rows)
  {
    if |rows| > 0 {
      MovedInit(rows, moved, delta);
      LanesMoved(core, later, rows[..|rows| - 1], moved[..|rows| - 1], delta);
      AllItemsMoved(core, later, rows[..|rows| - 1], moved[..|rows| - 1], delta);
    }
  }

  lemma {:induction false} OrdinalMoved(rows: seq<Row>, moved: seq<Row>, delta: int, lane: int)
    requires Moved(rows, moved, delta)
    ensures NextOrdinal(moved, lane) == NextOrdinal(rows, lane)
  {
    if |rows| > 0 {
      MovedInit(rows, moved, delta);
      OrdinalMoved(rows[..|rows| - 1], moved[..|rows| - 1], delta, lane);
    }
  }

  lemma {:induction false} CountsMoved(rows: seq<Row>, moved: seq<Row>, delta: int)
    requires Moved(rows, moved, delta)
    ensures Count(moved, IsDispatch()) == Count(rows, IsDispatch())
            && Count(moved, IsWithdraw()) == Count(rows, IsWithdraw())
    ensures Count(moved, IsFinalize()) == Count(rows, IsFinalize())
  {
    if |rows| > 0 {
      MovedInit(rows, moved, delta);
      CountsMoved(rows[..|rows| - 1], moved[..|rows| - 1], delta);
    }
  }

  lemma {:induction false} PreviousMoved(rows: seq<Row>, moved: seq<Row>, delta: int)
    requires Moved(rows, moved, delta)
    ensures Previous(moved) == PS.Later(Previous(rows), delta)
  {
    if |rows| > 0 {
      MovedInit(rows, moved, delta);
      PreviousMoved(rows[..|rows| - 1], moved[..|rows| - 1], delta);
    }
  }

  lemma {:induction false} StartsMoved(rows: seq<Row>, moved: seq<Row>, delta: int)
    requires Moved(rows, moved, delta)
    ensures |Starts(moved)| == |Starts(rows)|
    ensures |Starts(rows)| > 0 ==> Starts(moved)[|Starts(rows)| - 1] == Starts(rows)[|Starts(rows)| - 1] + delta
  {
    if |rows| > 0 {
      MovedInit(rows, moved, delta);
      StartsMoved(rows[..|rows| - 1], moved[..|rows| - 1], delta);
    }
  }

  lemma {:induction false} SeriesMoved(rows: seq<Row>, moved: seq<Row>, delta: int, s: Series)
    requires Moved(rows, moved, delta)
    ensures SeriesGroup(s, moved) == SeriesGroup(s, rows)
    ensures SeriesSpan(s, moved) == Span(PS.Later(SeriesSpan(s, rows).first, delta),
            PS.Later(SeriesSpan(s, rows).last, delta))
  {
    if |rows| > 0 {
      MovedInit(rows, moved, delta);
      SeriesMoved(rows[..|rows| - 1], moved[..|rows| - 1], delta, s);
    }
  }

  // ---- admission ----------------------------------------------------------------------------------------------

  /** Everything admission reads, before the row. */
  ghost predicate StateMoved(core: Core, later: Core, rows: seq<Row>, moved: seq<Row>, delta: int) {
    && CoreMoved(core, later, delta)
    && ItemsMoved(Items(core, rows), Items(later, moved), delta)
       && TimesMoved(Items(core, rows), Items(later, moved), delta)
    && Fifo(moved) == Fifo(rows) && Occupied(later, moved) == Occupied(core, rows)
    && |Starts(moved)| == |Starts(rows)|
    && (|Starts(rows)| > 0 ==> Starts(moved)[|Starts(rows)| - 1] == Starts(rows)[|Starts(rows)| - 1] + delta)
    && SeriesGroup(Wait, moved) == SeriesGroup(Wait, rows) && SeriesGroup(Source, moved) == SeriesGroup(Source, rows)
  }

  lemma {:induction false} AllStateMoved(core: Core, later: Core, rows: seq<Row>, moved: seq<Row>, delta: int)
    requires CoreMoved(core, later, delta) && Moved(rows, moved, delta)
    requires TimesMoved(Items(core, rows), Items(later, moved), delta)
    ensures StateMoved(core, later, rows, moved, delta)
  {
    AllItemsMoved(core, later, rows, moved, delta);
    QueueMoved(rows, moved, delta);
    LanesMoved(core, later, rows, moved, delta);
    StartsMoved(rows, moved, delta);
    SeriesMoved(rows, moved, delta, Wait);
    SeriesMoved(rows, moved, delta, Source);
  }

  lemma {:induction false} AdmitRequestMoved(plan: Plan, core: Core, later: Core, rows: seq<Row>, moved: seq<Row>,
                                             delta: int, e: Event)
    requires StateMoved(core, later, rows, moved, delta) && Moved(rows, moved, delta) && e.Request?
    ensures AdmitRequest(plan, later, moved, e.request, e.lane, e.ordinal)
            == AdmitRequest(plan, core, rows, e.request, e.lane, e.ordinal)
  {
    OrdinalMoved(rows, moved, delta, e.lane);
  }

  lemma {:induction false} AdmitEventMoved(plan: Plan, core: Core, later: Core, rows: seq<Row>, moved: seq<Row>,
                                           delta: int, e: Event, f: Event, last: bool)
    requires StateMoved(core, later, rows, moved, delta) && Moved(rows, moved, delta) && EventMoved(e, f, delta)
    ensures AdmitEvent(plan, later, moved, f, last) == AdmitEvent(plan, core, rows, e, last)
  {
    if e.Request? {
      AdmitRequestMoved(plan, core, later, rows, moved, delta, e);
    } else if e.Finalize? {
    } else if KnownRequest(Items(core, rows), e.request).Met? {
      var k := e.request - 1;
      assert ItemMoved(Items(core, rows)[k], Items(later, moved)[k], delta);
      assert ReadingsMoved(Items(core, rows)[k], Items(later, moved)[k], delta);
    }
  }

  lemma {:induction false} DispatchWaits(plan: Plan, core: Core, rows: seq<Row>, event: Event, last: bool)
    requires AdmitEvent(plan, core, rows, event, last).Met? && event.Dispatch?
    ensures 1 <= event.request <= |Items(core, rows)| && Items(core, rows)[event.request - 1].state == Waiting
  {
  }

  lemma {:induction false} RowAdmitMoved(plan: Plan, core: Core, later: Core, rows: seq<Row>, moved: seq<Row>,
                                         delta: int, total: nat)
    requires CoreMoved(core, later, delta) && Moved(rows, moved, delta) && |rows| > 0
    requires TimesMoved(Items(core, rows[..|rows| - 1]), Items(later, moved[..|rows| - 1]), delta)
    ensures Admit(plan, later, moved[..|rows| - 1], moved[|rows| - 1], total) ==
              Admit(plan, core, rows[..|rows| - 1], rows[|rows| - 1], total)
  {
    var init, rest := rows[..|rows| - 1], moved[..|rows| - 1];
    MovedInit(rows, moved, delta);
    AllStateMoved(core, later, init, rest, delta);
    CountsMoved(init, rest, delta);
    PreviousMoved(init, rest, delta);
    AdmitEventMoved(plan, core, later, init, rest, delta, rows[|rows| - 1].event, moved[|rows| - 1].event,
                    |rows| == total);
  }

  lemma {:induction false} RowTimesMoved(plan: Plan, core: Core, later: Core, rows: seq<Row>, moved: seq<Row>,
                                         delta: int, total: nat)
    requires CoreMoved(core, later, delta) && Moved(rows, moved, delta) && |rows| > 0
    requires TimesMoved(Items(core, rows[..|rows| - 1]), Items(later, moved[..|rows| - 1]), delta)
    requires Admit(plan, core, rows[..|rows| - 1], rows[|rows| - 1], total).Met?
    ensures TimesMoved(Items(core, rows), Items(later, moved), delta)
  {
    var init, rest, e, f := rows[..|rows| - 1], moved[..|rows| - 1], rows[|rows| - 1].event, moved[|rows| - 1].event;
    MovedInit(rows, moved, delta);
    AllStateMoved(core, later, init, rest, delta);
    if e.Dispatch? {
      DispatchWaits(plan, core, init, e, |rows| == total);
    }
    TimesStep(core, later, Items(core, init), Items(later, rest), delta, e, f);
  }

  lemma {:induction false} AdmitMoved(plan: Plan, core: Core, later: Core, rows: seq<Row>, moved: seq<Row>,
                                      delta: int, total: nat)
    requires CoreMoved(core, later, delta) && Moved(rows, moved, delta)
    ensures AdmitAll(plan, later, moved, total) == AdmitAll(plan, core, rows, total)
    ensures AdmitAll(plan, core, rows, total).Met? ==> TimesMoved(Items(core, rows), Items(later, moved), delta)
  {
    if |rows| > 0 {
      var init, rest := rows[..|rows| - 1], moved[..|rows| - 1];
      MovedInit(rows, moved, delta);
      AdmitMoved(plan, core, later, init, rest, delta, total);
      if AdmitAll(plan, core, init, total).Met? {
        RowAdmitMoved(plan, core, later, rows, moved, delta, total);
        if AdmitAll(plan, core, rows, total).Met? {
          RowTimesMoved(plan, core, later, rows, moved, delta, total);
        }
      }
    }
  }

  // ---- the report ---------------------------------------------------------------------------------------------

  /** A closing row closes an observation whose opening is known to have moved. */
  lemma {:induction false} ClosingState(plan: Plan, core: Core, rows: seq<Row>, event: Event, last: bool)
    requires AdmitEvent(plan, core, rows, event, last).Met? && (Closes(Wait, event) || Closes(Source, event))
    ensures 1 <= event.request <= |Items(core, rows)|
    ensures Items(core, rows)[event.request - 1].state == if Closes(Wait, event) then Waiting else Entered
  {
  }

  lemma {:induction false} OpenedMoved(s: Series, items: seq<Item>, moved: seq<Item>, e: Event, f: Event, delta: int)
    requires ItemsMoved(items, moved, delta) && TimesMoved(items, moved, delta) && EventMoved(e, f, delta)
             && Closes(s, e)
    requires 1 <= e.request <= |items| && items[e.request - 1].state == if s == Wait then Waiting else Entered
    ensures Closes(s, f) && f.at - OpenedAt(s, moved, f) == e.at - OpenedAt(s, items, e)
            && ClosingOutcome(f) == ClosingOutcome(e)
  {
    assert ReadingsMoved(items[e.request - 1], moved[e.request - 1], delta);
  }

  /** The latency that the last row records. */
  ghost function Latency(core: Core, s: Series, rows: seq<Row>): int
    requires |rows| > 0 && Closes(s, rows[|rows| - 1].event)
  {
    rows[|rows| - 1].event.at - OpenedAt(s, Items(core, rows[..|rows| - 1]), rows[|rows| - 1].event)
  }

  lemma {:induction false} SamplesUnfold(core: Core, s: Series, rows: seq<Row>)
    requires |rows| > 0
    ensures var before, e := SeriesSamples(core, s, rows[..|rows| - 1]), rows[|rows| - 1].event;
            SeriesSamples(core, s, rows) == if Closes(s, e) then before.Add(Latency(core, s, rows), ClosingOutcome(e))
              else before
  {
  }

  lemma {:induction false} ClosesMoved(plan: Plan, core: Core, later: Core, rows: seq<Row>, moved: seq<Row>,
                                       delta: int, total: nat, s: Series)
    requires CoreMoved(core, later, delta) && Moved(rows, moved, delta) && AdmitAll(plan, core, rows, total).Met?
             && |rows| > 0
    ensures var e, f := rows[|rows| - 1].event, moved[|rows| - 1].event;
            && (Closes(s, f) <==> Closes(s, e))
            && (Closes(s, e) ==> ClosingOutcome(f) == ClosingOutcome(e))
            && (Closes(s, e) ==> Latency(later, s, moved) == Latency(core, s, rows))
  {
    var init, rest, e := rows[..|rows| - 1], moved[..|rows| - 1], rows[|rows| - 1].event;
    MovedInit(rows, moved, delta);
    if Closes(s, e) {
      AdmitMoved(plan, core, later, init, rest, delta, total);
      AllItemsMoved(core, later, init, rest, delta);
      ClosingState(plan, core, init, e, |rows| == total);
      OpenedMoved(s, Items(core, init), Items(later, rest), e, moved[|rows| - 1].event, delta);
    }
  }

  lemma {:induction false} SamplesMoved(plan: Plan, core: Core, later: Core, rows: seq<Row>, moved: seq<Row>,
                                        delta: int, total: nat, s: Series)
    requires CoreMoved(core, later, delta) && Moved(rows, moved, delta) && AdmitAll(plan, core, rows, total).Met?
    ensures SeriesSamples(later, s, moved) == SeriesSamples(core, s, rows)
  {
    if |rows| > 0 {
      MovedInit(rows, moved, delta);
      SamplesMoved(plan, core, later, rows[..|rows| - 1], moved[..|rows| - 1], delta, total, s);
      ClosesMoved(plan, core, later, rows, moved, delta, total, s);
      SamplesUnfold(core, s, rows);
      SamplesUnfold(later, s, moved);
    }
  }

  /** A report looks at the length of the span only. */
  lemma {:induction false} SpansAlike(group: Group, samples: Samples, span: Span, later: Span, delta: int)
    requires later == Span(PS.Later(span.first, delta), PS.Later(span.last, delta))
    ensures ReportSeries(group, samples, later) == ReportSeries(group, samples, span)
  {
  }

  lemma {:induction false} ReportMoved(plan: Plan, core: Core, later: Core, rows: seq<Row>, moved: seq<Row>,
                                       delta: int, s: Series)
    requires CoreMoved(core, later, delta) && Moved(rows, moved, delta) && AdmitAll(plan, core, rows, |rows|).Met?
    ensures ReportOf(later, s, moved) == ReportOf(core, s, rows)
  {
    SamplesMoved(plan, core, later, rows, moved, delta, |rows|, s);
    SeriesMoved(rows, moved, delta, s);
    SpansAlike(SeriesGroup(s, rows), SeriesSamples(core, s, rows), SeriesSpan(s, rows), SeriesSpan(s, moved), delta);
  }

  lemma {:induction false} EndMoved(core: Core, later: Core, rows: seq<Row>, moved: seq<Row>, delta: int,
                                    report: Report)
    requires CoreMoved(core, later, delta) && Moved(rows, moved, delta)
    ensures AdmitEnd(later, moved, report) == AdmitEnd(core, rows, report)
  {
    AllItemsMoved(core, later, rows, moved, delta);
    QueueMoved(rows, moved, delta);
    LanesMoved(core, later, rows, moved, delta);
    CountsMoved(rows, moved, delta);
    SeriesMoved(rows, moved, delta, Wait);
    SeriesMoved(rows, moved, delta, Source);
  }

  lemma {:induction false} PlannedMoved(plan: Plan, rows: seq<Row>, moved: seq<Row>, delta: int)
    requires Moved(rows, moved, delta)
    ensures PlannedCallsDone(plan, moved) == PlannedCallsDone(plan, rows)
  {
    forall lane ensures NextOrdinal(moved, lane) == NextOrdinal(rows, lane) {
      OrdinalMoved(rows, moved, delta, lane);
    }
  }

  lemma {:induction false} RowsMoved(plan: Plan, core: Core, later: Core, rows: seq<Row>, moved: seq<Row>, delta: int,
                                     report: Report)
    requires CoreMoved(core, later, delta) && Moved(rows, moved, delta)
    ensures RowsVerdict(plan, later, moved, report) == RowsVerdict(plan, core, rows, report)
  {
    AdmitMoved(plan, core, later, rows, moved, delta, |rows|);
    EndMoved(core, later, rows, moved, delta, report);
    PlannedMoved(plan, rows, moved, delta);
    CountsMoved(rows, moved, delta);
    AllItemsMoved(core, later, rows, moved, delta);
    if AdmitAll(plan, core, rows, |rows|).Met? {
      ReportMoved(plan, core, later, rows, moved, delta, Wait);
      ReportMoved(plan, core, later, rows, moved, delta, Source);
    }
  }

  /** Moving the parent clock in both logs leaves the paced verdict and its check unchanged. */
  lemma {:induction false} VerdictMoved(plan: Plan, parent: P.Trace, later: P.Trace, recording: P.Recording,
                                        rows: seq<Row>, moved: seq<Row>, delta: int, report: Report)
    requires PS.Moved(parent.rows, later.rows, delta) && parent.limits == later.limits
             && parent.maximumEvents == later.maximumEvents
    requires Moved(rows, moved, delta)
    ensures Verdict(plan, later, recording, moved, report) == Verdict(plan, parent, recording, rows, report)
  {
    PS.VerdictMoved(parent, later, recording, plan.limits, delta);
    CoresMoved(parent.rows, later.rows, delta);
    RowsMoved(plan, CoreOf(parent.rows), CoreOf(later.rows), rows, moved, delta, report);
  }
}
