/** The paced log against the parent trace it is bound to. */
module CrossLayer {
  import opened Wrappers
  import opened Clock
  import opened Counting
  import opened PacedTrace
  import opened PacedLaws
  import P = ParentTrace
  import L = ParentLaws

  // ---- measured funded calls, seen from the parent rows ---------------------------------

  /** Measured calls are numbered upwards, and each is either open or finished. */
  ghost predicate CallsMatch(core: Core, open: map<int, P.Begun>, begun: int) {
    && (forall i, j :: 0 <= i < j < |core.begins| ==> core.begins[i].observation < core.begins[j].observation)
    && (forall i :: 0 <= i < |core.begins| ==> 1 <= core.begins[i].observation <= begun)
    && (forall o :: o in core.finishes ==> Measured(core.begins, o) && o !in open)
    && (forall i :: 0 <= i < |core.begins| ==>
          var o := core.begins[i].observation;
          o in core.finishes || (o in open && open[o] == P.Begun(core.begins[i].at, P.FundedCall, P.Measurement)))
    && (forall o :: o in open && open[o].phase == P.FundedCall && open[o].cohort == P.Measurement ==>
       Measured(core.begins, o))
  }

  lemma {:induction false} CallsAlwaysMatch(limits: Limits, rows: seq<P.Row>, total: nat)
    requires L.Admitted(limits, rows, total)
    ensures CallsMatch(CoreOf(rows), P.Open(rows), P.Count(rows, P.IsBegin()))
  {
    if |rows| > 0 {
      var init, event := rows[..|rows| - 1], rows[|rows| - 1].event;
      CallsAlwaysMatch(limits, init, total);
      L.LiveStep(limits, rows, total);
      L.OpenKeys(limits, init, total);
      CallsStep(CoreOf(init), P.Open(init), P.Count(init, P.IsBegin()), event);
    }
  }

  lemma {:induction false} MeasuredAppend(begins: seq<CoreBegin>, more: CoreBegin, o: int)
    ensures Measured(begins + [more], o) <==> Measured(begins, o) || o == more.observation
  {
    if Measured(begins, o) {
      var i :| 0 <= i < |begins| && begins[i].observation == o;
      assert (begins + [more])[i].observation == o;
    }
    assert (begins + [more])[|begins|] == more;
  }

  lemma {:induction false} MeasuredAfter(core: Core, event: P.Event)
    requires event.Begin?
    ensures forall o :: Measured(CoreAfter(core, event).begins, o) <==>
                          Measured(core.begins, o) || (IsMeasuredCall(event) && o == event.observation)
  {
    forall o ensures Measured(CoreAfter(core, event).begins, o) <==>
                       Measured(core.begins, o) || (IsMeasuredCall(event) && o == event.observation) {
      MeasuredAppend(core.begins, CoreBegin(event.observation, event.at), o);
    }
  }

  /** The calls begun stay numbered, and open or finished. */
  lemma {:induction false} BegunCalls(core: Core, open: map<int, P.Begun>, begun: int, event: P.Event)
    requires CallsMatch(core, open, begun) && event.Begin? && event.observation == begun + 1 && 0 <= begun
    ensures var after, more := CoreAfter(core, event), P.OpenAfter(open, event);
            forall i :: 0 <= i < |after.begins| ==>
              var o := after.begins[i].observation;
              1 <= o <= begun + 1
              && (o in core.finishes
                  || (o in more && more[o] == P.Begun(after.begins[i].at, P.FundedCall, P.Measurement)))
  {
    var after := CoreAfter(core, event);
    assert forall i :: 0 <= i < |core.begins| ==> after.begins[i] == core.begins[i];
  }

  /** Finished calls are measured and closed, and every open measured call is counted. */
  lemma {:induction false} MeasuredCalls(core: Core, open: map<int, P.Begun>, begun: int, event: P.Event)
    requires CallsMatch(core, open, begun) && event.Begin? && event.observation == begun + 1
    ensures var after, more := CoreAfter(core, event), P.OpenAfter(open, event);
            && (forall o :: o in core.finishes ==> Measured(after.begins, o) && o !in more)
            && (forall o :: o in more && more[o].phase == P.FundedCall && more[o].cohort == P.Measurement ==>
               Measured(after.begins, o))
  {
    MeasuredAfter(core, event);
    forall o | o in core.finishes ensures o !in P.OpenAfter(open, event) {
      assert Measured(core.begins, o);
    }
  }

  lemma {:induction false} CallsBegin(core: Core, open: map<int, P.Begun>, begun: int, event: P.Event)
    requires CallsMatch(core, open, begun) && event.Begin? && event.observation == begun + 1
    requires forall o :: o in open ==> 1 <= o <= begun
    requires 0 <= begun
    ensures CallsMatch(CoreAfter(core, event), P.OpenAfter(open, event), begun + 1)
  {
    BegunCalls(core, open, begun, event);
    MeasuredCalls(core, open, begun, event);
  }

  lemma {:induction false} CallsFinish(core: Core, open: map<int, P.Begun>, begun: int, event: P.Event)
    requires CallsMatch(core, open, begun) && event.Finish? && event.observation in open
    ensures CallsMatch(CoreAfter(core, event), P.OpenAfter(open, event), begun)
  {
  }

  lemma {:induction false} CallsStep(core: Core, open: map<int, P.Begun>, begun: nat, event: P.Event)
    requires CallsMatch(core, open, begun)
    requires forall o :: o in open ==> 1 <= o <= begun
    requires event.Begin? ==> event.observation == begun + 1
    requires event.Finish? ==> event.observation in open
    ensures CallsMatch(CoreAfter(core, event), P.OpenAfter(open, event), begun + (if event.Begin? then 1 else 0))
  {
    if event.Begin? {
      CallsBegin(core, open, begun, event);
    } else if event.Finish? {
      CallsFinish(core, open, begun, event);
    }
  }

  // ---- latencies and outcomes of the measured calls -------------------------------------

  /** A figure of a finished call; an unfinished call counts nothing. */
  datatype Figure = Latency | Ended(outcome: Outcome)

  ghost function Value(figure: Figure, elapsed: int, outcome: Outcome): int {
    match figure
    case Latency => elapsed
    case Ended(o) => if o == outcome then 1 else 0
  }

  ghost function CallValue(finishes: map<int, CoreFinish>, figure: Figure): CoreBegin -> int {
    (b: CoreBegin) =>
      if b.observation in finishes then Value(figure, finishes[b.observation].at - b.at,
        finishes[b.observation].outcome) else 0
  }

  ghost function CallTotal(core: Core, figure: Figure): int {
    Total(core.begins, CallValue(core.finishes, figure))
  }

  /** The same figure as the parent replay keeps it. */
  ghost function ParentFigure(rows: seq<P.Row>, figure: Figure): int {
    match figure
    case Latency => Sum(P.SamplesOf(rows, P.Measurement, P.FundedCall).all)
    case Ended(Succeeded) => P.GroupOf(rows, P.Measurement, P.FundedCall).succeeded
    case Ended(Rejected) => P.GroupOf(rows, P.Measurement, P.FundedCall).rejected
  }

  lemma {:induction false} ParentFigureStep(rows: seq<P.Row>, figure: Figure)
    requires |rows| > 0
    ensures var init, event := rows[..|rows| - 1], rows[|rows| - 1].event;
            ParentFigure(rows, figure) == ParentFigure(init, figure)
              + (if P.SettlesIn(P.Open(init), event, P.Measurement, P.FundedCall)
                 then Value(figure, event.at - P.Open(init)[event.observation].at, event.outcome) else 0)
  {
    var init, event := rows[..|rows| - 1], rows[|rows| - 1].event;
    if P.SettlesIn(P.Open(init), event, P.Measurement, P.FundedCall) {
      SumAppend(P.SamplesOf(init, P.Measurement, P.FundedCall).all, event.at - P.Open(init)[event.observation].at);
    }
  }

  lemma {:induction false} CallTotalBegin(core: Core, open: map<int, P.Begun>, begun: int, event: P.Event,
                                          figure: Figure)
    requires CallsMatch(core, open, begun) && IsMeasuredCall(event) && event.observation == begun + 1
    ensures CallTotal(CoreAfter(core, event), figure) == CallTotal(core, figure)
  {
    TotalAppend(core.begins, CoreBegin(event.observation, event.at), CallValue(core.finishes, figure));
    assert !Measured(core.begins, event.observation);
  }

  lemma {:induction false} CallTotalFinish(core: Core, open: map<int, P.Begun>, begun: int, event: P.Event,
                                           figure: Figure)
    requires CallsMatch(core, open, begun) && event.Finish? && event.observation in open
    ensures CallTotal(CoreAfter(core, event), figure) == CallTotal(core, figure)
              + (if P.SettlesIn(open, event, P.Measurement, P.FundedCall)
                 then Value(figure, event.at - open[event.observation].at, event.outcome) else 0)
  {
    var after := CoreAfter(core, event);
    if Measured(core.begins, event.observation) {
      var k :| 0 <= k < |core.begins| && core.begins[k].observation == event.observation;
      assert open[event.observation] == P.Begun(core.begins[k].at, P.FundedCall, P.Measurement);
      TotalChange(core.begins, CallValue(core.finishes, figure), CallValue(after.finishes, figure), k);
    } else {
      assert after == core;
    }
  }

  /** The parent replay and the call table agree on every figure. */
  lemma {:induction false} CallFigures(limits: Limits, rows: seq<P.Row>, total: nat, figure: Figure)
    requires L.Admitted(limits, rows, total)
    ensures CallTotal(CoreOf(rows), figure) == ParentFigure(rows, figure)
  {
    if |rows| > 0 {
      var init, event := rows[..|rows| - 1], rows[|rows| - 1].event;
      CallFigures(limits, init, total, figure);
      CallsAlwaysMatch(limits, init, total);
      L.LiveStep(limits, rows, total);
      ParentFigureStep(rows, figure);
      if event.Finish? {
        CallTotalFinish(CoreOf(init), P.Open(init), P.Count(init, P.IsBegin()), event, figure);
      } else if IsMeasuredCall(event) {
        CallTotalBegin(CoreOf(init), P.Open(init), P.Count(init, P.IsBegin()), event, figure);
      }
    }
  }

  // ---- the same figures, seen from the paced requests -----------------------------------

  /** Each request carries the bracket and the outcome of its own call. */
  ghost predicate ItemsMatch(core: Core, items: seq<Item>) {
    |items| <= |core.begins|
    && forall i :: 0 <= i < |items| ==>
         var o := core.begins[i].observation;
         o in core.finishes && items[i].begin == core.begins[i].at
         && items[i].finish == core.finishes[o].at && items[i].outcome == core.finishes[o].outcome
  }

  lemma {:induction false} ItemsAlwaysMatch(plan: Plan, core: Core, rows: seq<Row>, total: nat)
    requires Admitted(plan, core, rows, total)
    ensures ItemsMatch(core, Items(core, rows))
  {
    if |rows| > 0 {
      ItemsAlwaysMatch(plan, core, rows[..|rows| - 1], total);
      AdmittedFits(plan, core, rows, total);
    }
  }

  ghost function ItemValue(figure: Figure): Item -> int {
    (item: Item) => Value(figure, item.finish - item.begin, item.outcome)
  }

  lemma {:induction false} ItemsTotal(core: Core, items: seq<Item>, n: nat, figure: Figure)
    requires ItemsMatch(core, items) && n <= |items|
    ensures Total(items[..n], ItemValue(figure)) == Total(core.begins[..n], CallValue(core.finishes, figure))
  {
    if n > 0 {
      ItemsTotal(core, items, n - 1, figure);
      assert items[..n][..n - 1] == items[..n - 1];
      assert core.begins[..n][..n - 1] == core.begins[..n - 1];
    }
  }

  // ---- wait and source latency inside the call latency -----------------------------------

  /** The part of a call's latency that its wait and source readings account for so far. */
  ghost function Spent(): Item -> int {
    (item: Item) => match item.state
      case Entered => item.sourceAt - item.waitAt
      case Done => item.finish - item.begin
      case Withheld => item.finish - item.begin
      case _ => 0
  }

  ghost function Recorded(core: Core, rows: seq<Row>): int {
    Sum(SeriesSamples(core, Wait, rows).all) + Sum(SeriesSamples(core, Source, rows).all)
  }

  lemma {:induction false} RecordedStep(core: Core, rows: seq<Row>)
    requires |rows| > 0
    ensures var init, event := rows[..|rows| - 1], rows[|rows| - 1].event;
            Recorded(core, rows) == Recorded(core, init)
              + (if Closes(Wait, event) then event.at - OpenedAt(Wait, Items(core, init), event) else 0)
              + (if Closes(Source, event) then event.at - OpenedAt(Source, Items(core, init), event) else 0)
  {
    var init, event := rows[..|rows| - 1], rows[|rows| - 1].event;
    if Closes(Wait, event) {
      SumAppend(SeriesSamples(core, Wait, init).all, event.at - OpenedAt(Wait, Items(core, init), event));
    } else if Closes(Source, event) {
      SumAppend(SeriesSamples(core, Source, init).all, event.at - OpenedAt(Source, Items(core, init), event));
    }
  }

  /** What the named request has spent grows by what the row records. */
  lemma {:induction false} SpentMove(core: Core, items: seq<Item>, event: Event, closing: Option<Event>)
    requires Timed(event) && 1 <= event.request <= |items|
    requires var item := items[event.request - 1];
             && Bracketed(item, closing, event.at) && event.at <= item.finish
             && (event.WaitBegin? ==> item.state == Reserved)
             && (event.Dispatch? ==> item.state == Waiting)
             && (event.SourceTerminal? ==> item.state == Entered)
             && (event.Withdraw? ==>
                InQueue(item.state) && event.recordedWait == (item.state == Waiting)
                && item.begin <= event.at)
    ensures |ItemsAfter(core, items, event)| == |items|
    ensures Spent()(ItemsAfter(core, items, event)[event.request - 1]) >= Spent()(items[event.request - 1])
              + (if Closes(Wait, event) then event.at - OpenedAt(Wait, items, event) else 0)
              + (if Closes(Source, event) then event.at - OpenedAt(Source, items, event) else 0)
  {
  }

  /** A row with a reading records no more than its request has spent. */
  lemma {:induction false} TimedSpends(plan: Plan, core: Core, rows: seq<Row>, total: nat)
    requires Admitted(plan, core, rows, total) && |rows| > 0 && Timed(rows[|rows| - 1].event)
    ensures var init, event := rows[..|rows| - 1], rows[|rows| - 1].event;
            var items := Items(core, init);
            && 1 <= event.request <= |items| == |ItemsAfter(core, items, event)|
            && Spent()(ItemsAfter(core, items, event)[event.request - 1]) >= Spent()(items[event.request - 1])
               + (if Closes(Wait, event) then event.at - OpenedAt(Wait, items, event) else 0)
               + (if Closes(Source, event) then event.at - OpenedAt(Source, items, event) else 0)
  {
    var init, event := rows[..|rows| - 1], rows[|rows| - 1].event;
    AdmittedFits(plan, core, rows, total);
    AdmittedReadings(plan, core, rows, total);
    AllBracketed(plan, core, init, total);
    var closing := ClosingRow(init, event.request);
    assert Bracketed(Items(core, init)[event.request - 1], closing, Now(init));
    if event.Withdraw? {
      WithdrawFits(plan, core, rows, total);
    }
    SpentMove(core, Items(core, init), event, closing);
  }

  /** What a row records was spent by the request it names. */
  lemma {:induction false} SpentStep(plan: Plan, core: Core, rows: seq<Row>, total: nat)
    requires Admitted(plan, core, rows, total) && |rows| > 0
    ensures var init, event := rows[..|rows| - 1], rows[|rows| - 1].event;
            Total(Items(core, rows), Spent()) >= Total(Items(core, init), Spent())
              + (if Closes(Wait, event) then event.at - OpenedAt(Wait, Items(core, init), event) else 0)
              + (if Closes(Source, event) then event.at - OpenedAt(Source, Items(core, init), event) else 0)
  {
    var init, event := rows[..|rows| - 1], rows[|rows| - 1].event;
    AdmittedFits(plan, core, rows, total);
    if !event.Finalize? {
      TotalMoves(core, Items(core, init), Fifo(init), Occupied(core, init), plan.lanes, event, Spent());
    }
    if Timed(event) {
      TimedSpends(plan, core, rows, total);
    }
  }

  /** Waiting and source time are parts of the call's time. */
  lemma {:induction false} RecordedWithinSpent(plan: Plan, core: Core, rows: seq<Row>, total: nat)
    requires Admitted(plan, core, rows, total)
    ensures Recorded(core, rows) <= Total(Items(core, rows), Spent())
  {
    if |rows| > 0 {
      var init := rows[..|rows| - 1];
      RecordedWithinSpent(plan, core, init, total);
      RecordedStep(core, rows);
      SpentStep(plan, core, rows, total);
    }
  }

  // ---- outcomes --------------------------------------------------------------------------

  ghost function DoneWith(outcome: Outcome): Item -> int {
    (item: Item) => if item.state == Done && item.outcome == outcome then 1 else 0
  }

  ghost function SourceEnded(rows: seq<Row>, outcome: Outcome): int {
    if outcome == Succeeded then SeriesGroup(Source, rows).succeeded else SeriesGroup(Source, rows).rejected
  }

  lemma {:induction false} DoneMoves(core: Core, items: seq<Item>, fifo: seq<int>, occupied: map<int, int>,
                                     lanes: nat, event: Event, outcome: Outcome)
    requires Fits(core, items, fifo, occupied, lanes, event) && !event.Finalize?
    requires Timed(event) ==> InBracket(items[event.request - 1], event)
    ensures Total(ItemsAfter(core, items, event), DoneWith(outcome)) ==
              Total(items, DoneWith(outcome)) + (if event.SourceTerminal? && event.outcome == outcome then 1 else 0)
  {
    TotalMoves(core, items, fifo, occupied, lanes, event, DoneWith(outcome));
  }

  /** A row ends at most one source call. */
  lemma {:induction false} DoneStep(plan: Plan, core: Core, rows: seq<Row>, total: nat, outcome: Outcome)
    requires Admitted(plan, core, rows, total) && |rows| > 0
    ensures var init, event := rows[..|rows| - 1], rows[|rows| - 1].event;
            Total(Items(core, rows), DoneWith(outcome)) ==
              Total(Items(core, init), DoneWith(outcome))
                + (if event.SourceTerminal? && event.outcome == outcome then 1 else 0)
  {
    var init, event := rows[..|rows| - 1], rows[|rows| - 1].event;
    AdmittedFits(plan, core, rows, total);
    if Timed(event) {
      AdmittedReadings(plan, core, rows, total);
    }
    if !event.Finalize? {
      DoneMoves(core, Items(core, init), Fifo(init), Occupied(core, init), plan.lanes, event, outcome);
    }
  }

  lemma {:induction false} SourceOutcomes(plan: Plan, core: Core, rows: seq<Row>, total: nat, outcome: Outcome)
    requires Admitted(plan, core, rows, total)
    ensures SourceEnded(rows, outcome) == Total(Items(core, rows), DoneWith(outcome))
  {
    if |rows| > 0 {
      SourceOutcomes(plan, core, rows[..|rows| - 1], total, outcome);
      DoneStep(plan, core, rows, total, outcome);
    }
  }

  /** Only rejected calls are withheld. */
  lemma {:induction false} WithheldRejected(plan: Plan, core: Core, rows: seq<Row>, total: nat)
    requires Admitted(plan, core, rows, total)
    ensures forall k :: 0 <= k < |Items(core, rows)| && Items(core, rows)[k].state == Withheld ==>
            Items(core, rows)[k].outcome == Rejected
  {
    if |rows| > 0 {
      WithheldRejected(plan, core, rows[..|rows| - 1], total);
      AdmittedFits(plan, core, rows, total);
      if Timed(rows[|rows| - 1].event) {
        AdmittedReadings(plan, core, rows, total);
      }
    }
  }

  /** When nothing is pending, a request ended in the source or was withheld as rejected. */
  lemma {:induction false} OutcomesSplit(items: seq<Item>, outcome: Outcome)
    requires forall k :: 0 <= k < |items| ==>
             items[k].state == Done
             || (items[k].state == Withheld && items[k].outcome == Rejected)
    ensures Total(items, ItemValue(Ended(outcome))) ==
              Total(items, DoneWith(outcome)) + (if outcome == Rejected then InState(items, Withheld) else 0)
  {
    if |items| > 0 {
      OutcomesSplit(items[..|items| - 1], outcome);
    }
  }

  lemma {:induction false} SpentIsLatency(items: seq<Item>)
    requires forall k :: 0 <= k < |items| ==> items[k].state == Done || items[k].state == Withheld
    ensures Total(items, Spent()) == Total(items, ItemValue(Latency))
  {
    TotalSame(items, Spent(), ItemValue(Latency));
  }

  /** At the end every request was served or withheld, and only rejected calls were withheld. */
  lemma {:induction false} AllEnded(plan: Plan, core: Core, rows: seq<Row>, total: nat)
    requires Admitted(plan, core, rows, total) && Fifo(rows) == [] && Occupied(core, rows) == map[]
    ensures forall k :: 0 <= k < |Items(core, rows)| ==>
              Items(core, rows)[k].state == Done
              || (Items(core, rows)[k].state == Withheld && Items(core, rows)[k].outcome == Rejected)
  {
    NothingPending(plan, core, rows, total);
    WithheldRejected(plan, core, rows, total);
    NoneInState(Items(core, rows), Reserved);
    NoneInState(Items(core, rows), Waiting);
    NoneInState(Items(core, rows), Entered);
  }

  /** On an accepted pair of logs: the queue waits and source latencies fit inside the measured call
      latencies of the parent, core successes are source successes, and core rejections are source
      rejections and withdrawals. */
  lemma {:induction false} CallsConserved(plan: Plan, parent: P.Trace, recording: P.Recording, rows: seq<Row>,
                                          report: Report)
    requires Verdict(plan, parent, recording, rows, report).Success?
    ensures var core, calls := CoreOf(parent.rows), P.GroupOf(parent.rows, P.Measurement, P.FundedCall);
            && Recorded(core, rows) <= Sum(P.SamplesOf(parent.rows, P.Measurement, P.FundedCall).all)
            && calls.succeeded == report.dispatched.group.succeeded
            && calls.rejected == report.dispatched.group.rejected + report.preEntryWithheld
  {
    var core, total := CoreOf(parent.rows), |rows|;
    var items := Items(core, rows);
    AllEnded(plan, core, rows, total);
    SourceOutcomes(plan, core, rows, total, Succeeded);
    SourceOutcomes(plan, core, rows, total, Rejected);
    OutcomesSplit(items, Succeeded);
    OutcomesSplit(items, Rejected);
    StatesCounted(plan, core, rows, total);
    SpentIsLatency(items);
    RecordedWithinSpent(plan, core, rows, total);
    CallsAgree(plan, parent, recording, rows, report, Latency);
    CallsAgree(plan, parent, recording, rows, report, Ended(Succeeded));
    CallsAgree(plan, parent, recording, rows, report, Ended(Rejected));
  }

  lemma {:induction false} CallsAgree(plan: Plan, parent: P.Trace, recording: P.Recording, rows: seq<Row>,
                                      report: Report, figure: Figure)
    requires Verdict(plan, parent, recording, rows, report).Success?
    ensures Total(Items(CoreOf(parent.rows), rows), ItemValue(figure)) == ParentFigure(parent.rows, figure)
  {
    var core := CoreOf(parent.rows);
    var items := Items(core, rows);
    ItemsAlwaysMatch(plan, core, rows, |rows|);
    ItemsTotal(core, items, |items|, figure);
    assert items[..|items|] == items && core.begins[..|items|] == core.begins;
    CallFigures(parent.limits, parent.rows, |parent.rows|, figure);
  }
}
