/** The paced checker as it runs: requests, lanes and the queue are updated in place, row by row. */
module PacedReplay {
  import opened Wrappers
  import opened Clock
  import opened Recorder
  import opened PacedTrace
  import opened PacedTables
  import S = LazySeries
  import P = ParentTrace
  import R = ParentReplay

  /** The variables of the pass over the rows; the two series are objects of their own. */
  class Replay {
    const plan: Plan
    const core: Core
    const total: nat
    ghost var seen: seq<Row>
    var requests: seq<Item>
    var occupied: map<int, int>
    var ordinals: map<int, int>
    var fifo: seq<int>
    var peak: int
    var progress: Progress
    const wait: S.Series
    const source: S.Series

    ghost function Tables(): Dispatcher
      reads this
    {
      Dispatcher(requests, occupied, fifo, ordinals, peak)
    }

    ghost function State(x: S.Series): SeriesState
      reads x
    {
      SeriesState(x.Figures(), x.eager, x.Spanned())
    }

    ghost predicate ValidSeries(s: Series, x: S.Series)
      reads this, x
    {
      x.Valid() && State(x) == SeriesOf(core, s, seen)
    }

    ghost predicate Valid()
      reads this, wait, source
    {
      && wait != source && ValidSeries(Wait, wait) && ValidSeries(Source, source)
      && Tables() == DispatcherOf(core, seen)
      && requests == Items(core, seen) && progress == ProgressOf(seen)
    }

    /** The tables as admission reads them. */
    ghost predicate Linked()
      reads this, wait, source
    {
      && occupied == Occupied(core, seen) && fifo == Fifo(seen) && progress.lastStart == LastStart(Starts(seen))
      && wait.active == SeriesGroup(Wait, seen).active && source.active == SeriesGroup(Source, seen).active
    }

    constructor (plan: Plan, core: Core, total: nat)
      ensures Valid() && seen == [] && this.plan == plan && this.core == core && this.total == total
      ensures fresh(wait) && fresh(source)
    {
      this.plan, this.core, this.total, seen := plan, core, total, [];
      requests, occupied, ordinals, fifo, peak, progress := [], map[], map[], [], 0, NO_PROGRESS;
      wait := new S.Series();
      source := new S.Series();
    }

    /** May the lane request its next call? */
    method CheckRequest(event: Event) returns (r: Requirement<Code>)
      requires Valid() && Linked() && event.Request?
      ensures r == AdmitRequest(plan, core, seen, event.request, event.lane, event.ordinal)
    {
      if event.request != |requests| + 1 {
        return Refused(RequestOrder);
      }
      if !(0 <= event.lane <= plan.lanes - 1) {
        return Refused(LaneIndex);
      }
      if !(0 <= event.ordinal <= plan.measurementCallsPerLane - 1) {
        return Refused(OriginalOrdinal);
      }
      OrdinalCell(core, seen, event.lane);
      if !(|requests| < plan.limits.maxSamplesPerPhase && event.lane !in occupied
           && event.ordinal == Ordinal(ordinals, event.lane) && event.request <= |core.begins|) {
        return Refused(NonoverlapAndOriginal);
      }
      if core.begins[event.request - 1].observation !in core.finishes {
        return Refused(CoreFinishMissing);
      }
      return Require(|fifo| + 1 <= plan.lanes, QueueBound);
    }

    /** The request takes its lane, its ordinal and its place in the queue. */
    method Enqueue(event: Event)
      requires event.Request? && 1 <= event.request <= |core.begins|
      requires core.begins[event.request - 1].observation in core.finishes
      modifies this`requests, this`occupied, this`ordinals, this`fifo, this`peak
      ensures Tables() == DispatcherAfter(core, old(Tables()), event)
    {
      var request, lane := event.request, event.lane;
      var original := core.begins[request - 1];
      var finish := core.finishes[original.observation];
      requests := requests + [Item(Reserved, lane, original.at, finish.at, finish.outcome, 0, 0)];
      occupied := occupied[lane := request];
      ordinals := ordinals[lane := event.ordinal + 1];
      fifo := fifo + [request];
      peak := Max(peak, |fifo|);
    }

    method TakeRequest(row: Row)
      requires Valid() && row.event.Request? && 1 <= row.event.request <= |core.begins|
      requires core.begins[row.event.request - 1].observation in core.finishes
      modifies this
      ensures Valid() && seen == old(seen) + [row]
    {
      Enqueue(row.event);
      TablesStep(core, seen, row);
      seen := seen + [row];
    }

    method OnRequest(row: Row) returns (r: Requirement<Code>)
      requires Valid() && Linked() && row.event.Request?
      modifies this
      ensures r == AdmitEvent(plan, core, old(seen), row.event, |old(seen)| + 1 == total)
      ensures r.Met? ==> Valid() && seen == old(seen) + [row]
    {
      r := CheckRequest(row.event);
      if r.Met? {
        TakeRequest(row);
      }
    }

    /** The wait of a reserved request begins. */
    method OnWaitBegin(row: Row) returns (r: Requirement<Code>)
      requires Valid() && Linked() && row.event.WaitBegin?
      modifies this, wait
      ensures r == AdmitEvent(plan, core, old(seen), row.event, |old(seen)| + 1 == total)
      ensures r.Met? ==> Valid() && seen == old(seen) + [row]
    {
      var request, at := row.event.request, row.event.at;
      r := KnownRequest(requests, request);
      if r.Refused? {
        return;
      }
      var item := requests[request - 1];
      if !(item.state == Reserved && item.begin <= at <= item.finish) {
        return Refused(WaitBracket);
      }
      TakeWait(row);
    }

    method StartWait(event: Event)
      requires event.WaitBegin? && 1 <= event.request <= |requests|
      modifies this`requests
      ensures Tables() == DispatcherAfter(core, old(Tables()), event)
    {
      requests := requests[event.request - 1 := requests[event.request - 1].(state := Waiting, waitAt := event.at)];
    }

    method TakeWait(row: Row)
      requires Valid() && row.event.WaitBegin? && 1 <= row.event.request <= |requests|
      modifies this, wait
      ensures Valid() && seen == old(seen) + [row]
    {
      StartWait(row.event);
      wait.Begin(row.event.at);
      progress := ProgressAfter(progress, row.event);
      seen := seen + [row];
      assert seen[..|seen| - 1] == old(seen);
    }

    /** May the waiting request be dispatched: is it the oldest, inside its bracket and a gap after the last start? */
    method CheckDispatch(event: Event) returns (r: Requirement<Code>)
      requires Valid() && Linked() && event.Dispatch?
      ensures r == AdmitEvent(plan, core, seen, event, |seen| + 1 == total)
      ensures r.Met? ==>
              1 <= event.request <= |requests| && |fifo| > 0
              && event.at >= requests[event.request - 1].waitAt && wait.active > 0
    {
      r := KnownRequest(requests, event.request);
      if r.Refused? {
        return;
      }
      var item := requests[event.request - 1];
      if !(item.state == Waiting && AtHead(fifo, event.request) && item.begin <= event.at <= item.finish
           && (progress.lastStart.None? || event.at - progress.lastStart.value >= plan.Gap())) {
        return Refused(DispatchBracket);
      }
      return Require(event.at >= item.waitAt && wait.active > 0, SeriesTerminalOrder);
    }

    /** The wait ends: by a dispatch or by a withdrawal. */
    method SettleWait(event: Event)
      requires wait.Valid() && Closes(Wait, event) && 1 <= event.request <= |requests|
      requires event.at >= requests[event.request - 1].waitAt && wait.active > 0
      modifies wait
      ensures wait.Valid() && State(wait) == SeriesAfter(old(State(wait)), Wait, requests, event)
    {
      var settled := wait.Terminal(requests[event.request - 1].waitAt, event.at, ClosingOutcome(event));
    }

    /** The source call begins. */
    method OpenSource(event: Event)
      requires source.Valid() && event.Dispatch?
      modifies source
      ensures source.Valid() && State(source) == SeriesAfter(old(State(source)), Source, requests, event)
    {
      source.Begin(event.at);
    }

    /** The source call ends. */
    method SettleSource(event: Event)
      requires source.Valid() && event.SourceTerminal? && 1 <= event.request <= |requests|
      requires event.at >= requests[event.request - 1].sourceAt && source.active > 0
      modifies source
      ensures source.Valid() && State(source) == SeriesAfter(old(State(source)), Source, requests, event)
    {
      var settled := source.Terminal(requests[event.request - 1].sourceAt, event.at, event.outcome);
    }

    /** The oldest request leaves the queue for its source call. */
    method LeaveQueue(event: Event)
      requires event.Dispatch? && 1 <= event.request <= |requests| && |fifo| > 0
      modifies this`fifo, this`requests
      ensures Tables() == DispatcherAfter(core, old(Tables()), event)
    {
      fifo := fifo[1..];
      requests := requests[event.request - 1 := requests[event.request - 1].(sourceAt := event.at, state := Entered)];
    }

    /** The request gives its lane back, after its source call or withheld from it. */
    method FreeLane(event: Event)
      requires event.SourceTerminal? || (event.Withdraw? && |fifo| > 0)
      requires 1 <= event.request <= |requests|
      modifies this`fifo, this`requests, this`occupied
      ensures Tables() == DispatcherAfter(core, old(Tables()), event)
    {
      var item := requests[event.request - 1];
      if event.Withdraw? {
        fifo := fifo[1..];
        requests := requests[event.request - 1 := item.(state := Withheld)];
      } else {
        requests := requests[event.request - 1 := item.(state := Done)];
      }
      occupied := occupied - {item.lane};
    }

    method TakeDispatch(row: Row)
      requires Valid() && row.event.Dispatch? && 1 <= row.event.request <= |requests| && |fifo| > 0
      requires row.event.at >= requests[row.event.request - 1].waitAt && wait.active > 0
      modifies this, wait, source
      ensures Valid() && seen == old(seen) + [row]
    {
      SettleWait(row.event);
      OpenSource(row.event);
      LeaveQueue(row.event);
      progress := ProgressAfter(progress, row.event);
      seen := seen + [row];
      assert seen[..|seen| - 1] == old(seen);
    }

    method OnDispatch(row: Row) returns (r: Requirement<Code>)
      requires Valid() && Linked() && row.event.Dispatch?
      modifies this, wait, source
      ensures r == AdmitEvent(plan, core, old(seen), row.event, |old(seen)| + 1 == total)
      ensures r.Met? ==> Valid() && seen == old(seen) + [row]
    {
      r := CheckDispatch(row.event);
      if r.Met? {
        TakeDispatch(row);
      }
    }

    /** May the source call end: inside its bracket, with the outcome of the core call? */
    method CheckTerminal(event: Event) returns (r: Requirement<Code>)
      requires Valid() && Linked() && event.SourceTerminal?
      ensures r == AdmitEvent(plan, core, seen, event, |seen| + 1 == total)
      ensures r.Met? ==>
              1 <= event.request <= |requests| && event.at >= requests[event.request - 1].sourceAt
              && source.active > 0
    {
      r := KnownRequest(requests, event.request);
      if r.Refused? {
        return;
      }
      var item := requests[event.request - 1];
      if !(item.state == Entered && event.outcome == item.outcome && item.sourceAt <= event.at <= item.finish) {
        return Refused(TerminalBracket);
      }
      return Require(event.at >= item.sourceAt && source.active > 0, SeriesTerminalOrder);
    }

    method TakeTerminal(row: Row)
      requires Valid() && row.event.SourceTerminal? && 1 <= row.event.request <= |requests|
      requires row.event.at >= requests[row.event.request - 1].sourceAt && source.active > 0
      modifies this, source
      ensures Valid() && seen == old(seen) + [row]
    {
      SettleSource(row.event);
      FreeLane(row.event);
      progress := ProgressAfter(progress, row.event);
      seen := seen + [row];
      assert seen[..|seen| - 1] == old(seen);
    }

    method OnSourceTerminal(row: Row) returns (r: Requirement<Code>)
      requires Valid() && Linked() && row.event.SourceTerminal?
      modifies this, source
      ensures r == AdmitEvent(plan, core, old(seen), row.event, |old(seen)| + 1 == total)
      ensures r.Met? ==> Valid() && seen == old(seen) + [row]
    {
      r := CheckTerminal(row.event);
      if r.Met? {
        TakeTerminal(row);
      }
    }

    /** May the request be withdrawn: queued, oldest, inside the bracket of a rejected call? */
    method CheckWithdraw(event: Event) returns (r: Requirement<Code>)
      requires Valid() && Linked() && event.Withdraw?
      ensures r == AdmitEvent(plan, core, seen, event, |seen| + 1 == total)
      ensures r.Met? ==> 1 <= event.request <= |requests| && |fifo| > 0
                         && (event.recordedWait ==> event.at >= requests[event.request - 1].waitAt && wait.active > 0)
    {
      r := KnownRequest(requests, event.request);
      if r.Refused? {
        return;
      }
      var item := requests[event.request - 1];
      if !((item.state == Reserved || item.state == Waiting) && event.recordedWait == (item.state == Waiting)
           && AtHead(fifo, event.request) && item.begin <= event.at <= item.finish && item.outcome == Rejected) {
        return Refused(WithdrawBracket);
      }
      if event.recordedWait {
        return Require(event.at >= item.waitAt && wait.active > 0, SeriesTerminalOrder);
      }
      return Met;
    }

    method TakeWithdraw(row: Row)
      requires Valid() && row.event.Withdraw? && 1 <= row.event.request <= |requests| && |fifo| > 0
      requires row.event.recordedWait ==> row.event.at >= requests[row.event.request - 1].waitAt && wait.active > 0
      modifies this, wait
      ensures Valid() && seen == old(seen) + [row]
    {
      if row.event.recordedWait {
        SettleWait(row.event);
      }
      FreeLane(row.event);
      progress := ProgressAfter(progress, row.event);
      seen := seen + [row];
      assert seen[..|seen| - 1] == old(seen);
    }

    method OnWithdraw(row: Row) returns (r: Requirement<Code>)
      requires Valid() && Linked() && row.event.Withdraw?
      modifies this, wait
      ensures r == AdmitEvent(plan, core, old(seen), row.event, |old(seen)| + 1 == total)
      ensures r.Met? ==> Valid() && seen == old(seen) + [row]
    {
      r := CheckWithdraw(row.event);
      if r.Met? {
        TakeWithdraw(row);
      }
    }

    /** The log ends. */
    method OnFinalize(row: Row, index: nat) returns (r: Requirement<Code>)
      requires Valid() && row.event.Finalize? && index == |seen|
      modifies this
      ensures r == AdmitEvent(plan, core, old(seen), row.event, |old(seen)| + 1 == total)
      ensures r.Met? ==> Valid() && seen == old(seen) + [row]
    {
      if index + 1 != total {
        return Refused(FinalizeOrder);
      }
      progress := progress.(finalized := true);
      seen := seen + [row];
      assert seen[..|seen| - 1] == old(seen);
      return Met;
    }

    /** The branch of the row's kind. */
    method Branch(row: Row, index: nat) returns (r: Requirement<Code>)
      requires Valid() && Linked() && index == |seen|
      modifies this, wait, source
      ensures r == AdmitEvent(plan, core, old(seen), row.event, |old(seen)| + 1 == total)
      ensures r.Met? ==> Valid() && seen == old(seen) + [row]
    {
      match row.event {
        case Request(_, _, _) => r := OnRequest(row);
        case WaitBegin(_, _) => r := OnWaitBegin(row);
        case Dispatch(_, _) => r := OnDispatch(row);
        case SourceTerminal(_, _, _) => r := OnSourceTerminal(row);
        case Withdraw(_, _, _) => r := OnWithdraw(row);
        case Finalize => r := OnFinalize(row, index);
      }
    }

    /** One row: its place in the log and on the clock, then the branch of its kind. */
    method Accept(row: Row, index: nat) returns (r: Requirement<Code>)
      requires Valid() && index == |seen|
      modifies this, wait, source
      ensures r == Admit(plan, core, old(seen), row, total)
      ensures r.Met? ==> Valid() && seen == old(seen) + [row]
    {
      Link();
      if progress.finalized {
        return Refused(EventAfterFinalize);
      }
      if row.sequence != index + 1 {
        return Refused(EventSequence);
      }
      if Timed(row.event) && progress.previous.Some? && progress.previous.value > row.event.at {
        return Refused(ClockOrder);
      }
      r := Branch(row, index);
    }

    lemma {:induction false} Link()
      requires Valid()
      ensures Linked()
      ensures progress.finalized == (Count(seen, IsFinalize()) > 0) && progress.previous == Previous(seen)
      ensures progress.entries == Count(seen, IsDispatch()) && progress.withdrawn == Count(seen, IsWithdraw())
              && peak == PeakQueue(seen)
    {
      DispatcherCell(core, seen);
      ProgressCell(seen);
      SeriesCell(core, Wait, seen);
      SeriesCell(core, Source, seen);
    }

    /** The pass over all rows, up to the first refusal. */
    method Run(rows: seq<Row>) returns (r: Requirement<Code>)
      requires Valid() && seen == [] && total == |rows|
      modifies this, wait, source
      ensures r == AdmitAll(plan, core, rows, total)
      ensures r.Met? ==> Valid() && seen == rows
    {
      var index := 0;
      while index < |rows|
        invariant 0 <= index <= |rows| && Valid() && seen == rows[..index] && AdmitAll(plan, core, seen, total).Met?
      {
        NextRow(plan, core, rows, index, total);
        r := Accept(rows[index], index);
        if r.Refused? {
          RefusalStays(plan, core, rows, index + 1, total);
          return;
        }
        index := index + 1;
      }
      assert rows[..index] == rows;
      return Met;
    }

    /** Whether every lane has used all its ordinals. */
    method PlannedCallsCompleted() returns (done: bool)
      requires Valid()
      ensures done == PlannedCallsDone(plan, seen)
    {
      var lane := 0;
      while lane < plan.lanes
        invariant 0 <= lane <= plan.lanes
        invariant forall k :: 0 <= k < lane ==> NextOrdinal(seen, k) == plan.measurementCallsPerLane
      {
        OrdinalCell(core, seen, lane);
        if Ordinal(ordinals, lane) != plan.measurementCallsPerLane {
          return false;
        }
        lane := lane + 1;
      }
      return true;
    }

    /** The counters at the end against the report supplied. */
    method CheckEnd(report: Report) returns (r: Requirement<Code>)
      requires Valid()
      ensures r == AdmitEnd(core, seen, report)
    {
      Link();
      return Require(
        && progress.finalized && fifo == [] && occupied == map[] && wait.active == 0 && source.active == 0
        && |core.begins| == |requests| == report.requestedMeasuredCalls
           && progress.entries == report.sourceExecuteEntries
        && progress.withdrawn == report.preEntryWithheld && peak == report.peakQueuedCalls, TerminalCounters);
    }

    /** The rebuilt reports of the two series. */
    method Reports() returns (queueWait: SeriesReport, dispatched: SeriesReport)
      requires Valid()
      ensures queueWait == ReportOf(core, Wait, seen) && dispatched == ReportOf(core, Source, seen)
    {
      SeriesCell(core, Wait, seen);
      SeriesCell(core, Source, seen);
      queueWait := wait.Report();
      dispatched := source.Report();
    }
  }

  lemma {:induction false} RefusalStays(plan: Plan, core: Core, rows: seq<Row>, k: nat, total: nat)
    requires k <= |rows| && AdmitAll(plan, core, rows[..k], total).Refused?
    ensures AdmitAll(plan, core, rows, total) == AdmitAll(plan, core, rows[..k], total)
  {
    if k < |rows| {
      assert rows[..|rows| - 1][..k] == rows[..k];
      RefusalStays(plan, core, rows[..|rows| - 1], k, total);
    } else {
      assert rows[..k] == rows;
    }
  }

  /** An admitted prefix goes on to the next row. */
  lemma {:induction false} NextRow(plan: Plan, core: Core, rows: seq<Row>, k: nat, total: nat)
    requires k < |rows| && AdmitAll(plan, core, rows[..k], total).Met?
    ensures rows[..k] + [rows[k]] == rows[..k + 1]
    ensures AdmitAll(plan, core, rows[..k + 1], total) == Admit(plan, core, rows[..k], rows[k], total)
  {
    assert rows[..k + 1][..k] == rows[..k];
  }

  /** The funded calls that the parent rows measured, collected in one pass. */
  method CollectCalls(rows: seq<P.Row>) returns (core: Core)
    ensures core == CoreOf(rows)
  {
    core := Core([], map[]);
    ghost var seen: seq<P.Row> := [];
    for index := 0 to |rows|
      invariant seen == rows[..index] && core == CoreOf(seen)
    {
      core := CoreAfter(core, rows[index].event);
      seen := seen + [rows[index]];
      assert seen[..index] == rows[..index];
    }
    assert rows[..|rows|] == rows;
  }

  method CheckRows(plan: Plan, core: Core, rows: seq<Row>, report: Report) returns (r: Result<Check, Code>)
    ensures r == RowsVerdict(plan, core, rows, report)
  {
    if !(1 <= |rows| <= 4 * plan.limits.maxSamplesPerPhase + 1) {
      return Failure(EventArray);
    }
    var pass := new Replay(plan, core, |rows|);
    var admitted := pass.Run(rows);
    if admitted.Refused? {
      return Failure(admitted.code);
    }
    var ended := pass.CheckEnd(report);
    if ended.Refused? {
      return Failure(ended.code);
    }
    var done := pass.PlannedCallsCompleted();
    if report.plannedCallsCompleted != done {
      return Failure(PlannedCalls);
    }
    var queueWait, dispatched := pass.Reports();
    if !(report.queueWait == queueWait && report.dispatched == dispatched) {
      return Failure(RecorderFieldsMismatch);
    }
    pass.Link();
    return Success(Check(|rows|, |pass.requests|, pass.progress.entries, pass.progress.withdrawn));
  }

  /** The paced checker: its passes over the parent and the paced rows reach the verdict that the
      declarative figures define. */
  method CheckPaced(plan: Plan, parent: P.Trace, recording: P.Recording, rows: seq<Row>,
                    report: Report) returns (r: Result<Check, Code>)
    ensures r == Verdict(plan, parent, recording, rows, report)
  {
    var planned := AdmitPlan(plan);
    if planned.Refused? {
      return Failure(planned.code);
    }
    var reported := AdmitReport(plan, report);
    if reported.Refused? {
      return Failure(reported.code);
    }
    var checked := R.CheckParent(parent, recording, plan.limits);
    if checked.Failure? {
      return Failure(ParentRefused(checked.error));
    }
    var core := CollectCalls(parent.rows);
    r := CheckRows(plan, core, rows, report);
  }
}
