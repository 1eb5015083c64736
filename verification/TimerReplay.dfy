/** The timer checker as it runs: one cursor over the paced rows, one slot for the live timer. */
module TimerReplay {
  import opened Wrappers
  import Counting
  import opened TimerTrace
  import opened TimerTables
  import Q = PacedTrace
  import L = TimerLaws

  /** The variables of the pass. `steps` is the merged reading so far. */
  class Replay {
    const plan: Q.Plan
    const paced: seq<Q.Row>
    ghost var steps: seq<Step>
    var cursor: nat
    var slot: Slot
    var counts: Counts

    ghost predicate Valid()
      reads this
    {
      slot == SlotOf(steps) && counts == CountsOf(steps) && cursor <= |paced|
    }

    constructor (plan: Q.Plan, paced: seq<Q.Row>)
      ensures Valid() && steps == [] && cursor == 0 && this.plan == plan && this.paced == paced
    {
      this.plan, this.paced, steps := plan, paced, [];
      cursor, slot, counts := 0, EMPTY_SLOT, NO_COUNTS;
    }

    /** Keep the shared clock; refuses a reading that runs backwards. */
    method Observe(at: int) returns (ordered: bool)
      modifies this`slot
      ensures ordered == (old(slot).latest.Some? ==> old(slot).latest.value <= at)
      ensures slot == if ordered then old(slot).(latest := Some(at)) else old(slot)
    {
      ordered := slot.latest.None? || slot.latest.value <= at;
      if ordered {
        slot := slot.(latest := Some(at));
      }
    }

    /** May the paced row under the cursor be read now? */
    method MayRead(row: Q.Row) returns (r: Requirement<Code>)
      requires Valid()
      ensures r == AdmitPaced(plan, steps, row)
    {
      SlotCell(steps);
      if slot.expected.Some? && !row.event.Dispatch? {
        return Refused(FireNextMustDispatch);
      }
      if Q.Timed(row.event) && slot.latest.Some? && slot.latest.value > row.event.at {
        return Refused(SharedClockOrder);
      }
      if row.event.Dispatch? {
        if slot.active.Some? {
          return Refused(NoDispatchWithLiveTimer);
        }
        if slot.expected.Some? && slot.expected.value != row.event.at {
          return Refused(FireDispatchBinding);
        }
      }
      return Require(0 <= slot.queued + QueueChange(row.event) <= plan.lanes, CrossBoundQueue);
    }

    /** Read it: the queue, the clock and the last dispatch move on. */
    method ReadPaced(row: Q.Row)
      requires Valid() && cursor < |paced|
      modifies this
      ensures Valid() && steps == old(steps) + [Paced(row)] && cursor == old(cursor) + 1
    {
      cursor := cursor + 1;
      if Q.Timed(row.event) {
        slot := slot.(latest := Some(row.event.at));
      }
      slot := slot.(queued := slot.queued + QueueChange(row.event));
      if row.event.Dispatch? {
        slot := slot.(lastDispatch := Some(row.event.at), expected := None);
      }
      steps := steps + [Paced(row)];
      assert steps[..|steps| - 1] == old(steps);
    }

    /** Move the cursor to the anchor of the next timer row. */
    method Advance(anchor: nat) returns (r: Requirement<Code>)
      requires Valid() && cursor <= anchor <= |paced|
      modifies this
      ensures r == AdmitAdvance(plan, old(steps), paced[old(cursor)..anchor])
      ensures r.Met? ==> Valid() && steps == old(steps) + PacedSteps(paced[old(cursor)..anchor]) && cursor == anchor
    {
      ghost var before, part := steps, paced[cursor..anchor];
      NothingRead(plan, before, part);
      r := ReadPart(anchor, before, part);
      if r.Met? {
        AllRead(plan, before, part, steps);
      }
    }

    /** The steps of the cursor. */
    method ReadPart(anchor: nat, ghost before: seq<Step>, ghost part: seq<Q.Row>) returns (r: Requirement<Code>)
      requires Valid() && cursor <= anchor <= |paced| && part == paced[cursor..anchor]
               && Advanced(plan, before, part, 0, steps)
      modifies this
      ensures r.Refused? ==> r == AdmitAdvance(plan, before, part)
      ensures r.Met? ==> Valid() && cursor == anchor && Advanced(plan, before, part, |part|, steps)
    {
      ghost var from := cursor;
      while cursor < anchor
        invariant from <= cursor <= anchor && Valid() && Advanced(plan, before, part, cursor - from, steps)
      {
        r := ReadNext(before, part, cursor - from);
        if r.Refused? {
          return;
        }
      }
      return Met;
    }

    /** One step of the cursor. */
    method ReadNext(ghost before: seq<Step>, ghost part: seq<Q.Row>, ghost n: nat) returns (r: Requirement<Code>)
      requires Valid() && cursor < |paced| && n < |part| && part[n] == paced[cursor]
               && Advanced(plan, before, part, n, steps)
      modifies this
      ensures r.Refused? ==> r == AdmitAdvance(plan, before, part)
      ensures r.Met? ==> Valid() && cursor == old(cursor) + 1 && Advanced(plan, before, part, n + 1, steps)
    {
      NextPaced(plan, before, part, n);
      r := MayRead(paced[cursor]);
      if r.Refused? {
        AdvanceRefusalStays(plan, before, part, n + 1);
        return;
      }
      ReadPaced(paced[cursor]);
    }

    /** A timer is set, on the anchor of the last dispatch. */
    method OnArm(event: Event) returns (r: Requirement<Code>)
      requires Valid() && event.Arm?
      modifies this
      ensures r == AdmitTimer(plan, old(steps), event, true)
      ensures r.Met? ==> Valid() && steps == old(steps) + [Timer(event)] && cursor == old(cursor)
    {
      SlotCell(steps);
      CountsCell(steps);
      if event.timer != counts.attempts + 1 {
        return Refused(AttemptOrdinal);
      }
      if !(1 <= event.delayMs <= plan.minimumStartGapMs) {
        return Refused(DelayBound);
      }
      if !(slot.active.None? && slot.expected.None? && slot.queued > 0 && slot.lastDispatch.Some?
           && event.due == slot.lastDispatch.value + plan.Gap() && event.at < event.due
           && event.delayMs == CeilingDelay(event.due, event.at) && counts.attempts < plan.limits.maxSamplesPerPhase) {
        return Refused(DueAnchorDelayOrLiveSlot);
      }
      var ordered := Observe(event.at);
      if !ordered {
        return Refused(SharedClockOrder);
      }
      slot := slot.(active := Some(Live(event.timer, event.due, false)));
      counts := counts.(attempts := counts.attempts + 1);
      steps := steps + [Timer(event)];
      assert steps[..|steps| - 1] == old(steps);
      return Met;
    }

    /** The registration of the live timer returns. */
    method OnArmed(event: Event) returns (r: Requirement<Code>)
      requires Valid() && event.Armed?
      modifies this
      ensures r == AdmitTimer(plan, old(steps), event, true)
      ensures r.Met? ==> Valid() && steps == old(steps) + [Timer(event)] && cursor == old(cursor)
    {
      SlotCell(steps);
      CountsCell(steps);
      if !(1 <= event.timer <= counts.attempts) {
        return Refused(ArmedOrdinal);
      }
      if !(slot.active.Some? && slot.active.value.timer == event.timer && !slot.active.value.armed) {
        return Refused(SingleArmedTransition);
      }
      slot := slot.(active := Some(slot.active.value.(armed := true)));
      counts := counts.(armed := counts.armed + 1);
      steps := steps + [Timer(event)];
      assert steps[..|steps| - 1] == old(steps);
      return Met;
    }

    /** The live timer fires, no earlier than it is due. */
    method OnFire(event: Event) returns (r: Requirement<Code>)
      requires Valid() && event.Fire?
      modifies this
      ensures r == AdmitTimer(plan, old(steps), event, true)
      ensures r.Met? ==> Valid() && steps == old(steps) + [Timer(event)] && cursor == old(cursor)
    {
      SlotCell(steps);
      CountsCell(steps);
      if !(1 <= event.timer <= counts.attempts) {
        return Refused(FireOrdinal);
      }
      if !(slot.active.Some? && slot.active.value.timer == event.timer && slot.active.value.armed
        && event.at >= slot.active.value.due) {
        return Refused(FireAfterRegistrationAndDue);
      }
      var ordered := Observe(event.at);
      if !ordered {
        return Refused(SharedClockOrder);
      }
      slot := slot.(active := None);
      counts := counts.(fired := counts.fired + 1);
      if slot.queued > 0 {
        slot := slot.(expected := Some(event.at));
      }
      steps := steps + [Timer(event)];
      assert steps[..|steps| - 1] == old(steps);
      return Met;
    }

    /** The live timer is cancelled. */
    method OnCancel(event: Event) returns (r: Requirement<Code>)
      requires Valid() && event.Cancel?
      modifies this
      ensures r == AdmitTimer(plan, old(steps), event, true)
      ensures r.Met? ==> Valid() && steps == old(steps) + [Timer(event)] && cursor == old(cursor)
    {
      SlotCell(steps);
      CountsCell(steps);
      if !(1 <= event.timer <= counts.attempts) {
        return Refused(CancelOrdinal);
      }
      if !(slot.active.Some? && slot.active.value.timer == event.timer && slot.active.value.armed && event.returned) {
        return Refused(CancelMustReturn);
      }
      slot := slot.(active := None);
      counts := counts.(cancelled := counts.cancelled + 1);
      steps := steps + [Timer(event)];
      assert steps[..|steps| - 1] == old(steps);
      return Met;
    }

    /** The branch of the row's kind; only the final row looks at its place. */
    method OnTimer(event: Event, last: bool) returns (r: Requirement<Code>)
      requires Valid()
      modifies this
      ensures r == AdmitTimer(plan, old(steps), event, last)
      ensures r.Met? ==> Valid() && steps == old(steps) + [Timer(event)] && cursor == old(cursor)
    {
      match event {
        case Arm(_, _, _, _) => r := OnArm(event);
        case Armed(_) => r := OnArmed(event);
        case Fire(_, _) => r := OnFire(event);
        case Cancel(_, _) => r := OnCancel(event);
        case Finalize =>
          r := Require(last, FinalizeFullAnchor);
          steps := steps + [Timer(event)];
          assert steps[..|steps| - 1] == old(steps);
      }
    }
  }

  /** The first n rows of the part were admitted and read after `before`. */
  ghost predicate Advanced(plan: Q.Plan, before: seq<Step>, part: seq<Q.Row>, n: nat, steps: seq<Step>) {
    n <= |part| && AdmitAdvance(plan, before, part[..n]).Met? && steps == before + PacedSteps(part[..n])
  }

  lemma {:induction false} NothingRead(plan: Q.Plan, before: seq<Step>, part: seq<Q.Row>)
    ensures Advanced(plan, before, part, 0, before)
  {
    assert part[..0] == [] && before + PacedSteps([]) == before;
  }

  lemma {:induction false} AllRead(plan: Q.Plan, before: seq<Step>, part: seq<Q.Row>, steps: seq<Step>)
    requires Advanced(plan, before, part, |part|, steps)
    ensures AdmitAdvance(plan, before, part).Met? && steps == before + PacedSteps(part)
  {
    assert part[..|part|] == part;
  }

  /** One more paced row of the part being read. */
  lemma {:induction false} NextPaced(plan: Q.Plan, before: seq<Step>, part: seq<Q.Row>, n: nat)
    requires n < |part| && AdmitAdvance(plan, before, part[..n]).Met?
    ensures before + PacedSteps(part[..n + 1]) == before + PacedSteps(part[..n]) + [Paced(part[n])]
    ensures AdmitAdvance(plan, before, part[..n + 1]) == AdmitPaced(plan, before + PacedSteps(part[..n]), part[n])
  {
    assert part[..n + 1][..n] == part[..n];
    Counting.Associate(before, PacedSteps(part[..n]), [Paced(part[n])]);
  }

  lemma {:induction false} AdvanceRefusalStays(plan: Q.Plan, before: seq<Step>, part: seq<Q.Row>, k: nat)
    requires k <= |part| && AdmitAdvance(plan, before, part[..k]).Refused?
    ensures AdmitAdvance(plan, before, part) == AdmitAdvance(plan, before, part[..k])
    decreases |part|
  {
    if k < |part| {
      assert part[..|part| - 1][..k] == part[..k];
      AdvanceRefusalStays(plan, before, part[..|part| - 1], k);
    } else {
      assert part[..k] == part;
    }
  }

  lemma {:induction false} RefusalStays(plan: Q.Plan, rows: seq<Row>, paced: seq<Q.Row>, k: nat, total: nat)
    requires k <= |rows| && AdmitAll(plan, rows[..k], paced, total).Refused?
    ensures AdmitAll(plan, rows, paced, total) == AdmitAll(plan, rows[..k], paced, total)
    decreases |rows|
  {
    if k < |rows| {
      assert rows[..|rows| - 1][..k] == rows[..k];
      RefusalStays(plan, rows[..|rows| - 1], paced, k, total);
    } else {
      assert rows[..k] == rows;
    }
  }

  /** An admitted prefix goes on to the next row. */
  lemma {:induction false} NextRow(plan: Q.Plan, rows: seq<Row>, paced: seq<Q.Row>, k: nat, total: nat)
    requires k < |rows| && AdmitAll(plan, rows[..k], paced, total).Met?
    ensures AdmitAll(plan, rows[..k + 1], paced, total) == AdmitRow(plan, rows[..k + 1], paced, total)
    ensures rows[..k + 1][..k] == rows[..k]
  {
    assert rows[..k + 1][..k] == rows[..k];
  }

  lemma {:induction false} FinalizedStep(rows: seq<Row>, k: nat)
    requires k < |rows|
    ensures Finalized(rows[..k + 1]) <==> Finalized(rows[..k]) || rows[k].event.Finalize?
  {
    L.FinalizedByLast(rows[..k + 1]);
    assert rows[..k + 1][..k] == rows[..k];
  }

  /** One timer row: its place, the paced rows that precede it, then its own event. */
  method Accept(pass: Replay, ghost rows: seq<Row>, row: Row, index: nat, finalized: bool,
                total: nat) returns (r: Requirement<Code>)
    requires pass.Valid() && index < |rows| && row == rows[index] && finalized == Finalized(rows[..index])
    requires pass.steps == Merge(rows[..index], pass.paced) && pass.cursor == Cursor(rows[..index])
    modifies pass
    ensures r == AdmitRow(pass.plan, rows[..index + 1], pass.paced, total)
    ensures r.Met? ==>
            pass.Valid() && pass.steps == Merge(rows[..index + 1], pass.paced)
            && pass.cursor == Cursor(rows[..index + 1])
  {
    assert rows[..index + 1][..index] == rows[..index];
    if finalized {
      return Refused(AfterFinalize);
    }
    if row.sequence != index + 1 {
      return Refused(EventSequence);
    }
    var anchor := row.pacedSequence;
    if !(pass.cursor <= anchor <= |pass.paced|) {
      return Refused(MonotonePacedAnchor);
    }
    r := pass.Advance(anchor);
    if r.Refused? {
      return;
    }
    r := pass.OnTimer(row.event, index + 1 == total && anchor == |pass.paced|);
  }

  /** The timer checker: the pass over both logs reaches the verdict that the merged steps define. */
  method CheckTimer(plan: Q.Plan, rows: seq<Row>, paced: seq<Q.Row>, report: Q.Report) returns (r: Result<Check, Code>)
    ensures r == Verdict(plan, rows, paced, report)
  {
    if !(1 <= |rows| <= 4 * plan.limits.maxSamplesPerPhase + 1) {
      return Failure(EventArray);
    }
    var pass := new Replay(plan, paced);
    var index, finalized := 0, false;
    while index < |rows|
      invariant 0 <= index <= |rows| && pass.Valid() && pass.plan == plan && pass.paced == paced
      invariant AdmitAll(plan, rows[..index], paced, |rows|).Met? && finalized == Finalized(rows[..index])
      invariant pass.steps == Merge(rows[..index], paced) && pass.cursor == Cursor(rows[..index])
    {
      NextRow(plan, rows, paced, index, |rows|);
      FinalizedStep(rows, index);
      var admitted := Accept(pass, rows, rows[index], index, finalized, |rows|);
      if admitted.Refused? {
        RefusalStays(plan, rows, paced, index + 1, |rows|);
        return Failure(admitted.code);
      }
      finalized := finalized || rows[index].event.Finalize?;
      index := index + 1;
    }
    assert rows[..index] == rows;
    SlotCell(pass.steps);
    CountsCell(pass.steps);
    var slot, n := pass.slot, pass.counts;
    if !(finalized && pass.cursor == |paced| && slot.queued == 0 && slot.active.None? && slot.expected.None?
         && n.attempts == n.armed && n.fired + n.cancelled == n.armed && n.armed == report.pacingTimersStarted) {
      return Failure(CompleteCounts);
    }
    return Success(Check(|rows|, pass.cursor, n.attempts, n.armed, n.fired, n.cancelled, if n.armed == 0 then 0
      else 1));
  }
}
