/** What an admitted timer log says together with the paced log it is anchored in. */
module TimerLaws {
  import opened Wrappers
  import opened Counting
  import opened TimerTrace
  import Q = PacedTrace
  import PL = PacedLaws

  // ---- the merged steps, one by one -----------------------------------------------------

  ghost predicate StepAdmitted(plan: Q.Plan, steps: seq<Step>, step: Step) {
    match step
    case Paced(row) => AdmitPaced(plan, steps, row).Met?
    case Timer(event) => AdmitTimer(plan, steps, event, true).Met?
  }

  /** Every step was admitted after the steps before it. */
  ghost predicate WellStepped(plan: Q.Plan, steps: seq<Step>) {
    |steps| == 0 || (WellStepped(plan, steps[..|steps| - 1])
      && StepAdmitted(plan, steps[..|steps| - 1], steps[|steps| - 1]))
  }

  /** The paced rows among the steps. */
  ghost function PacedPart(steps: seq<Step>): seq<Q.Row> {
    if |steps| == 0 then []
    else if steps[|steps| - 1].Paced? then PacedPart(steps[..|steps| - 1]) + [steps[|steps| - 1].row]
    else PacedPart(steps[..|steps| - 1])
  }

  lemma {:induction false} StepOn(plan: Q.Plan, steps: seq<Step>, step: Step)
    requires WellStepped(plan, steps) && StepAdmitted(plan, steps, step)
    ensures WellStepped(plan, steps + [step])
  {
    assert (steps + [step])[..|steps|] == steps;
  }

  lemma {:induction false} AdvanceNext(steps: seq<Step>, paced: seq<Q.Row>)
    requires |paced| > 0
    ensures var init, row := paced[..|paced| - 1], paced[|paced| - 1];
            steps + PacedSteps(paced) == steps + PacedSteps(init) + [Paced(row)]
  {
    Associate(steps, PacedSteps(paced[..|paced| - 1]), [Paced(paced[|paced| - 1])]);
  }

  lemma {:induction false} AdvanceSteps(plan: Q.Plan, steps: seq<Step>, paced: seq<Q.Row>)
    requires WellStepped(plan, steps) && AdmitAdvance(plan, steps, paced).Met?
    ensures WellStepped(plan, steps + PacedSteps(paced))
  {
    if |paced| == 0 {
      assert steps + PacedSteps(paced) == steps;
    } else {
      var init, row := paced[..|paced| - 1], paced[|paced| - 1];
      AdvanceSteps(plan, steps, init);
      AdvanceNext(steps, paced);
      StepOn(plan, steps + PacedSteps(init), Paced(row));
    }
  }

  lemma {:induction false} AdvancePart(steps: seq<Step>, paced: seq<Q.Row>)
    ensures PacedPart(steps + PacedSteps(paced)) == PacedPart(steps) + paced
  {
    if |paced| == 0 {
      assert steps + PacedSteps(paced) == steps;
    } else {
      var init, row := paced[..|paced| - 1], paced[|paced| - 1];
      AdvancePart(steps, init);
      AdvanceNext(steps, paced);
      PartOn(steps + PacedSteps(init), Paced(row));
      Associate(PacedPart(steps), init, [row]);
      LastOff(paced);
    }
  }

  lemma {:induction false} PartOn(steps: seq<Step>, step: Step)
    ensures PacedPart(steps + [step]) == if step.Paced? then PacedPart(steps) + [step.row] else PacedPart(steps)
  {
    assert (steps + [step])[..|steps|] == steps;
  }

  lemma {:induction false} RowStep(plan: Q.Plan, rows: seq<Row>, paced: seq<Q.Row>, total: nat)
    requires |rows| > 0 && AdmitRow(plan, rows, paced, total).Met?
    ensures var merged := Merge(rows[..|rows| - 1], paced);
            && Cursor(rows[..|rows| - 1]) <= Cursor(rows) <= |paced|
            && AdmitAdvance(plan, merged, Advance(rows, paced)).Met?
            && StepAdmitted(plan, merged + PacedSteps(Advance(rows, paced)), Timer(rows[|rows| - 1].event))
  {
  }

  lemma {:induction false} FinalStep(plan: Q.Plan, rows: seq<Row>, paced: seq<Q.Row>, total: nat)
    requires |rows| > 0 && AdmitAll(plan, rows, paced, total).Met?
    ensures var init := rows[..|rows| - 1];
            && AdmitAll(plan, init, paced, total).Met?
            && Cursor(init) <= Cursor(rows) <= |paced|
            && AdmitAdvance(plan, Merge(init, paced), Advance(rows, paced)).Met?
            && StepAdmitted(plan, Merge(init, paced) + PacedSteps(Advance(rows, paced)), Timer(rows[|rows| - 1].event))
  {
    RowStep(plan, rows, paced, total);
  }

  lemma {:induction false} MergedWell(plan: Q.Plan, rows: seq<Row>, paced: seq<Q.Row>, total: nat)
    requires AdmitAll(plan, rows, paced, total).Met?
    ensures 0 <= Cursor(rows) <= |paced| && WellStepped(plan, Merge(rows, paced))
  {
    if |rows| > 0 {
      var init, row := rows[..|rows| - 1], rows[|rows| - 1];
      FinalStep(plan, rows, paced, total);
      MergedWell(plan, init, paced, total);
      AdvanceSteps(plan, Merge(init, paced), Advance(rows, paced));
      StepOn(plan, Merge(init, paced) + PacedSteps(Advance(rows, paced)), Timer(row.event));
    }
  }

  lemma {:induction false} SliceJoins(paced: seq<Q.Row>, from: int, to: int)
    requires 0 <= from <= to <= |paced|
    ensures paced[..from] + Slice(paced, from, to) == paced[..to]
  {
  }

  lemma {:induction false} MergedPart(plan: Q.Plan, rows: seq<Row>, paced: seq<Q.Row>, total: nat)
    requires AdmitAll(plan, rows, paced, total).Met?
    ensures 0 <= Cursor(rows) <= |paced| && PacedPart(Merge(rows, paced)) == paced[..Cursor(rows)]
  {
    MergedWell(plan, rows, paced, total);
    if |rows| > 0 {
      var init, row := rows[..|rows| - 1], rows[|rows| - 1];
      FinalStep(plan, rows, paced, total);
      MergedPart(plan, init, paced, total);
      AdvancePart(Merge(init, paced), Advance(rows, paced));
      PartOn(Merge(init, paced) + PacedSteps(Advance(rows, paced)), Timer(row.event));
      SliceJoins(paced, Cursor(init), Cursor(rows));
    } else {
      assert paced[..0] == [];
    }
  }

  /** An admitted log reads a prefix of the paced rows, and each merged step was admitted. */
  lemma {:induction false} MergedSteps(plan: Q.Plan, rows: seq<Row>, paced: seq<Q.Row>, total: nat)
    requires AdmitAll(plan, rows, paced, total).Met?
    ensures 0 <= Cursor(rows) <= |paced|
    ensures WellStepped(plan, Merge(rows, paced)) && PacedPart(Merge(rows, paced)) == paced[..Cursor(rows)]
  {
    MergedWell(plan, rows, paced, total);
    MergedPart(plan, rows, paced, total);
  }

  // ---- the integer queue is the FIFO's length -------------------------------------------

  lemma {:induction false} QueuedIsLength(plan: Q.Plan, core: Q.Core, steps: seq<Step>, total: nat)
    requires PL.Admitted(plan, core, PacedPart(steps), total)
    ensures Queued(steps) == |Q.Fifo(PacedPart(steps))|
  {
    if |steps| > 0 {
      var init, last := steps[..|steps| - 1], steps[|steps| - 1];
      if last.Paced? {
        var part := PacedPart(steps);
        assert part[..|part| - 1] == PacedPart(init) && part[|part| - 1] == last.row;
        PL.AdmittedFits(plan, core, part, total);
      }
      QueuedIsLength(plan, core, init, total);
    }
  }

  /** On an accepted paced log, whatever the timer log has read, its integer is the length of the FIFO;
      it stays within the lanes, and it is zero when all of a finished log is read. */
  lemma {:induction false} QueueSimulation(plan: Q.Plan, core: Q.Core, rows: seq<Row>, paced: seq<Q.Row>, total: nat)
    requires AdmitAll(plan, rows, paced, total).Met? && PL.Admitted(plan, core, paced, |paced|)
    ensures 0 <= Cursor(rows) <= |paced| && Queued(Merge(rows, paced)) == |Q.Fifo(paced[..Cursor(rows)])|
    ensures 0 <= Queued(Merge(rows, paced)) <= plan.lanes
    ensures Cursor(rows) == |paced| && Q.Fifo(paced) == [] ==> Queued(Merge(rows, paced)) == 0
  {
    MergedSteps(plan, rows, paced, total);
    PL.PrefixAdmitted(plan, core, paced, Cursor(rows), |paced|);
    QueuedIsLength(plan, core, Merge(rows, paced), |paced|);
    PL.DispatcherInvariant(plan, core, paced[..Cursor(rows)], |paced|);
    PL.QueueWithinLanes(Q.Items(core, paced[..Cursor(rows)]), Q.Fifo(paced[..Cursor(rows)]),
      Q.Occupied(core, paced[..Cursor(rows)]), plan.lanes);
    assert paced[..|paced|] == paced;
  }

  /** So the queue bound of the timer log can never be what refuses a paced row of an accepted log. */
  lemma {:induction false} CrossBoundQueueNeverRefuses(plan: Q.Plan, core: Q.Core, steps: seq<Step>, paced: seq<Q.Row>)
    requires PL.Admitted(plan, core, paced, |paced|)
    requires |PacedPart(steps)| < |paced| && PacedPart(steps) == paced[..|PacedPart(steps)|]
    ensures AdmitPaced(plan, steps, paced[|PacedPart(steps)|]) != Refused(CrossBoundQueue)
  {
    var k := |PacedPart(steps)|;
    var next := steps + [Paced(paced[k])];
    assert next[..|steps|] == steps;
    assert PacedPart(next) == paced[..k + 1];
    PL.PrefixAdmitted(plan, core, paced, k + 1, |paced|);
    QueuedIsLength(plan, core, next, |paced|);
    PL.DispatcherInvariant(plan, core, paced[..k + 1], |paced|);
    PL.QueueWithinLanes(Q.Items(core, paced[..k + 1]), Q.Fifo(paced[..k + 1]), Q.Occupied(core, paced[..k + 1]),
      plan.lanes);
    assert Queued(next) == Queued(steps) + QueueChange(paced[k].event);
  }

  // ---- the merged clock -------------------------------------------------------------------

  /** The readings of both logs, merged, never decrease. */
  lemma {:induction false} MergedClock(plan: Q.Plan, steps: seq<Step>)
    requires WellStepped(plan, steps)
    ensures forall i, j :: 0 <= i <= j < |steps| && Reading(steps[i]).Some? && Reading(steps[j]).Some? ==>
              Reading(steps[i]).value <= Reading(steps[j]).value
    ensures forall i :: 0 <= i < |steps| && Reading(steps[i]).Some? ==>
            Latest(steps).Some? && Reading(steps[i]).value <= Latest(steps).value
  {
    if |steps| > 0 {
      var init, last := steps[..|steps| - 1], steps[|steps| - 1];
      MergedClock(plan, init);
      assert forall i :: 0 <= i < |init| ==> steps[i] == init[i];
      if Reading(last).Some? {
        assert Latest(steps) == Reading(last) && InClockOrder(init, Reading(last).value);
      } else {
        assert Latest(steps) == Latest(init);
      }
    }
  }

  lemma {:induction false} LastDispatchBeforeLatest(plan: Q.Plan, steps: seq<Step>)
    requires WellStepped(plan, steps) && LastDispatch(steps).Some?
    ensures Latest(steps).Some? && LastDispatch(steps).value <= Latest(steps).value
  {
    if !IsDispatchStep(steps[|steps| - 1]) {
      LastDispatchBeforeLatest(plan, steps[..|steps| - 1]);
    }
  }

  // ---- the live timer -----------------------------------------------------------------------

  /** A live timer is due one gap after the latest dispatch, was counted, and excludes a pending fire. */
  lemma {:induction false} LiveTimer(plan: Q.Plan, steps: seq<Step>)
    requires WellStepped(plan, steps)
    ensures Active(steps).Some? ==>
              && Expected(steps).None?
              && 1 <= Active(steps).value.timer <= Count(steps, IsArm())
              && LastDispatch(steps).Some? && Active(steps).value.due == LastDispatch(steps).value + plan.Gap()
  {
    if |steps| > 0 {
      LiveTimer(plan, steps[..|steps| - 1]);
    }
  }

  /** Every FIRE comes at least one gap after the latest dispatch. */
  lemma {:induction false} FireAfterGap(plan: Q.Plan, steps: seq<Step>, k: nat)
    requires WellStepped(plan, steps) && k < |steps| && steps[k].Timer? && steps[k].event.Fire?
    ensures LastDispatch(steps[..k]).Some? && steps[k].event.at >= LastDispatch(steps[..k]).value + plan.Gap()
  {
    PrefixStepped(plan, steps, k + 1);
    assert steps[..k + 1][..k] == steps[..k];
    LiveTimer(plan, steps[..k]);
  }

  lemma {:induction false} PrefixStepped(plan: Q.Plan, steps: seq<Step>, k: nat)
    requires WellStepped(plan, steps) && k <= |steps|
    ensures WellStepped(plan, steps[..k])
  {
    if k < |steps| {
      PrefixStepped(plan, steps[..|steps| - 1], k);
      assert steps[..|steps| - 1][..k] == steps[..k];
    } else {
      assert steps[..k] == steps;
    }
  }

  /** Each attempt has its own ordinal. */
  lemma {:induction false} ArmOrdinals(plan: Q.Plan, steps: seq<Step>)
    requires WellStepped(plan, steps)
    ensures forall i :: 0 <= i < |steps| && steps[i].Timer? && steps[i].event.Arm? ==>
              steps[i].event.timer == Count(steps[..i], IsArm()) + 1 <= Count(steps, IsArm())
  {
    if |steps| > 0 {
      var init := steps[..|steps| - 1];
      ArmOrdinals(plan, init);
      assert forall i :: 0 <= i <= |init| ==> init[..i] == steps[..i];
    }
  }

  /** From its ARM until it is cleared a timer stays the live one. */
  lemma {:induction false} LiveSince(plan: Q.Plan, steps: seq<Step>, i: nat, k: nat)
    requires WellStepped(plan, steps) && i < k <= |steps| && steps[i].Timer? && steps[i].event.Arm?
    requires Active(steps).Some? && Active(steps).value.timer == steps[i].event.timer
    ensures Active(steps[..k]).Some? && Active(steps[..k]).value.timer == steps[i].event.timer
    decreases |steps|
  {
    if k == |steps| {
      assert steps[..k] == steps;
    } else {
      var init := steps[..|steps| - 1];
      ArmOrdinals(plan, init);
      LiveSince(plan, init, i, k);
      assert init[..k] == steps[..k];
    }
  }

  /** No DISPATCH lies between an ARM and the FIRE or CANCEL of the same timer. */
  lemma {:induction false} NoDispatchWhileLive(plan: Q.Plan, steps: seq<Step>, i: nat, k: nat, j: nat)
    requires WellStepped(plan, steps) && i < k < j < |steps|
    requires steps[i].Timer? && steps[i].event.Arm?
    requires steps[j].Timer? && (steps[j].event.Fire? || steps[j].event.Cancel?)
             && steps[j].event.timer == steps[i].event.timer
    ensures !IsDispatchStep(steps[k])
  {
    PrefixStepped(plan, steps, j + 1);
    assert steps[..j + 1][..j] == steps[..j];
    LiveSince(plan, steps[..j], i, k);
    assert steps[..j][..k] == steps[..k];
    PrefixStepped(plan, steps, k + 1);
    assert steps[..k + 1][..k] == steps[..k];
  }

  // ---- a fire with a queue is answered by a dispatch ---------------------------------------

  ghost predicate FiresWithQueue(steps: seq<Step>, k: nat)
    requires k < |steps|
  {
    steps[k].Timer? && steps[k].event.Fire? && Queued(steps[..k]) > 0
  }

  /** The dispatch at j answers the fire at k: same reading, and no paced row in between. */
  ghost predicate Answers(steps: seq<Step>, k: nat, j: nat) {
    && k < j < |steps| && steps[k].Timer? && steps[k].event.Fire?
    && IsDispatchStep(steps[j]) && steps[j].row.event.at == steps[k].event.at
    && forall i :: k < i < j ==> !steps[i].Paced?
  }

  /** An expected reading is that of the latest fire, and no paced row has come since. */
  lemma {:induction false} ExpectedOrigin(plan: Q.Plan, steps: seq<Step>) returns (k: nat)
    requires WellStepped(plan, steps) && Expected(steps).Some?
    ensures k < |steps| && FiresWithQueue(steps, k) && steps[k].event.at == Expected(steps).value
    ensures forall i :: k < i < |steps| ==> !steps[i].Paced? && !steps[i].event.Fire?
  {
    var init, last := steps[..|steps| - 1], steps[|steps| - 1];
    LiveTimer(plan, init);
    if last.Timer? && last.event.Fire? {
      k := |steps| - 1;
    } else {
      k := ExpectedOrigin(plan, init);
      assert init[..k] == steps[..k];
    }
  }

  /** Once the log is complete every fire with a queue has its dispatch, as the next paced row. */
  lemma {:induction false} FireAnswered(plan: Q.Plan, steps: seq<Step>, k: nat) returns (j: nat)
    requires WellStepped(plan, steps) && k < |steps| && FiresWithQueue(steps, k)
    requires Expected(steps).None?
    ensures Answers(steps, k, j)
  {
    var init, last := steps[..|steps| - 1], steps[|steps| - 1];
    assert k < |init|;
    assert init[..k] == steps[..k];
    if Expected(init).Some? {
      var origin := ExpectedOrigin(plan, init);
      assert init[..origin] == steps[..origin];
      if origin == k {
        j := |steps| - 1;
        return;
      }
      j := FireAnsweredEarlier(plan, init, k, origin);
    } else {
      j := FireAnswered(plan, init, k);
    }
  }

  lemma {:induction false} FireAnsweredEarlier(plan: Q.Plan, steps: seq<Step>, k: nat, later: nat) returns (j: nat)
    requires WellStepped(plan, steps) && k < later < |steps| && FiresWithQueue(steps, k)
    requires steps[later].Timer? && steps[later].event.Fire?
    ensures Answers(steps, k, j)
  {
    PrefixStepped(plan, steps, later + 1);
    assert steps[..later + 1][..later] == steps[..later];
    LiveTimer(plan, steps[..later]);
    assert steps[..later][..k] == steps[..k];
    j := FireAnswered(plan, steps[..later], k);
  }

  /** A fire with a queue stays pending until a paced row comes. */
  lemma {:induction false} PendingSince(plan: Q.Plan, steps: seq<Step>, k: nat)
    requires WellStepped(plan, steps) && k < |steps| && FiresWithQueue(steps, k)
    requires forall i :: k < i < |steps| ==> !steps[i].Paced?
    ensures Expected(steps).Some?
  {
    var init := steps[..|steps| - 1];
    if k < |init| {
      assert init[..k] == steps[..k];
      PendingSince(plan, init, k);
    }
  }

  /** One dispatch never answers two fires. */
  lemma {:induction false} AnswersDiffer(plan: Q.Plan, steps: seq<Step>, k: nat, l: nat, j: nat)
    requires WellStepped(plan, steps) && k < l < |steps| && FiresWithQueue(steps, k) && Answers(steps, k, j)
    ensures !Answers(steps, l, j)
  {
    if Answers(steps, l, j) {
      PrefixStepped(plan, steps, l + 1);
      assert steps[..l + 1][..l] == steps[..l];
      assert steps[..l][..k] == steps[..k];
      PendingSince(plan, steps[..l], k);
      LiveTimer(plan, steps[..l]);
    }
  }

  lemma {:induction false} DispatchBehind(steps: seq<Step>) returns (i: nat)
    requires LastDispatch(steps).Some?
    ensures i < |steps| && IsDispatchStep(steps[i])
  {
    if IsDispatchStep(steps[|steps| - 1]) {
      i := |steps| - 1;
    } else {
      i := DispatchBehind(steps[..|steps| - 1]);
    }
  }

  /** The dispatch that answers a fire is not the first: another one lies before the fire. */
  lemma {:induction false} AnswerNotFirst(plan: Q.Plan, steps: seq<Step>, k: nat, j: nat) returns (i: nat)
    requires WellStepped(plan, steps) && Answers(steps, k, j)
    ensures i < k < j && IsDispatchStep(steps[i])
  {
    FireAfterGap(plan, steps, k);
    i := DispatchBehind(steps[..k]);
  }

  // ---- counts --------------------------------------------------------------------------------

  /** How many fires found a queue. */
  ghost function QueuedFires(steps: seq<Step>): nat {
    if |steps| == 0 then 0 else
      QueuedFires(steps[..|steps| - 1]) + (if FiresWithQueue(steps, |steps| - 1) then 1 else 0)
  }

  ghost function IsDispatch(): Step -> bool { (s: Step) => IsDispatchStep(s) }

  /** So the fires that found a queue, but for a pending one, are fewer than the dispatches. */
  lemma {:induction false} QueuedFiresCounted(plan: Q.Plan, steps: seq<Step>)
    requires WellStepped(plan, steps)
    ensures LastDispatch(steps).Some? <==> Count(steps, IsDispatch()) > 0
    ensures var pending := if Expected(steps).Some? then 1 else 0;
            if Count(steps, IsDispatch()) == 0 then QueuedFires(steps) == pending == 0
            else QueuedFires(steps) - pending <= Count(steps, IsDispatch()) - 1
  {
    if |steps| > 0 {
      var init := steps[..|steps| - 1];
      QueuedFiresCounted(plan, init);
      LiveTimer(plan, init);
    }
  }

  lemma {:induction false} DispatchesOfPart(steps: seq<Step>)
    ensures Count(steps, IsDispatch()) == Q.Count(PacedPart(steps), Q.IsDispatch())
  {
    if |steps| > 0 {
      var init, last := steps[..|steps| - 1], steps[|steps| - 1];
      DispatchesOfPart(init);
      if last.Paced? {
        var part := PacedPart(steps);
        assert part[..|part| - 1] == PacedPart(init) && part[|part| - 1] == last.row;
      }
    }
  }

  ghost function IsFinalizeStep(): Step -> bool { (s: Step) => s.Timer? && s.event.Finalize? }

  /** Reading paced rows counts no timer row. */
  lemma {:induction false} AdvanceCountsNothing(steps: seq<Step>, paced: seq<Q.Row>, kind: Step -> bool)
    requires forall row :: !kind(Paced(row))
    ensures Count(steps + PacedSteps(paced), kind) == Count(steps, kind)
  {
    if |paced| == 0 {
      assert steps + PacedSteps(paced) == steps;
    } else {
      var init, row := paced[..|paced| - 1], paced[|paced| - 1];
      AdvanceCountsNothing(steps, init, kind);
      Associate(steps, PacedSteps(init), [Paced(row)]);
      CountOn(steps + PacedSteps(init), Paced(row), kind);
    }
  }

  lemma {:induction false} CountOn(steps: seq<Step>, step: Step, kind: Step -> bool)
    ensures Count(steps + [step], kind) == Count(steps, kind) + (if kind(step) then 1 else 0)
  {
    assert (steps + [step])[..|steps|] == steps;
  }

  lemma {:induction false} MergeCounts(rows: seq<Row>, paced: seq<Q.Row>, kind: Step -> bool)
    requires |rows| > 0 && forall row :: !kind(Paced(row))
    ensures Count(Merge(rows, paced), kind) ==
              Count(Merge(rows[..|rows| - 1], paced), kind) + (if kind(Timer(rows[|rows| - 1].event)) then 1 else 0)
  {
    var init := rows[..|rows| - 1];
    AdvanceCountsNothing(Merge(init, paced), Advance(rows, paced), kind);
    CountOn(Merge(init, paced) + PacedSteps(Advance(rows, paced)), Timer(rows[|rows| - 1].event), kind);
  }

  /** Each timer row is one of the five kinds. */
  lemma {:induction false} RowsByKind(rows: seq<Row>, paced: seq<Q.Row>)
    ensures var steps := Merge(rows, paced);
            |rows| == Count(steps, IsArm()) + Count(steps, IsArmed()) + Count(steps, IsFire())
              + Count(steps, IsCancel())
                      + Count(steps, IsFinalizeStep())
  {
    if |rows| > 0 {
      RowsByKind(rows[..|rows| - 1], paced);
      MergeCounts(rows, paced, IsArm());
      MergeCounts(rows, paced, IsArmed());
      MergeCounts(rows, paced, IsFire());
      MergeCounts(rows, paced, IsCancel());
      MergeCounts(rows, paced, IsFinalizeStep());
    }
  }

  lemma {:induction false} FinalizedByLast(rows: seq<Row>)
    requires |rows| > 0
    ensures Finalized(rows) <==> Finalized(rows[..|rows| - 1]) || rows[|rows| - 1].event.Finalize?
  {
    var init := rows[..|rows| - 1];
    if Finalized(init) {
      var i :| 0 <= i < |init| && init[i].event.Finalize?;
      assert rows[i].event.Finalize?;
    }
  }

  lemma {:induction false} FinalizedLast(plan: Q.Plan, rows: seq<Row>, paced: seq<Q.Row>, total: nat)
    requires |rows| > 0 && AdmitAll(plan, rows, paced, total).Met?
    ensures !Finalized(rows[..|rows| - 1]) && AdmitAll(plan, rows[..|rows| - 1], paced, total).Met?
  {
  }

  lemma {:induction false} FinalizedOnce(plan: Q.Plan, rows: seq<Row>, paced: seq<Q.Row>, total: nat)
    requires AdmitAll(plan, rows, paced, total).Met?
    ensures Count(Merge(rows, paced), IsFinalizeStep()) == (if Finalized(rows) then 1 else 0)
  {
    if |rows| > 0 {
      var init := rows[..|rows| - 1];
      FinalizedOnce(plan, init, paced, total);
      MergeCounts(rows, paced, IsFinalizeStep());
      FinalizedByLast(rows);
      FinalizedLast(plan, rows, paced, total);
    }
  }

  lemma {:induction false} AttemptsBounded(plan: Q.Plan, steps: seq<Step>)
    requires WellStepped(plan, steps) && 0 <= plan.limits.maxSamplesPerPhase
    ensures Count(steps, IsArm()) <= plan.limits.maxSamplesPerPhase
  {
    if |steps| > 0 {
      AttemptsBounded(plan, steps[..|steps| - 1]);
    }
  }

  /** A complete timer log has exactly three rows per started timer and its final row; so the declared
      ceiling of four rows per sample and one more can never be what refuses it. */
  lemma {:induction false} RowCeiling(plan: Q.Plan, rows: seq<Row>, paced: seq<Q.Row>, timersStarted: int)
    requires AdmitAll(plan, rows, paced, |rows|).Met? && AdmitEnd(rows, paced, timersStarted).Met?
    requires 0 <= plan.limits.maxSamplesPerPhase
    ensures |rows| == 3 * timersStarted + 1
    ensures 1 <= |rows| <= 3 * plan.limits.maxSamplesPerPhase + 1
  {
    MergedSteps(plan, rows, paced, |rows|);
    RowsByKind(rows, paced);
    FinalizedOnce(plan, rows, paced, |rows|);
    AttemptsBounded(plan, Merge(rows, paced));
  }

  // ---- the delay bound is implied ---------------------------------------------------------------

  lemma {:induction false} CeilingRange(span: int, gapMs: int)
    requires 0 < span <= gapMs * 1_000_000
    ensures 1 <= (span + 999_999) / 1_000_000 <= gapMs
  {
    assert (gapMs * 1_000_000 + 999_999) / 1_000_000 == gapMs;
  }

  /** An ARM that is anchored and in clock order has a delay between one millisecond and the gap,
      so the declared delay bound never refuses what the other conditions admit. */
  lemma {:induction false} DelayBoundImplied(plan: Q.Plan, steps: seq<Step>, at: int, due: int, delayMs: int)
    requires WellStepped(plan, steps) && ArmAnchored(plan, steps, at, due, delayMs) && InClockOrder(steps, at)
    ensures 1 <= delayMs <= plan.minimumStartGapMs
  {
    LastDispatchBeforeLatest(plan, steps);
    CeilingRange(due - at, plan.minimumStartGapMs);
  }

  // ---- the accepted pair of logs -----------------------------------------------------------------

  /** What an accepted pair of logs says about every one of its merged steps. */
  ghost predicate Bound(plan: Q.Plan, steps: seq<Step>) {
    // The merged clock never runs backwards.
    && (forall i, j :: 0 <= i <= j < |steps| && Reading(steps[i]).Some? && Reading(steps[j]).Some? ==>
          Reading(steps[i]).value <= Reading(steps[j]).value)
    // No dispatch while a timer is live.
    && (forall i, k, j :: 0 <= i < k < j < |steps| && Brackets(steps, i, j) ==> !IsDispatchStep(steps[k]))
    // Every fire is at least one gap after the latest dispatch.
    && (forall k :: 0 <= k < |steps| && steps[k].Timer? && steps[k].event.Fire? ==>
          LastDispatch(steps[..k]).Some? && steps[k].event.at >= LastDispatch(steps[..k]).value + plan.Gap())
    // Every fire with a queue is answered at the same reading by the next paced row.
    && (forall k :: 0 <= k < |steps| && FiresWithQueue(steps, k) ==> exists j :: Answers(steps, k, j))
    // Different fires are answered by different dispatches.
    && (forall k, l, j :: 0 <= k < l < |steps| && FiresWithQueue(steps, k) && Answers(steps, k, j) ==>
       !Answers(steps, l, j))
    // A dispatch lies before every answered fire, so the answer is never the first dispatch.
    && (forall k, j :: Answers(steps, k, j) ==> exists i :: 0 <= i < k && IsDispatchStep(steps[i]))
  }

  /** The ARM at i and the FIRE or CANCEL at j belong to the same timer. */
  ghost predicate Brackets(steps: seq<Step>, i: nat, j: nat)
    requires i < |steps| && j < |steps|
  {
    && steps[i].Timer? && steps[i].event.Arm?
    && steps[j].Timer? && (steps[j].event.Fire? || steps[j].event.Cancel?)
       && steps[j].event.timer == steps[i].event.timer
  }

  lemma {:induction false} StepsBound(plan: Q.Plan, steps: seq<Step>)
    requires WellStepped(plan, steps) && Expected(steps).None?
    ensures Bound(plan, steps)
  {
    MergedClock(plan, steps);
    forall i, k, j | 0 <= i < k < j < |steps| && Brackets(steps, i, j) ensures !IsDispatchStep(steps[k]) {
      NoDispatchWhileLive(plan, steps, i, k, j);
    }
    forall k | 0 <= k < |steps| && steps[k].Timer? && steps[k].event.Fire?
      ensures LastDispatch(steps[..k]).Some? && steps[k].event.at >= LastDispatch(steps[..k]).value + plan.Gap() {
      FireAfterGap(plan, steps, k);
    }
    forall k | 0 <= k < |steps| && FiresWithQueue(steps, k) ensures exists j :: Answers(steps, k, j) {
      var j := FireAnswered(plan, steps, k);
    }
    forall k, l, j | 0 <= k < l < |steps| && FiresWithQueue(steps, k)
      && Answers(steps, k, j) ensures !Answers(steps, l, j) {
      AnswersDiffer(plan, steps, k, l, j);
    }
    forall k, j | Answers(steps, k, j) ensures exists i :: 0 <= i < k && IsDispatchStep(steps[i]) {
      var i := AnswerNotFirst(plan, steps, k, j);
    }
  }

  /** The timer log and the paced log, accepted together: the merged steps contain every paced row once and
      in order, they are bound as above, and the fires that found a queue are fewer than the dispatches. */
  lemma {:induction false} TimerBinding(plan: Q.Plan, rows: seq<Row>, paced: seq<Q.Row>, report: Q.Report)
    requires Verdict(plan, rows, paced, report).Success?
    ensures var steps := Merge(rows, paced);
            && PacedPart(steps) == paced
            && Bound(plan, steps)
            && (QueuedFires(steps) == 0 || QueuedFires(steps) < Q.Count(paced, Q.IsDispatch()))
  {
    var steps := Merge(rows, paced);
    MergedSteps(plan, rows, paced, |rows|);
    assert paced[..|paced|] == paced;
    StepsBound(plan, steps);
    QueuedFiresCounted(plan, steps);
    DispatchesOfPart(steps);
  }
}
