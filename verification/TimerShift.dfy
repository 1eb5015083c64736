/** The timer verdict depends on clock differences only, when the timer log moves with the paced log. */
module TimerShift {
  import opened Wrappers
  import opened TimerTrace
  import Q = PacedTrace
  import PS = ParentShift
  import QS = PacedShift

  ghost predicate EventMoved(e: Event, f: Event, delta: int) {
    match e
    case Arm(timer, at, due, delayMs) => f.Arm? && f.timer == timer && f.at == at + delta && f.due == due + delta
      && f.delayMs == delayMs
    case Fire(timer, at) => f.Fire? && f.timer == timer && f.at == at + delta
    case _ => f == e
  }

  ghost predicate Moved(rows: seq<Row>, moved: seq<Row>, delta: int) {
    |rows| == |moved|
    && forall i :: 0 <= i < |rows| ==>
       moved[i].sequence == rows[i].sequence
       && moved[i].pacedSequence == rows[i].pacedSequence
                                       && EventMoved(rows[i].event, moved[i].event, delta)
  }

  ghost predicate StepMoved(s: Step, t: Step, delta: int) {
    match s
    case Paced(row) => t.Paced? && t.row.sequence == row.sequence && QS.EventMoved(row.event, t.row.event, delta)
    case Timer(event) => t.Timer? && EventMoved(event, t.event, delta)
  }

  ghost predicate StepsMoved(steps: seq<Step>, moved: seq<Step>, delta: int) {
    |steps| == |moved| && forall i :: 0 <= i < |steps| ==> StepMoved(steps[i], moved[i], delta)
  }

  lemma {:induction false} StepsInit(steps: seq<Step>, moved: seq<Step>, delta: int)
    requires StepsMoved(steps, moved, delta) && |steps| > 0
    ensures StepsMoved(steps[..|steps| - 1], moved[..|steps| - 1], delta)
            && StepMoved(steps[|steps| - 1], moved[|steps| - 1], delta)
  {
  }

  ghost function LiveLater(live: Option<Live>, delta: int): Option<Live> {
    if live.None? then None else Some(live.value.(due := live.value.due + delta))
  }

  lemma {:induction false} QueuedMoved(steps: seq<Step>, moved: seq<Step>, delta: int)
    requires StepsMoved(steps, moved, delta)
    ensures Queued(moved) == Queued(steps)
  {
    if |steps| > 0 {
      StepsInit(steps, moved, delta);
      QueuedMoved(steps[..|steps| - 1], moved[..|steps| - 1], delta);
    }
  }

  lemma {:induction false} ClocksMoved(steps: seq<Step>, moved: seq<Step>, delta: int)
    requires StepsMoved(steps, moved, delta)
    ensures LastDispatch(moved) == PS.Later(LastDispatch(steps), delta)
            && Latest(moved) == PS.Later(Latest(steps), delta)
  {
    if |steps| > 0 {
      StepsInit(steps, moved, delta);
      ClocksMoved(steps[..|steps| - 1], moved[..|steps| - 1], delta);
    }
  }

  lemma {:induction false} SlotMoved(steps: seq<Step>, moved: seq<Step>, delta: int)
    requires StepsMoved(steps, moved, delta)
    ensures Active(moved) == LiveLater(Active(steps), delta) && Expected(moved) == PS.Later(Expected(steps), delta)
  {
    if |steps| > 0 {
      StepsInit(steps, moved, delta);
      SlotMoved(steps[..|steps| - 1], moved[..|steps| - 1], delta);
      QueuedMoved(steps[..|steps| - 1], moved[..|steps| - 1], delta);
    }
  }

  lemma {:induction false} CountsMoved(steps: seq<Step>, moved: seq<Step>, delta: int)
    requires StepsMoved(steps, moved, delta)
    ensures Count(moved, IsArm()) == Count(steps, IsArm()) && Count(moved, IsArmed()) == Count(steps, IsArmed())
    ensures Count(moved, IsFire()) == Count(steps, IsFire()) && Count(moved, IsCancel()) == Count(steps, IsCancel())
  {
    if |steps| > 0 {
      StepsInit(steps, moved, delta);
      CountsMoved(steps[..|steps| - 1], moved[..|steps| - 1], delta);
    }
  }

  // ---- the merged order -------------------------------------------------------------------------------------

  lemma {:induction false} PacedStepsMoved(rows: seq<Q.Row>, moved: seq<Q.Row>, delta: int)
    requires QS.Moved(rows, moved, delta)
    ensures StepsMoved(PacedSteps(rows), PacedSteps(moved), delta)
  {
    if |rows| > 0 {
      QS.MovedInit(rows, moved, delta);
      PacedStepsMoved(rows[..|rows| - 1], moved[..|rows| - 1], delta);
    }
  }

  lemma {:induction false} StepsAdd(a: seq<Step>, b: seq<Step>, c: seq<Step>, d: seq<Step>, delta: int)
    requires StepsMoved(a, b, delta) && StepsMoved(c, d, delta)
    ensures StepsMoved(a + c, b + d, delta)
  {
  }

  lemma {:induction false} AdvanceMoved(rows: seq<Row>, moved: seq<Row>, paced: seq<Q.Row>, later: seq<Q.Row>,
                                        delta: int)
    requires Moved(rows, moved, delta) && QS.Moved(paced, later, delta) && |rows| > 0
    ensures QS.Moved(Advance(rows, paced), Advance(moved, later), delta)
  {
  }

  lemma {:induction false} RowsInit(rows: seq<Row>, moved: seq<Row>, delta: int)
    requires Moved(rows, moved, delta) && |rows| > 0
    ensures Moved(rows[..|rows| - 1], moved[..|rows| - 1], delta)
            && EventMoved(rows[|rows| - 1].event, moved[|rows| - 1].event, delta)
    ensures moved[|rows| - 1].sequence == rows[|rows| - 1].sequence
            && moved[|rows| - 1].pacedSequence == rows[|rows| - 1].pacedSequence
  {
  }

  lemma {:induction false} MergeMoved(rows: seq<Row>, moved: seq<Row>, paced: seq<Q.Row>, later: seq<Q.Row>, delta: int)
    requires Moved(rows, moved, delta) && QS.Moved(paced, later, delta)
    ensures StepsMoved(Merge(rows, paced), Merge(moved, later), delta)
  {
    if |rows| > 0 {
      var init, rest := rows[..|rows| - 1], moved[..|rows| - 1];
      RowsInit(rows, moved, delta);
      MergeMoved(init, rest, paced, later, delta);
      AdvanceMoved(rows, moved, paced, later, delta);
      PacedStepsMoved(Advance(rows, paced), Advance(moved, later), delta);
      StepsAdd(Merge(init, paced), Merge(rest, later), PacedSteps(Advance(rows, paced)),
        PacedSteps(Advance(moved, later)), delta);
      StepsAdd(Merge(init, paced) + PacedSteps(Advance(rows, paced)),
        Merge(rest, later) + PacedSteps(Advance(moved, later)),
               [Timer(rows[|rows| - 1].event)], [Timer(moved[|rows| - 1].event)], delta);
    }
  }

  // ---- admission ----------------------------------------------------------------------------------------------

  lemma {:induction false} AdmitPacedMoved(plan: Q.Plan, steps: seq<Step>, moved: seq<Step>, delta: int, row: Q.Row,
                                           later: Q.Row)
    requires StepsMoved(steps, moved, delta) && QS.EventMoved(row.event, later.event, delta)
    ensures AdmitPaced(plan, moved, later) == AdmitPaced(plan, steps, row)
  {
    QueuedMoved(steps, moved, delta);
    ClocksMoved(steps, moved, delta);
    SlotMoved(steps, moved, delta);
  }

  lemma {:induction false} AdmitTimerMoved(plan: Q.Plan, steps: seq<Step>, moved: seq<Step>, delta: int, e: Event,
                                           f: Event, last: bool)
    requires StepsMoved(steps, moved, delta) && EventMoved(e, f, delta)
    ensures AdmitTimer(plan, moved, f, last) == AdmitTimer(plan, steps, e, last)
  {
    QueuedMoved(steps, moved, delta);
    ClocksMoved(steps, moved, delta);
    SlotMoved(steps, moved, delta);
    CountsMoved(steps, moved, delta);
  }

  lemma {:induction false} AdmitAdvanceMoved(plan: Q.Plan, steps: seq<Step>, moved: seq<Step>, paced: seq<Q.Row>,
                                             later: seq<Q.Row>, delta: int)
    requires StepsMoved(steps, moved, delta) && QS.Moved(paced, later, delta)
    ensures AdmitAdvance(plan, moved, later) == AdmitAdvance(plan, steps, paced)
  {
    if |paced| > 0 {
      var init, rest := paced[..|paced| - 1], later[..|paced| - 1];
      QS.MovedInit(paced, later, delta);
      AdmitAdvanceMoved(plan, steps, moved, init, rest, delta);
      PacedStepsMoved(init, rest, delta);
      StepsAdd(steps, moved, PacedSteps(init), PacedSteps(rest), delta);
      AdmitPacedMoved(plan, steps + PacedSteps(init), moved + PacedSteps(rest), delta, paced[|paced| - 1],
        later[|paced| - 1]);
    }
  }

  lemma {:induction false} FinalizedMoved(rows: seq<Row>, moved: seq<Row>, delta: int)
    requires Moved(rows, moved, delta)
    ensures Finalized(moved) <==> Finalized(rows)
  {
    if Finalized(rows) {
      var i :| 0 <= i < |rows| && rows[i].event.Finalize?;
      assert moved[i].event.Finalize?;
    }
    if Finalized(moved) {
      var i :| 0 <= i < |moved| && moved[i].event.Finalize?;
      assert rows[i].event.Finalize?;
    }
  }

  lemma {:induction false} AdmitRowMoved(plan: Q.Plan, rows: seq<Row>, moved: seq<Row>, paced: seq<Q.Row>,
                                         later: seq<Q.Row>, delta: int, total: nat)
    requires Moved(rows, moved, delta) && QS.Moved(paced, later, delta) && |rows| > 0
    ensures AdmitRow(plan, moved, later, total) == AdmitRow(plan, rows, paced, total)
  {
    var init, rest := rows[..|rows| - 1], moved[..|rows| - 1];
    RowsInit(rows, moved, delta);
    FinalizedMoved(init, rest, delta);
    MergeMoved(init, rest, paced, later, delta);
    AdvanceMoved(rows, moved, paced, later, delta);
    AdmitAdvanceMoved(plan, Merge(init, paced), Merge(rest, later), Advance(rows, paced), Advance(moved, later), delta);
    PacedStepsMoved(Advance(rows, paced), Advance(moved, later), delta);
    StepsAdd(Merge(init, paced), Merge(rest, later), PacedSteps(Advance(rows, paced)),
      PacedSteps(Advance(moved, later)), delta);
    AdmitTimerMoved(plan, Merge(init, paced) + PacedSteps(Advance(rows, paced)),
      Merge(rest, later) + PacedSteps(Advance(moved, later)),
                    delta, rows[|rows| - 1].event, moved[|rows| - 1].event, |rows| == total
                      && rows[|rows| - 1].pacedSequence == |paced|);
  }

  lemma {:induction false} AdmitMoved(plan: Q.Plan, rows: seq<Row>, moved: seq<Row>, paced: seq<Q.Row>,
                                      later: seq<Q.Row>, delta: int, total: nat)
    requires Moved(rows, moved, delta) && QS.Moved(paced, later, delta)
    ensures AdmitAll(plan, moved, later, total) == AdmitAll(plan, rows, paced, total)
  {
    if |rows| > 0 {
      RowsInit(rows, moved, delta);
      AdmitMoved(plan, rows[..|rows| - 1], moved[..|rows| - 1], paced, later, delta, total);
      AdmitRowMoved(plan, rows, moved, paced, later, delta, total);
    }
  }

  lemma {:induction false} EndMoved(rows: seq<Row>, moved: seq<Row>, paced: seq<Q.Row>, later: seq<Q.Row>,
                                    delta: int, started: int)
    requires Moved(rows, moved, delta) && QS.Moved(paced, later, delta)
    ensures AdmitEnd(moved, later, started) == AdmitEnd(rows, paced, started) && Cursor(moved) == Cursor(rows)
  {
    var steps, shifted := Merge(rows, paced), Merge(moved, later);
    MergeMoved(rows, moved, paced, later, delta);
    FinalizedMoved(rows, moved, delta);
    QueuedMoved(steps, shifted, delta);
    SlotMoved(steps, shifted, delta);
    CountsMoved(steps, shifted, delta);
  }

  /** Moving the timer and the paced log together leaves the timer verdict and its check unchanged. */
  lemma {:induction false} VerdictMoved(plan: Q.Plan, rows: seq<Row>, moved: seq<Row>, paced: seq<Q.Row>,
                                        later: seq<Q.Row>, delta: int, report: Q.Report)
    requires Moved(rows, moved, delta) && QS.Moved(paced, later, delta)
    ensures Verdict(plan, moved, later, report) == Verdict(plan, rows, paced, report)
  {
    AdmitMoved(plan, rows, moved, paced, later, delta, |rows|);
    EndMoved(rows, moved, paced, later, delta, report.pacingTimersStarted);
    MergeMoved(rows, moved, paced, later, delta);
    CountsMoved(Merge(rows, paced), Merge(moved, later), delta);
  }
}
