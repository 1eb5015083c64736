/** A timer log without timers: what it takes for the timer checker to accept it. */
module TimerIdle {
  import opened TimerTrace
  import Q = PacedTrace
  import PL = PacedLaws
  import TL = TimerLaws

  /** The one row that reads the whole paced log. */
  function IdleLog(paced: seq<Q.Row>): seq<Row> {
    [Row(1, |paced|, Finalize)]
  }

  /** Reading paced rows alone sets no timer and expects no dispatch; the clock is the paced log's own. */
  lemma {:induction false} OnlyPaced(paced: seq<Q.Row>)
    ensures var steps := PacedSteps(paced);
            && Active(steps).None? && Expected(steps).None? && Latest(steps) == Q.Previous(paced)
            && TL.PacedPart(steps) == paced
            && Count(steps, IsArm()) == Count(steps, IsArmed()) == Count(steps, IsFire()) == Count(steps, IsCancel())
               == 0
  {
    if |paced| > 0 {
      var init, steps := paced[..|paced| - 1], PacedSteps(paced);
      OnlyPaced(init);
      assert steps[..|steps| - 1] == PacedSteps(init) && steps[|steps| - 1] == Paced(paced[|paced| - 1]);
    }
  }

  lemma {:induction false} NextRead(plan: Q.Plan, core: Q.Core, paced: seq<Q.Row>, k: nat)
    requires PL.Admitted(plan, core, paced, |paced|) && k < |paced|
    ensures AdmitPaced(plan, PacedSteps(paced[..k]), paced[k]).Met?
  {
    OnlyPaced(paced[..k]);
    PL.PrefixAdmitted(plan, core, paced, k + 1, |paced|);
    assert paced[..k + 1][..k] == paced[..k];
    TL.CrossBoundQueueNeverRefuses(plan, core, PacedSteps(paced[..k]), paced);
  }

  /** Without a timer every row of an accepted paced log may be read. */
  lemma {:induction false} PacedRead(plan: Q.Plan, core: Q.Core, paced: seq<Q.Row>, k: nat)
    requires PL.Admitted(plan, core, paced, |paced|) && k <= |paced|
    ensures AdmitAdvance(plan, [], paced[..k]).Met?
  {
    if k > 0 {
      var init := paced[..k - 1];
      PacedRead(plan, core, paced, k - 1);
      assert paced[..k][..k - 1] == init;
      assert [] + PacedSteps(init) == PacedSteps(init);
      NextRead(plan, core, paced, k - 1);
    }
  }

  lemma {:induction false} IdleMerged(paced: seq<Q.Row>)
    ensures var rows := IdleLog(paced);
            Advance(rows, paced) == paced && Merge(rows[..0], paced) == []
              && Merge(rows, paced) == PacedSteps(paced) + [Timer(Finalize)]
  {
    var rows := IdleLog(paced);
    assert rows[..0] == [] && paced[..|paced|] == paced;
    assert [] + PacedSteps(paced) == PacedSteps(paced);
  }

  lemma {:induction false} IdleAdmitted(plan: Q.Plan, core: Q.Core, paced: seq<Q.Row>)
    requires PL.Admitted(plan, core, paced, |paced|)
    ensures AdmitAll(plan, IdleLog(paced), paced, 1).Met?
  {
    var rows := IdleLog(paced);
    IdleMerged(paced);
    PacedRead(plan, core, paced, |paced|);
    assert rows[..0] == [] && paced[..|paced|] == paced;
    assert AdmitAll(plan, rows[..0], paced, 1).Met?;
    assert AdmitRow(plan, rows, paced, 1).Met?;
  }

  /** The final row changes no figure. */
  lemma {:induction false} FinalChangesNothing(steps: seq<Step>)
    ensures var merged := steps + [Timer(Finalize)];
            && Queued(merged) == Queued(steps) && Active(merged) == Active(steps) && Expected(merged) == Expected(steps)
            && Count(merged, IsArm()) == Count(steps, IsArm()) && Count(merged, IsArmed()) == Count(steps, IsArmed())
            && Count(merged, IsFire()) == Count(steps, IsFire())
            && Count(merged, IsCancel()) == Count(steps, IsCancel())
  {
    var merged := steps + [Timer(Finalize)];
    assert merged[..|steps|] == steps && merged[|steps|] == Timer(Finalize);
  }

  lemma {:induction false} IdleEnds(plan: Q.Plan, core: Q.Core, paced: seq<Q.Row>, started: int)
    requires PL.Admitted(plan, core, paced, |paced|) && Q.Fifo(paced) == []
    ensures AdmitEnd(IdleLog(paced), paced, started).Met? <==> started == 0
  {
    IdleMerged(paced);
    OnlyPaced(paced);
    assert Queued(PacedSteps(paced)) == 0 by {
      TL.QueuedIsLength(plan, core, PacedSteps(paced), |paced|);
    }
    FinalChangesNothing(PacedSteps(paced));
    assert IdleLog(paced)[0].event.Finalize?;
  }

  /** On every accepted, finished paced log the idle timer log is accepted exactly when the report starts no timer. */
  lemma {:induction false} IdleAccepted(plan: Q.Plan, core: Q.Core, paced: seq<Q.Row>, report: Q.Report)
    requires PL.Admitted(plan, core, paced, |paced|) && Q.Fifo(paced) == [] && 0 <= plan.limits.maxSamplesPerPhase
    ensures Verdict(plan, IdleLog(paced), paced, report).Success? <==> report.pacingTimersStarted == 0
  {
    IdleAdmitted(plan, core, paced);
    IdleEnds(plan, core, paced, report.pacingTimersStarted);
  }
}
