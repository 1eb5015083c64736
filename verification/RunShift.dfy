/** One run depends on differences of the parent's clock only: its four logs move together. */
module RunShift {
  import opened ResourcePlan
  import opened ResourceLaws
  import PS = ParentShift
  import QS = PacedShift
  import TS = TimerShift
  import BS = BalanceShift

  /** The same four logs, every reading of the parent's clock `delta` later; all declared summaries as they were. */
  ghost predicate Moved(logs: Logs, later: Logs, delta: int) {
    && PS.Moved(logs.parent.rows, later.parent.rows, delta)
    && later.parent.limits == logs.parent.limits && later.parent.maximumEvents == logs.parent.maximumEvents
    && QS.Moved(logs.paced, later.paced, delta) && TS.Moved(logs.timer, later.timer, delta)
    && BS.Moved(logs.balance, later.balance, delta)
    && later.recording == logs.recording && later.report == logs.report
    && later.barriers == logs.barriers && later.maximumBalance == logs.maximumBalance
  }

  /** The four checkers accept a run exactly when they accept it moved, with the same summaries. */
  lemma {:induction false} AcceptedMoved(w: Workload, logs: Logs, later: Logs, delta: int)
    requires Moved(logs, later, delta)
    ensures Accepted(w, later) <==> Accepted(w, logs)
    ensures RawEvents(later) == RawEvents(logs)
  {
    QS.VerdictMoved(w.plan, logs.parent, later.parent, logs.recording, logs.paced, later.paced, delta, logs.report);
    TS.VerdictMoved(w.plan, logs.timer, later.timer, logs.paced, later.paced, delta, logs.report);
    if Capture(w).Met? && |logs.parent.rows| > 0 {
      BS.VerdictMoved(w.plan.lanes, logs.maximumBalance, logs.balance, later.balance, logs.barriers, logs.parent.rows,
                      later.parent.rows, delta);
    }
  }
}
