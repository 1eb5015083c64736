/** Why the planned sizes suffice: rounding, and ceilings that the four checkers imply. */
module ResourceLaws {
  import opened Percentiles
  import opened ResourcePlan
  import P = ParentTrace
  import PL = ParentLaws
  import Q = PacedTrace
  import QL = PacedLaws
  import T = TimerTrace
  import TL = TimerLaws
  import B = BalanceTrace

  /** A workload the planner admits is one the envelope checker admits. */
  lemma {:induction false} CapturedPlanAdmitted(w: Workload)
    requires Capture(w).Met?
    ensures Q.AdmitPlan(w.plan).Met?
  {
    assert Slots(w.plan) <= w.plan.limits.maxSamplesPerPhase;
  }

  /** And exactly one that also has at most 256 calls in a lane and both budgets in range. */
  lemma {:induction false} CapturedExactly(w: Workload)
    ensures Capture(w).Met? <==>
              && Q.AdmitPlan(w.plan).Met? && w.plan.warmupCallsPerLane + w.plan.measurementCallsPerLane <= 256
              && 1000 <= w.commandBudgetMs <= 60000 && 6000 <= w.closeBudgetMs <= 15000
  {
    var p := w.plan;
    assert Slots(p) == (1 + p.warmupCallsPerLane + p.measurementCallsPerLane) * p.lanes
                       * p.maxLedgerTransactionsPerOperation;
  }

  lemma {:induction false} RoundUpLeast(amount: int, step: int)
    requires step > 0
    ensures amount <= RoundUp(amount, step) < amount + step
    ensures RoundUp(amount, step) % step == 0
    ensures forall m :: m % step == 0 && amount <= m ==> RoundUp(amount, step) <= m
  {
    var q := (amount + step - 1) / step;
    assert amount + step - 1 == q * step + (amount + step - 1) % step;
    MultipleOf(q, step);
    forall m | m % step == 0 && amount <= m ensures q * step <= m {
      assert m == (m / step) * step;
      BelowNext(q, m / step, step);
    }
  }

  lemma {:induction false} MultipleOf(q: int, step: int)
    requires step > 0
    ensures (q * step) % step == 0
  {
    assert q * step == (q * step) / step * step + (q * step) % step;
    BelowNext(q, (q * step) / step, step);
  }

  /** No multiple lies strictly between two consecutive ones. */
  lemma {:induction false} BelowNext(q: int, k: int, step: int)
    requires step > 0 && (q - 1) * step < k * step
    ensures q * step <= k * step
  {
    QL.FactorOut(q - 1, k, step);
    var more := k - q;
    assert 0 <= more * step;
    assert k * step == (q + more) * step == q * step + more * step;
  }

  /** The reservation fits the entry cap exactly when the bytes to capture do, and then the stdout limit
      is not cut below them. */
  lemma {:induction false} FitsExactly(w: Workload)
    ensures Fits(w) <==> CaptureBytes(w) <= ENTRY_CAPTURE_CAP
    ensures Fits(w) <==> CaptureBytes(w) <= Stdout(w)
    ensures Stdout(w) % STDOUT_STEP == 0
  {
    RoundUpLeast(CaptureBytes(w), STDOUT_STEP);
    assert ENTRY_CAPTURE_CAP % STDOUT_STEP == 0;
  }

  /** The storage quota holds all its parts and wastes less than one MiB. */
  lemma {:induction false} QuotaHoldsParts(w: Workload)
    ensures QuotaParts(w) <= TaskQuota(w) < QuotaParts(w) + MIB && TaskQuota(w) % MIB == 0
  {
    RoundUpLeast(QuotaParts(w), MIB);
  }

  /** The timeout covers every budget and 20 seconds more, rounded up to a second. */
  lemma {:induction false} TimeoutCovers(w: Workload)
    requires Capture(w).Met?
    ensures BudgetMs(w) + 20_000 <= 1000 * NodeTimeoutSeconds(w) < BudgetMs(w) + 21_000
    ensures 28 <= NodeTimeoutSeconds(w) <= 216
  {
  }

  // ---- the four logs of one run ----------------------------------------------------------------

  datatype Logs = Logs(
    parent: P.Trace, recording: P.Recording, paced: seq<Q.Row>, report: Q.Report, timer: seq<T.Row>,
    balance: seq<B.Event>, barriers: seq<Metric>, maximumBalance: int)

  /** The four checkers accept the logs of a planned run. */
  ghost predicate Accepted(w: Workload, logs: Logs) {
    && Capture(w).Met?
    && Q.Verdict(w.plan, logs.parent, logs.recording, logs.paced, logs.report).Success?
    && T.Verdict(w.plan, logs.timer, logs.paced, logs.report).Success?
    && |logs.parent.rows| > 0
    && B.Verdict(w.plan.lanes, logs.maximumBalance, logs.balance, logs.barriers, logs.parent.rows).Success?
  }

  ghost function RawEvents(logs: Logs): nat {
    |logs.parent.rows| + |logs.paced| + |logs.timer| + |logs.balance|
  }

  /** The paced checker runs the parent's first. */
  lemma {:induction false} ParentVerdict(plan: Q.Plan, parent: P.Trace, recording: P.Recording, rows: seq<Q.Row>,
                                         report: Q.Report)
    requires Q.Verdict(plan, parent, recording, rows, report).Success?
    ensures P.Verdict(parent, recording, plan.limits).Success?
  {
  }

  lemma {:induction false} ParentWithinCeiling(w: Workload, logs: Logs)
    requires Accepted(w, logs)
    ensures P.Verdict(logs.parent, logs.recording, w.plan.limits).Success?
    ensures |logs.parent.rows| <= CoreEvents(w)
  {
    ParentVerdict(w.plan, logs.parent, logs.recording, logs.paced, logs.report);
    PL.VerdictParts(logs.parent, logs.recording, w.plan.limits);
    PL.RowCeiling(logs.parent.limits, logs.parent.rows);
  }

  lemma {:induction false} PacedParts(w: Workload, logs: Logs)
    requires Accepted(w, logs)
    ensures var core := Q.CoreOf(logs.parent.rows);
            && QL.Admitted(w.plan, core, logs.paced, |logs.paced|)
            && Q.AdmitEnd(core, logs.paced, logs.report).Met?
            && logs.report.plannedCallsCompleted == Q.PlannedCallsDone(w.plan, logs.paced)
    ensures 0 <= logs.report.pacingTimersStarted <= logs.report.requestedMeasuredCalls
  {
    VerdictParts(w.plan, logs.parent, logs.recording, logs.paced, logs.report);
    RowsParts(w.plan, Q.CoreOf(logs.parent.rows), logs.paced, logs.report);
  }

  lemma {:induction false} VerdictParts(plan: Q.Plan, parent: P.Trace, recording: P.Recording, rows: seq<Q.Row>,
                                        report: Q.Report)
    requires Q.Verdict(plan, parent, recording, rows, report).Success?
    ensures Q.RowsVerdict(plan, Q.CoreOf(parent.rows), rows, report).Success?
    ensures 0 <= report.pacingTimersStarted <= report.requestedMeasuredCalls
  {
  }

  lemma {:induction false} RowsParts(plan: Q.Plan, core: Q.Core, rows: seq<Q.Row>, report: Q.Report)
    requires Q.RowsVerdict(plan, core, rows, report).Success?
    ensures QL.Admitted(plan, core, rows, |rows|) && Q.AdmitEnd(core, rows, report).Met?
    ensures report.plannedCallsCompleted == Q.PlannedCallsDone(plan, rows)
  {
  }

  lemma {:induction false} PacedWithinCeiling(w: Workload, logs: Logs)
    requires Accepted(w, logs)
    ensures |logs.paced| <= 4 * RequestedCalls(w) + 1
    ensures logs.report.requestedMeasuredCalls <= RequestedCalls(w)
  {
    var core := Q.CoreOf(logs.parent.rows);
    PacedParts(w, logs);
    CapturedPlanAdmitted(w);
    QL.PlannedCallsMeaning(w.plan, core, logs.paced, |logs.paced|);
    QL.RowCeiling(w.plan, core, logs.paced);
    QL.RequestsConserved(w.plan, core, logs.paced, |logs.paced|);
    QL.RowsByKind(w.plan, core, logs.paced, |logs.paced|);
  }

  lemma {:induction false} TimerWithinCeiling(w: Workload, logs: Logs)
    requires Accepted(w, logs)
    ensures |logs.timer| <= 3 * RequestedCalls(w) + 1
  {
    PacedParts(w, logs);
    PacedWithinCeiling(w, logs);
    TL.RowCeiling(w.plan, logs.timer, logs.paced, logs.report.pacingTimersStarted);
  }

  lemma {:induction false} BalanceParts(lanes: nat, maximum: int, events: seq<B.Event>, metrics: seq<Metric>,
                                        rows: seq<P.Row>)
    requires |rows| > 0 && B.Verdict(lanes, maximum, events, metrics, rows).Success?
    ensures |events| == 6 * lanes
  {
  }

  lemma {:induction false} BalanceAsPlanned(w: Workload, logs: Logs)
    requires Accepted(w, logs)
    ensures |logs.balance| == BalanceEvents(w)
  {
    BalanceParts(w.plan.lanes, logs.maximumBalance, logs.balance, logs.barriers, logs.parent.rows);
  }

  lemma {:induction false} CallsFit(w: Workload)
    requires Capture(w).Met?
    ensures RequestedCalls(w) < w.plan.limits.maxSamplesPerPhase
  {
    CapturedPlanAdmitted(w);
    QL.PlanHasRoom(w.plan);
  }

  lemma {:induction false} CeilingsAddUp(w: Workload, logs: Logs)
    requires |logs.parent.rows| <= CoreEvents(w) && |logs.paced| <= 4 * RequestedCalls(w) + 1
    requires |logs.timer| <= 3 * RequestedCalls(w) + 1 && |logs.balance| == BalanceEvents(w)
    requires RequestedCalls(w) < w.plan.limits.maxSamplesPerPhase
    ensures RawEvents(logs) <= CoreEvents(w) + 7 * RequestedCalls(w) + 2 + BalanceEvents(w) < UniqueEvents(w)
  {
    var calls := RequestedCalls(w);
    assert 7 * calls < 8 * w.plan.limits.maxSamplesPerPhase;
  }

  /** The planned number of raw events is never reached by logs that the checkers accept: the parent and
      balance logs may use their whole shares, the paced and timer logs only what the requested calls need. */
  lemma {:induction false} RawEventsWithinPlan(w: Workload, logs: Logs)
    requires Accepted(w, logs)
    ensures RawEvents(logs) <= CoreEvents(w) + 7 * RequestedCalls(w) + 2 + BalanceEvents(w) < UniqueEvents(w)
  {
    ParentWithinCeiling(w, logs);
    PacedWithinCeiling(w, logs);
    TimerWithinCeiling(w, logs);
    BalanceAsPlanned(w, logs);
    CallsFit(w);
    CeilingsAddUp(w, logs);
  }

  lemma {:induction false} SpanOfStarts(w: Workload, starts: seq<int>)
    requires 1 <= w.plan.lanes && 1 <= w.plan.measurementCallsPerLane && |starts| == RequestedCalls(w)
    requires QL.Apart(starts, w.plan.Gap())
    ensures |starts| > 0 && starts[|starts| - 1] - starts[0] >= MinimumSpanMs(w) * 1_000_000
  {
    var n, gap := |starts|, w.plan.minimumStartGapMs;
    assert w.plan.lanes * w.plan.measurementCallsPerLane >= 1;
    QL.GapsAddUp(starts, w.plan.Gap(), 0, n - 1);
    assert MinimumSpanMs(w) == (n - 1) * gap;
    assert (n - 1) * (gap * 1_000_000) == (n - 1) * gap * 1_000_000;
  }

  lemma {:induction false} FullRunSpan(w: Workload, core: Q.Core, rows: seq<Q.Row>)
    requires 1 <= w.plan.lanes && 1 <= w.plan.measurementCallsPerLane && QL.Admitted(w.plan, core, rows, |rows|)
    requires Q.Fifo(rows) == [] && Q.Occupied(core, rows) == map[]
    requires Q.PlannedCallsDone(w.plan, rows) && Q.Count(rows, Q.IsWithdraw()) == 0
    ensures var starts := Q.Starts(rows);
            |starts| == RequestedCalls(w) > 0 && starts[|starts| - 1] - starts[0] >= MinimumSpanMs(w) * 1_000_000
  {
    QL.PlannedCallsMeaning(w.plan, core, rows, |rows|);
    QL.RequestsConserved(w.plan, core, rows, |rows|);
    QL.GapsKept(w.plan, core, rows, |rows|);
    SpanOfStarts(w, Q.Starts(rows));
  }

  /** A run enters the source for every requested call exactly when all planned calls were completed and none of
      them by a withdrawal; the flag alone does not say so. */
  lemma {:induction false} FullRunMeaning(w: Workload, logs: Logs)
    requires Accepted(w, logs)
    ensures logs.report.sourceExecuteEntries == RequestedCalls(w) <==>
              logs.report.plannedCallsCompleted && logs.report.preEntryWithheld == 0
  {
    var core := Q.CoreOf(logs.parent.rows);
    PacedParts(w, logs);
    QL.PlannedCallsMeaning(w.plan, core, logs.paced, |logs.paced|);
    QL.RequestsConserved(w.plan, core, logs.paced, |logs.paced|);
  }

  /** A run that enters the source for every requested call spreads its starts over at least the planned
      minimum span. */
  lemma {:induction false} RunSpan(w: Workload, logs: Logs)
    requires Accepted(w, logs) && logs.report.sourceExecuteEntries == RequestedCalls(w)
    ensures var starts := Q.Starts(logs.paced);
            |starts| == RequestedCalls(w) > 0 && starts[|starts| - 1] - starts[0] >= MinimumSpanMs(w) * 1_000_000
  {
    PacedParts(w, logs);
    FullRunMeaning(w, logs);
    FullRunSpan(w, Q.CoreOf(logs.parent.rows), logs.paced);
  }
}
