/** Runs that all four checkers accept, for every plan the planner captures: the minimum span is reached, and the
    planned-calls flag alone does not imply it. */
module SampleRun {
  import opened Clock
  import opened ResourcePlan
  import opened ResourceLaws
  import P = ParentTrace
  import Q = PacedTrace
  import T = TimerTrace
  import TI = TimerIdle
  import B = BalanceTrace
  import SP = SampleParent
  import SQ = SamplePaced
  import SB = SampleBalance

  lemma {:induction false} TimeInRange(w: Workload, k: int)
    requires Capture(w).Met? && 0 <= k <= RequestedCalls(w)
    ensures 0 <= k * w.plan.Gap() <= 4096 * 1_000_000_000
  {
    CallsFit(w);
    Monotone(k, 4096, w.plan.Gap());
  }

  lemma {:induction false} Monotone(j: int, k: int, gap: int)
    requires 0 <= j <= k && 0 <= gap <= 1_000_000_000
    ensures 0 <= j * gap <= k * 1_000_000_000
  {
    assert j * gap <= j * 1_000_000_000;
  }

  /** The k-th call happens k gaps after the first. */
  ghost function TimeOf(w: Workload, k: int): Nanos
    requires Capture(w).Met? && 0 <= k <= RequestedCalls(w)
  {
    TimeInRange(w, k);
    k * w.plan.Gap()
  }

  lemma {:induction false} Product(a: int, b: int)
    requires 1 <= a && 1 <= b
    ensures a * b >= 1
  {
  }

  lemma {:induction false} CallsAreCounted(w: Workload)
    requires Capture(w).Met?
    ensures 1 <= RequestedCalls(w) <= 4096
  {
    CallsFit(w);
    Product(w.plan.lanes, w.plan.measurementCallsPerLane);
  }

  /** All requested calls, one gap apart; the first `served` of them enter the source. */
  ghost function CourseOf(w: Workload, served: nat): SP.Course
    requires Capture(w).Met?
  {
    CallsAreCounted(w);
    SP.Course(w.plan.lanes, seq(RequestedCalls(w), k requires 0 <= k < RequestedCalls(w) => TimeOf(w, k)), served)
  }

  lemma {:induction false} GapBetween(w: Workload, k: int)
    requires Capture(w).Met? && 0 < k <= RequestedCalls(w)
    ensures TimeOf(w, k) == TimeOf(w, k - 1) + w.plan.Gap()
  {
  }

  lemma {:induction false} CourseServes(w: Workload, served: nat)
    requires Capture(w).Met?
    ensures SQ.Serves(CourseOf(w, served), w.plan) && SP.RoomFor(CourseOf(w, served), w.plan.limits)
  {
    var c, n := CourseOf(w, served), RequestedCalls(w);
    CallsFit(w);
    CallsAreCounted(w);
    forall j, k | 0 <= j && k == j + 1 < n ensures c.times[k] - c.times[j] >= w.plan.Gap() {
      GapBetween(w, k);
    }
    Ascends(c.times);
    TimeInRange(w, n - 1);
  }

  lemma {:induction false} Ascends(times: seq<Nanos>)
    requires forall j, k :: 0 <= j && k == j + 1 < |times| ==> times[j] <= times[k]
    ensures forall j, k :: 0 <= j <= k < |times| ==> times[j] <= times[k]
  {
    if |times| > 0 {
      var init := times[..|times| - 1];
      Ascends(init);
      forall j, k | 0 <= j <= k < |times| ensures times[j] <= times[k] {
        assert k < |init| ==> init[j] <= init[k];
        assert j < k == |init| ==> init[j] <= init[k - 1] <= times[k];
      }
    }
  }

  /** The four logs of the run and the summaries declared with them. */
  ghost function Run(w: Workload, served: nat): Logs
    requires Capture(w).Met? && served <= RequestedCalls(w)
  {
    CourseServes(w, served);
    var c := CourseOf(w, served);
    var rows, paced := SP.Log(c), SQ.Log(c, w.plan);
    SP.LogHolds(c, w.plan.limits);
    var core := Q.CoreOf(rows);
    Logs(P.Trace(w.plan.limits, CoreEvents(w), rows), P.Rebuild(w.plan.limits, rows), paced,
         SQ.Declared(c, w.plan, core),
         TI.IdleLog(paced), SB.Log(c), B.BarrierMetrics(SB.Log(c)), NodeTimeoutSeconds(w) * 1_000_000_000)
  }

  lemma {:induction false} ParentAccepted(w: Workload, served: nat)
    requires Capture(w).Met? && served <= RequestedCalls(w)
    ensures var logs := Run(w, served);
            |logs.parent.rows| > 0 && P.Verdict(logs.parent, logs.recording, w.plan.limits).Success?
  {
    var c := CourseOf(w, served);
    CourseServes(w, served);
    SP.LogHolds(c, w.plan.limits);
    SP.LogAccepted(c, w.plan.limits);
  }

  lemma {:induction false} PacedAccepted(w: Workload, served: nat)
    requires Capture(w).Met? && served <= RequestedCalls(w)
    ensures var logs := Run(w, served);
            Q.RowsVerdict(w.plan, Q.CoreOf(logs.parent.rows), logs.paced, logs.report).Success?
  {
    var c := CourseOf(w, served);
    CourseServes(w, served);
    SP.LogHolds(c, w.plan.limits);
    SQ.LogAccepted(c, w.plan, Q.CoreOf(SP.Log(c)));
  }

  lemma {:induction false} TimerAccepted(w: Workload, served: nat)
    requires Capture(w).Met? && served <= RequestedCalls(w)
    ensures var logs := Run(w, served); T.Verdict(w.plan, logs.timer, logs.paced, logs.report).Success?
  {
    var logs, c := Run(w, served), CourseOf(w, served);
    var core := Q.CoreOf(logs.parent.rows);
    CourseServes(w, served);
    SP.LogHolds(c, w.plan.limits);
    SQ.LogHolds(c, w.plan, core);
    TI.IdleAccepted(w.plan, core, logs.paced, logs.report);
  }

  lemma {:induction false} BalanceAccepted(w: Workload, served: nat)
    requires Capture(w).Met? && served <= RequestedCalls(w)
    ensures var logs := Run(w, served);
            |logs.parent.rows| > 0
            && B.Verdict(w.plan.lanes, logs.maximumBalance, logs.balance, logs.barriers, logs.parent.rows).Success?
  {
    var logs, c := Run(w, served), CourseOf(w, served);
    CourseServes(w, served);
    SP.LogHolds(c, w.plan.limits);
    TimeoutCovers(w);
    SB.LogAccepted(c, logs.maximumBalance, logs.parent.rows);
  }

  lemma {:induction false} ReportAdmitted(w: Workload, served: nat)
    requires Capture(w).Met? && served <= RequestedCalls(w)
    ensures Q.AdmitReport(w.plan, Run(w, served).report).Met?
  {
    CallsFit(w);
    CourseServes(w, served);
  }

  lemma {:induction false} EnvelopeAccepted(w: Workload, served: nat)
    requires Capture(w).Met? && served <= RequestedCalls(w)
    ensures var logs := Run(w, served);
            Q.Verdict(w.plan, logs.parent, logs.recording, logs.paced, logs.report).Success?
  {
    CapturedPlanAdmitted(w);
    ReportAdmitted(w, served);
    ParentAccepted(w, served);
    PacedAccepted(w, served);
  }

  lemma {:induction false} PacedStarts(w: Workload, served: nat)
    requires Capture(w).Met? && served <= RequestedCalls(w)
    ensures Q.Starts(Run(w, served).paced) == CourseOf(w, served).times[..served]
  {
    var c := CourseOf(w, served);
    CourseServes(w, served);
    SP.LogHolds(c, w.plan.limits);
    SQ.LogHolds(c, w.plan, Q.CoreOf(SP.Log(c)));
  }

  /** The calls that enter the source, one gap apart. */
  lemma {:induction false} RunStarts(w: Workload, served: nat)
    requires Capture(w).Met? && served <= RequestedCalls(w)
    ensures var starts := Q.Starts(Run(w, served).paced);
            |starts| == served && forall k :: 0 <= k < served ==> starts[k] == k * w.plan.Gap()
  {
    PacedStarts(w, served);
    forall k | 0 <= k < served ensures CourseOf(w, served).times[..served][k] == k * w.plan.Gap() {
      assert CourseOf(w, served).times[k] == TimeOf(w, k);
    }
  }

  /** Every captured plan has, for every number of calls, a run that all four checkers accept: all planned calls are
      requested in it, that many of them enter the source, one gap apart, and the others are withdrawn. */
  lemma {:induction false} RunAccepted(w: Workload, served: nat)
    requires Capture(w).Met? && served <= RequestedCalls(w)
    ensures var logs := Run(w, served);
            && Accepted(w, logs) && logs.report.plannedCallsCompleted && logs.report.sourceExecuteEntries == served
            && logs.report.preEntryWithheld == RequestedCalls(w) - served
  {
    EnvelopeAccepted(w, served);
    TimerAccepted(w, served);
    BalanceAccepted(w, served);
  }

  /** The time from the first start to the last. */
  ghost function Span(starts: seq<int>): int
    requires |starts| > 0
  {
    starts[|starts| - 1] - starts[0]
  }

  lemma {:induction false} SpanOfSteps(starts: seq<int>, gapMs: int)
    requires |starts| > 0 && forall k :: 0 <= k < |starts| ==> starts[k] == k * (gapMs * 1_000_000)
    ensures Span(starts) == (|starts| - 1) * gapMs * 1_000_000
  {
    var k := |starts| - 1;
    assert k * (gapMs * 1_000_000) == k * gapMs * 1_000_000;
  }

  /** The span of a run with this many served calls. */
  lemma {:induction false} RunTakes(w: Workload, served: nat)
    requires Capture(w).Met? && 0 < served <= RequestedCalls(w)
    ensures var starts := Q.Starts(Run(w, served).paced);
            |starts| == served && Span(starts) == (served - 1) * w.plan.minimumStartGapMs * 1_000_000
  {
    RunStarts(w, served);
    SpanOfSteps(Q.Starts(Run(w, served).paced), w.plan.minimumStartGapMs);
  }

  /** The minimum span is tight: every captured plan has an accepted run that enters the source for every requested
      call and takes exactly that span for it. */
  lemma {:induction false} SpanReached(w: Workload)
    requires Capture(w).Met?
    ensures RequestedCalls(w) > 0
    ensures var logs := Run(w, RequestedCalls(w));
            && Accepted(w, logs) && logs.report.sourceExecuteEntries == RequestedCalls(w) == |Q.Starts(logs.paced)|
            && Span(Q.Starts(logs.paced)) == MinimumSpanMs(w) * 1_000_000
  {
    Product(w.plan.lanes, w.plan.measurementCallsPerLane);
    RunAccepted(w, RequestedCalls(w));
    RunTakes(w, RequestedCalls(w));
  }

  /** The planned-calls flag alone does not give the span: wherever two calls are planned there is an accepted run with
      the flag set, one call withdrawn, and starts closer together than the minimum. */
  lemma {:induction false} FlagAloneMisses(w: Workload)
    requires Capture(w).Met? && RequestedCalls(w) > 1
    ensures var logs := Run(w, RequestedCalls(w) - 1);
            && Accepted(w, logs) && logs.report.plannedCallsCompleted && logs.report.preEntryWithheld == 1
            && |Q.Starts(logs.paced)| > 0 && Span(Q.Starts(logs.paced)) < MinimumSpanMs(w) * 1_000_000
  {
    RunAccepted(w, RequestedCalls(w) - 1);
    FallsShort(w, RequestedCalls(w));
  }

  lemma {:induction false} FallsShort(w: Workload, n: nat)
    requires Capture(w).Met? && n == RequestedCalls(w) > 1
    ensures var starts := Q.Starts(Run(w, n - 1).paced);
            |starts| > 0 && Span(starts) < MinimumSpanMs(w) * 1_000_000
  {
    var served := n - 1;
    assert MinimumSpanMs(w) == served * w.plan.minimumStartGapMs;
    RunTakes(w, served);
    Shorter(served, w.plan.minimumStartGapMs);
  }

  lemma {:induction false} Shorter(n: int, gapMs: int)
    requires 0 < gapMs
    ensures (n - 1) * gapMs * 1_000_000 < n * gapMs * 1_000_000
  {
    assert n * gapMs == (n - 1) * gapMs + gapMs;
  }
}
