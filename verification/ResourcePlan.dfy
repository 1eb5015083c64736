/** The arithmetic that sizes a run before it starts. */
module ResourcePlan {
  import opened Wrappers
  import Q = PacedTrace

  const MIB: int := 1048576
  const ENTRY_CAPTURE_CAP: int := 16 * MIB
  const STDOUT_STEP: int := 65536
  const PROFILE_CAP: int := 524288
  const ENTRY_PLAN_CAP: int := 65536

  /** A paced plan and the two budgets around it. */
  datatype Workload = Workload(plan: Q.Plan, commandBudgetMs: int, closeBudgetMs: int)

  datatype Code =
    | UniqueLanes | WarmupBound | MeasuredCallBound | TotalCallBound | SetupBound | MeasurementBound | DrainBound
    | LedgerBound | SampleBound | InFlightBound | GapBound | RecordingCapacity | CommandBudget | CloseBudget

  /** The samples that the plan may need in one phase. */
  function Slots(plan: Q.Plan): int {
    (1 + plan.warmupCallsPerLane + plan.measurementCallsPerLane) * plan.lanes * plan.maxLedgerTransactionsPerOperation
  }

  function Capture(w: Workload): Requirement<Code> {
    var p, limits := w.plan, w.plan.limits;
    if !(1 <= p.lanes <= 16) then Refused(UniqueLanes)
    else if !(0 <= p.warmupCallsPerLane <= 255) then Refused(WarmupBound)
    else if !(1 <= p.measurementCallsPerLane <= 256) then Refused(MeasuredCallBound)
    else if !(p.warmupCallsPerLane + p.measurementCallsPerLane <= 256) then Refused(TotalCallBound)
    else if !(1 <= p.setupBudgetMs <= 60000) then Refused(SetupBound)
    else if !(1 <= p.measurementWindowMs <= 60000) then Refused(MeasurementBound)
    else if !(1 <= p.drainGraceMs <= 1000) then Refused(DrainBound)
    else if !(1 <= p.maxLedgerTransactionsPerOperation <= 16) then Refused(LedgerBound)
    else if !(1 <= limits.maxSamplesPerPhase <= 4096) then Refused(SampleBound)
    else if !(1 <= limits.maxInFlightPerPhase <= 64) then Refused(InFlightBound)
    else if !(1 <= p.minimumStartGapMs <= 1000) then Refused(GapBound)
    else if !(limits.maxInFlightPerPhase <= limits.maxSamplesPerPhase && p.lanes <= limits.maxInFlightPerPhase
              && 3 * p.lanes <= limits.maxSamplesPerPhase && Slots(p) <= limits.maxSamplesPerPhase)
                 then Refused(RecordingCapacity)
    else if !(1000 <= w.commandBudgetMs <= 60000) then Refused(CommandBudget)
    else Require(6000 <= w.closeBudgetMs <= 15000, CloseBudget)
  }

  // ---- event ceilings --------------------------------------------------------------------------

  function CoreEvents(w: Workload): int { 7 * w.plan.limits.maxSamplesPerPhase + 4 }

  function PacedEvents(w: Workload): int { 4 * w.plan.limits.maxSamplesPerPhase + 1 }

  function TimerEvents(w: Workload): int { 4 * w.plan.limits.maxSamplesPerPhase + 1 }

  function BalanceEvents(w: Workload): int { 2 * (3 * w.plan.lanes) }

  function UniqueEvents(w: Workload): int {
    CoreEvents(w) + PacedEvents(w) + BalanceEvents(w) + TimerEvents(w)
  }

  function RequestedCalls(w: Workload): int { w.plan.lanes * w.plan.measurementCallsPerLane }

  /** Milliseconds that dispatching every requested call takes at least. */
  function MinimumSpanMs(w: Workload): int {
    (if RequestedCalls(w) - 1 > 0 then RequestedCalls(w) - 1 else 0) * w.plan.minimumStartGapMs
  }

  // ---- byte reservations -------------------------------------------------------------------------

  /** The least multiple of `step` that is at least `amount`, as the plan computes it. */
  function RoundUp(amount: int, step: int): int
    requires step > 0
  {
    (amount + step - 1) / step * step
  }

  function Least(a: int, b: int): int {
    if a < b then a else b
  }

  function CallsPerLane(w: Workload): int { w.plan.warmupCallsPerLane + w.plan.measurementCallsPerLane }

  /** Writer intervals that one lane may report. */
  function WriterRows(w: Workload): int { 12 * CallsPerLane(w) + 64 }

  function CoreAndPacedBytes(w: Workload): int { 16384 + 256 * (CoreEvents(w) + PacedEvents(w)) }

  function BalanceTraceBytes(w: Workload): int { 4096 + 256 * w.plan.lanes + 256 * BalanceEvents(w) }

  function BalanceBytes(w: Workload): int { BalanceTraceBytes(w) + 4096 + 2048 + 768 * w.plan.lanes }

  function TimerTraceBytes(w: Workload): int { 8192 + 256 * TimerEvents(w) }

  function TimerBytes(w: Workload): int { TimerTraceBytes(w) + 4096 + 2048 }

  function LaneBytes(w: Workload): int { 1024 * WriterRows(w) + 384 * 264 + 32768 + 65536 }

  function CaptureBytes(w: Workload): int {
    131072 + w.plan.lanes * LaneBytes(w) + CoreAndPacedBytes(w) + BalanceBytes(w) + TimerBytes(w)
  }

  function RequestedStdout(w: Workload): int { RoundUp(CaptureBytes(w), STDOUT_STEP) }

  function Stdout(w: Workload): int { Least(ENTRY_CAPTURE_CAP, RequestedStdout(w)) }

  predicate Fits(w: Workload) { RequestedStdout(w) <= ENTRY_CAPTURE_CAP }

  function CommandStreams(w: Workload): int { Stdout(w) + Least(Stdout(w), MIB) + 16384 + Least(Stdout(w), MIB) }

  /** Everything that the storage quota must hold, before rounding. */
  function QuotaParts(w: Workload): int {
    (2 * w.plan.lanes + 1) * PROFILE_CAP + ENTRY_PLAN_CAP + 32 * MIB * w.plan.lanes + CommandStreams(w)
    + 32768 * w.plan.lanes + MIB
  }

  function TaskQuota(w: Workload): int { RoundUp(QuotaParts(w), MIB) }

  /** All budgets together, in milliseconds. */
  function BudgetMs(w: Workload): int {
    w.plan.setupBudgetMs + w.plan.measurementWindowMs + w.plan.drainGraceMs + w.closeBudgetMs + w.commandBudgetMs
  }

  function NodeTimeoutSeconds(w: Workload): int { (BudgetMs(w) + 999) / 1000 + 20 }
}
