/** The parent checker as it runs: one pass over the rows. */
module ParentReplay {
  import opened Wrappers
  import opened Clock
  import opened ParentTrace
  import opened ParentTables
  import L = ParentLaws

  /** One more row moves every table by its event. */
  lemma {:induction false} TablesNext(rows: seq<Row>, row: Row)
    ensures var next, open, stage := rows + [row], Open(rows), StageOf(rows);
            && BoundsOf(next) == BoundsAfter(BoundsOf(rows), row.event) && StageOf(next) == StageAfter(stage, row.event)
            && Count(next, IsBegin()) == Count(rows, IsBegin()) + (if row.event.Begin? then 1 else 0)
            && Open(next) == OpenAfter(open, row.event)
            && CountersOf(next) == CountersAfter(CountersOf(rows), stage, open, row.event)
            && WindowOf(next) == WindowAfter(WindowOf(rows), CountersOf(rows).lives, stage, open, row.event)
            && ChecksOf(next) == ChecksAfter(ChecksOf(rows), stage, open, row.event)
  {
    assert (rows + [row])[..|rows|] == rows;
  }

  lemma {:induction false} AdmittedNext(limits: Limits, rows: seq<Row>, row: Row, total: nat)
    requires L.Admitted(limits, rows, total) && Admit(limits, rows, row, total).Met?
    ensures L.Admitted(limits, rows + [row], total)
  {
    assert (rows + [row])[..|rows|] == rows;
  }

  /** The checks before the branch, in terms of the boundary readings. */
  lemma {:induction false} AdmitsFirst(limits: Limits, rows: seq<Row>, row: Row, total: nat)
    requires L.Admitted(limits, rows, total)
    ensures var b := BoundsOf(rows);
            Admit(limits, rows, row, total) ==
              if row.sequence != |rows| + 1 then Refused(EventSequence)
              else if b.ended.Some? then Refused(EventAfterFinalize)
              else if b.previous.Some? && b.previous.value > row.event.at then Refused(ClockOrder)
              else AdmitEvent(limits, rows, row.event, |rows| + 1 == total)
  {
    BoundsCell(limits, rows, total);
  }

  /** The readings in the report are those of the boundaries. */
  lemma {:induction false} ReportReadings(limits: Limits, rows: seq<Row>, total: nat)
    requires L.Admitted(limits, rows, total) && CompleteWindowRows(rows)
    ensures var b, r := BoundsOf(rows), Rebuild(limits, rows);
            && b.start.Some? && b.stop.Some? && b.ended.Some? && b.runStart.Some?
            && r.warmupNanoseconds == (if b.warmupStart.None? then None else Some(b.start.value - b.warmupStart.value))
            && r.measurementNanoseconds == b.stop.value - b.start.value
            && r.drainNanoseconds == b.ended.value - b.stop.value
            && r.runNanoseconds == b.ended.value - b.runStart.value
  {
    BoundsCell(limits, rows, total);
  }

  /** The variables of the pass over the rows. */
  class Replay {
    const limits: Limits
    const total: nat
    ghost var seen: seq<Row>
    var bounds: Bounds
    var observation: int
    var active: map<int, Begun>
    var counters: Counters
    var window: Window
    var checks: Checks

    ghost predicate Valid()
      reads this
    {
      && bounds == BoundsOf(seen) && bounds.stage == StageOf(seen) && observation == Count(seen, IsBegin())
         && active == Open(seen)
      && counters == CountersOf(seen) && window == WindowOf(seen) && checks == ChecksOf(seen)
    }

    constructor (limits: Limits, total: nat)
      ensures Valid() && seen == [] && this.limits == limits && this.total == total
    {
      this.limits, this.total, seen := limits, total, [];
      bounds, observation, active := NO_BOUNDS, 0, map[];
      counters, window, checks := NO_COUNTERS, NO_WINDOW, NO_CHECKS;
    }

    /** A row that opens the warmup. */
    method OnStartWarmup(row: Row) returns (r: Requirement<Code>)
      requires Valid() && row.event.StartWarmup?
      modifies this
      ensures r == AdmitEvent(limits, old(seen), row.event, |old(seen)| + 1 == total)
      ensures r.Met? ==> Valid() && seen == old(seen) + [row]
    {
      if bounds.stage != Created {
        return Refused(WarmupOrder);
      }
      bounds := bounds.(warmupStart := Some(row.event.at), runStart := Some(row.event.at));
      bounds := bounds.(stage := Warming, previous := Some(row.event.at));
      TablesNext(seen, row);
      seen := seen + [row];
      return Met;
    }

    /** The observation enters the counters of its phase and cohort. */
    method EnterCounters(row: Row)
      requires row.event.Begin?
      modifies this`counters
      ensures counters == CountersAfter(old(counters), bounds.stage, active, row.event)
    {
      var p, c := row.event.phase, row.event.cohort;
      counters := counters.(flows := counters.flows.Set(p, counters.flows.Get(p).Enter(bounds.stage)));
      counters := counters.(groups := Write(counters.groups, c, p, Cell(counters.groups, c, p).Enter()));
      counters := counters.(lives := Write(counters.lives, c, p, Cell(counters.lives, c, p) + 1));
    }

    /** May the observation begin? */
    method CheckBegin(row: Row) returns (r: Requirement<Code>)
      requires Valid() && row.event.Begin?
      ensures r == AdmitEvent(limits, seen, row.event, |seen| + 1 == total)
    {
      var stage, p := bounds.stage, row.event.phase;
      if !((stage == Warming || stage == Measuring) && row.event.cohort == CohortOf(stage)) {
        return Refused(BeginCohort);
      }
      if row.event.observation != observation + 1 {
        return Refused(BeginOrdinal);
      }
      FlowCell(seen, p);
      var flow := counters.flows.Get(p);
      return Require(flow.entered < limits.maxSamplesPerPhase && flow.active < limits.maxInFlightPerPhase,
                     PhaseCapacity);
    }

    /** The admitted observation is live from here on. */
    method TakeBegin(row: Row)
      requires Valid() && row.event.Begin? && row.event.observation == observation + 1
      modifies this
      ensures Valid() && seen == old(seen) + [row]
    {
      var at, p, c := row.event.at, row.event.phase, row.event.cohort;
      TablesNext(seen, row);
      EnterCounters(row);
      observation := observation + 1;
      checks := checks.(metas := Ticked(checks.metas, c, at));
      active := active[observation := Begun(at, p, c)];
      bounds := bounds.(previous := Some(at));
      seen := seen + [row];
    }

    /** An observation begins. */
    method OnBegin(row: Row) returns (r: Requirement<Code>)
      requires Valid() && row.event.Begin?
      modifies this
      ensures r == AdmitEvent(limits, old(seen), row.event, |old(seen)| + 1 == total)
      ensures r.Met? ==> Valid() && seen == old(seen) + [row]
    {
      r := CheckBegin(row);
      if r.Met? {
        TakeBegin(row);
      }
    }

    /** The measurement window opens. */
    method OnStartMeasurement(row: Row) returns (r: Requirement<Code>)
      requires Valid() && row.event.StartMeasurement?
      modifies this
      ensures r == AdmitEvent(limits, old(seen), row.event, |old(seen)| + 1 == total)
      ensures r.Met? ==> Valid() && seen == old(seen) + [row]
    {
      if !(bounds.stage == Created || bounds.stage == Warming) {
        return Refused(StartOrder);
      }
      var at := row.event.at;
      if bounds.runStart.None? {
        bounds := bounds.(runStart := Some(at));
      }
      bounds := bounds.(start := Some(at), stage := Measuring);
      window := window.(atStart := counters.lives);
      var flows := counters.flows;
      counters := counters.(flows := PerPhase(flows.funding.OpenWindow(), flows.call.OpenWindow(),
        flows.ledger.OpenWindow()));
      bounds := bounds.(previous := Some(at));
      TablesNext(seen, row);
      seen := seen + [row];
      return Met;
    }

    /** The measurement window closes. */
    method OnStopMeasurement(row: Row) returns (r: Requirement<Code>)
      requires Valid() && bounds.start == Latest(seen, IsStart()) && row.event.StopMeasurement?
      modifies this
      ensures r == AdmitEvent(limits, old(seen), row.event, |old(seen)| + 1 == total)
      ensures r.Met? ==> Valid() && seen == old(seen) + [row]
    {
      if !(bounds.stage == Measuring && bounds.start.Some? && row.event.at > bounds.start.value) {
        return Refused(StopOrder);
      }
      bounds := bounds.(stop := Some(row.event.at), stage := Draining);
      window := window.(atStop := counters.lives);
      bounds := bounds.(previous := Some(row.event.at));
      TablesNext(seen, row);
      seen := seen + [row];
      return Met;
    }

    /** The observation leaves the counters of its phase and cohort, with its latency. */
    method LeaveCounters(row: Row)
      requires row.event.Finish? && row.event.observation in active
      modifies this`counters
      ensures counters == CountersAfter(old(counters), bounds.stage, active, row.event)
    {
      var begun, outcome := active[row.event.observation], row.event.outcome;
      var p, c := begun.phase, begun.cohort;
      counters := counters.(flows := counters.flows.Set(p, counters.flows.Get(p).Leave()));
      counters := counters.(groups := Write(counters.groups, c, p, Cell(counters.groups, c, p).Leave(outcome)));
      counters := counters.(lives := Write(counters.lives, c, p, Cell(counters.lives, c, p) - 1));
      counters := counters.(samples := Write(counters.samples, c, p,
        Cell(counters.samples, c, p).Add(row.event.at - begun.at, outcome)));
    }

    /** Terminals are counted inside the window and after it. */
    method CountTerminal(row: Row)
      requires row.event.Finish? && row.event.observation in active
      modifies this`window
      ensures window == WindowAfter(old(window), counters.lives, bounds.stage, active, row.event)
    {
      var begun, outcome := active[row.event.observation], row.event.outcome;
      var p, c := begun.phase, begun.cohort;
      if bounds.stage == Measuring {
        window := window.(inside := Write(window.inside, c, p, Cell(window.inside, c, p).Add(outcome)));
      } else if bounds.stage == Draining {
        window := window.(after := Write(window.after, c, p, Cell(window.after, c, p).Add(outcome)));
      }
    }

    /** A live observation finishes. */
    method OnFinish(row: Row) returns (r: Requirement<Code>)
      requires Valid() && row.event.Finish?
      modifies this
      ensures r == AdmitEvent(limits, old(seen), row.event, |old(seen)| + 1 == total)
      ensures r.Met? ==> Valid() && seen == old(seen) + [row]
    {
      var o, at := row.event.observation, row.event.at;
      if !(1 <= o <= 3 * limits.maxSamplesPerPhase) {
        return Refused(FinishOrdinal);
      }
      if o !in active {
        return Refused(FinishUnknownOrDuplicate);
      }
      CountTerminal(row);
      LeaveCounters(row);
      checks := checks.(metas := Ticked(checks.metas, active[o].cohort, at));
      active := active - {o};
      bounds := bounds.(previous := Some(at));
      TablesNext(seen, row);
      seen := seen + [row];
      return Met;
    }

    /** The check counts in total, in its stage and in its cohort. */
    method CountCheck(row: Row)
      requires row.event.BalanceCheck? && bounds.stage != Created
      modifies this`checks
      ensures checks == ChecksAfter(old(checks), bounds.stage, active, row.event)
    {
      checks := checks.(balances := checks.balances + 1);
      match bounds.stage {
        case Warming => checks := checks.(warming := checks.warming + 1);
        case Measuring => checks := checks.(measuring := checks.measuring + 1);
        case Draining => checks := checks.(draining := checks.draining + 1);
      }
      var cohort := CohortOf(bounds.stage);
      var meta := checks.metas.Get(cohort);
      checks := checks.(metas := checks.metas.Set(cohort, meta.(balances := meta.balances + 1)));
    }

    /** A balance check that matches. */
    method OnBalanceCheck(row: Row) returns (r: Requirement<Code>)
      requires Valid() && checks.balances == Count(seen, IsBalance()) && row.event.BalanceCheck?
      modifies this
      ensures r == AdmitEvent(limits, old(seen), row.event, |old(seen)| + 1 == total)
      ensures r.Met? ==> Valid() && seen == old(seen) + [row]
    {
      var stage := bounds.stage;
      if !(stage != Created && row.event.matches && checks.balances < limits.maxSamplesPerPhase) {
        return Refused(BalanceUnknown);
      }
      CountCheck(row);
      bounds := bounds.(previous := Some(row.event.at));
      TablesNext(seen, row);
      seen := seen + [row];
      return Met;
    }

    /** The log ends. */
    method OnFinalize(row: Row, index: nat) returns (r: Requirement<Code>)
      requires Valid() && row.event.Finalize? && index == |seen|
      modifies this
      ensures r == AdmitEvent(limits, old(seen), row.event, |old(seen)| + 1 == total)
      ensures r.Met? ==> Valid() && seen == old(seen) + [row]
    {
      if !(bounds.stage == Draining && active == map[] && index + 1 == total) {
        return Refused(FinalizationPendingOrOrder);
      }
      bounds := bounds.(ended := Some(row.event.at), previous := Some(row.event.at));
      TablesNext(seen, row);
      seen := seen + [row];
      return Met;
    }

    /** One row: its place in the log and on the clock, then the branch of its kind. */
    method Accept(row: Row, index: nat) returns (r: Requirement<Code>)
      requires Valid() && L.Admitted(limits, seen, total) && index == |seen|
      modifies this
      ensures r == Admit(limits, old(seen), row, total)
      ensures r.Met? ==> Valid() && L.Admitted(limits, seen, total) && seen == old(seen) + [row]
    {
      AdmitsFirst(limits, seen, row, total);
      if row.sequence != index + 1 {
        return Refused(EventSequence);
      }
      if bounds.ended.Some? {
        return Refused(EventAfterFinalize);
      }
      if bounds.previous.Some? && bounds.previous.value > row.event.at {
        return Refused(ClockOrder);
      }
      ghost var before := seen;
      r := Branch(row, index);
      if r.Met? {
        AdmittedNext(limits, before, row, total);
      }
    }

    /** The branch of the row's kind. */
    method Branch(row: Row, index: nat) returns (r: Requirement<Code>)
      requires Valid() && L.Admitted(limits, seen, total) && index == |seen|
      modifies this
      ensures r == AdmitEvent(limits, old(seen), row.event, |old(seen)| + 1 == total)
      ensures r.Met? ==> Valid() && seen == old(seen) + [row]
    {
      match row.event {
        case StartWarmup(_) => r := OnStartWarmup(row);
        case StartMeasurement(_) => r := OnStartMeasurement(row);
        case StopMeasurement(_) =>
          BoundsCell(limits, seen, total);
          r := OnStopMeasurement(row);
        case Begin(_, _, _, _) => r := OnBegin(row);
        case Finish(_, _, _) => r := OnFinish(row);
        case BalanceCheck(_, _) =>
          ChecksCell(seen, Warmup);
          r := OnBalanceCheck(row);
        case Finalize(_) => r := OnFinalize(row, index);
      }
    }

    /** The pass over all rows, up to the first refusal. */
    method Run(rows: seq<Row>) returns (r: Requirement<Code>)
      requires Valid() && seen == [] && total == |rows|
      modifies this
      ensures r == AdmitAll(limits, rows, total)
      ensures r.Met? ==> Valid() && L.Admitted(limits, rows, total) && seen == rows
    {
      var index := 0;
      while index < |rows|
        invariant 0 <= index <= |rows| && Valid() && seen == rows[..index] && L.Admitted(limits, seen, total)
      {
        assert rows[..index + 1][..index] == rows[..index];
        r := Accept(rows[index], index);
        if r.Refused? {
          RefusalStays(limits, rows, index + 1, total);
          return;
        }
        index := index + 1;
      }
      assert rows[..index] == rows;
      return Met;
    }

    /** The figures of one phase. */
    method ReportPhase(p: Phase, duration: int) returns (summary: PhaseSummary)
      requires Valid()
      ensures summary == SummarizePhase(seen, p, duration)
    {
      FlowCell(seen, p);
      GroupCell(seen, Measurement, p);
      WindowCell(seen, Warmup, p);
      WindowCell(seen, Measurement, p);
      InsideCell(seen, Warmup, p);
      InsideCell(seen, Measurement, p);
      AfterCell(seen, Warmup, p);
      AfterCell(seen, Measurement, p);
      var flow, inside := counters.flows.Get(p), Cell(window.inside, Measurement, p);
      var ratio := if Cell(counters.groups, Measurement, p).entered == 0 then None
        else Some((inside.succeeded * 1_000_000_000, duration));
      summary := PhaseSummary(
        flow.entered, flow.peak, flow.windowPeak,
        Cell(window.atStart, Warmup, p), Cell(window.atStop, Warmup, p), Cell(window.atStop, Measurement, p),
        Cell(window.inside, Warmup, p), inside, Cell(window.after, Warmup, p), Cell(window.after, Measurement, p),
          ratio);
    }

    /** The figures of one phase of a cohort. */
    method ReportGroup(c: Cohort, p: Phase) returns (summary: GroupSummary)
      requires Valid()
      ensures summary == SummarizeGroup(GroupOf(seen, c, p), SamplesOf(seen, c, p))
      ensures Cell(counters.groups, c, p).entered == GroupOf(seen, c, p).entered
    {
      GroupCell(seen, c, p);
      SamplesCell(seen, c, p);
      summary := SummarizeGroup(Cell(counters.groups, c, p), Cell(counters.samples, c, p));
    }

    /** The figures of one cohort. */
    method ReportCohort(c: Cohort) returns (summary: CohortSummary)
      requires Valid()
      ensures summary == SummarizeCohort(seen, c)
    {
      ChecksCell(seen, c);
      var meta := checks.metas.Get(c);
      var entries := 0;
      var funding := ReportGroup(c, Funding);
      entries := entries + Cell(counters.groups, c, Funding).entered;
      var call := ReportGroup(c, FundedCall);
      entries := entries + Cell(counters.groups, c, FundedCall).entered;
      var ledger := ReportGroup(c, LedgerTransaction);
      entries := entries + Cell(counters.groups, c, LedgerTransaction).entered;
      summary := CohortSummary(entries == 0, meta.span.Elapsed(),
                               map[Funding := funding, FundedCall := call, LedgerTransaction := ledger], meta.balances);
    }

    /** The figures of each phase over the window. */
    method ReportPhases(duration: int) returns (phases: map<Phase, PhaseSummary>)
      requires Valid() && CompleteWindowRows(seen)
      requires duration == Rebuild(limits, seen).measurementNanoseconds
      ensures phases == Rebuild(limits, seen).phases
    {
      var funding := ReportPhase(Funding, duration);
      var call := ReportPhase(FundedCall, duration);
      var ledger := ReportPhase(LedgerTransaction, duration);
      phases := map[Funding := funding, FundedCall := call, LedgerTransaction := ledger];
    }

    /** The figures of both cohorts. */
    method ReportCohorts() returns (cohorts: map<Cohort, CohortSummary>)
      requires Valid() && CompleteWindowRows(seen)
      ensures cohorts == Rebuild(limits, seen).cohorts
    {
      var warmup := ReportCohort(Warmup);
      var measurement := ReportCohort(Measurement);
      cohorts := map[Warmup := warmup, Measurement := measurement];
    }

    /** The end of the check: the window is complete and the declared recording is the rebuilt one. */
    method CheckRecording(recording: Recording) returns (r: Result<Check, Code>)
      requires Valid() && L.Admitted(limits, seen, total) && total == |seen|
      ensures r == Compared(limits, seen, recording)
    {
      BoundsCell(limits, seen, total);
      if !(bounds.ended.Some? && bounds.start.Some? && bounds.stop.Some?) {
        return Failure(CompleteWindow);
      }
      var rebuilt := Report();
      if recording != rebuilt {
        return Failure(AllRecorderFieldsMismatch);
      }
      return Success(Check(total, observation, bounds.stop.value - bounds.start.value));
    }

    /** The recording rebuilt from the counters. */
    method Report() returns (recording: Recording)
      requires Valid() && L.Admitted(limits, seen, total) && CompleteWindowRows(seen)
      ensures recording == Rebuild(limits, seen)
    {
      ReportReadings(limits, seen, total);
      ChecksCell(seen, Warmup);
      var start, stop, ended := bounds.start.value, bounds.stop.value, bounds.ended.value;
      var phases := ReportPhases(stop - start);
      var cohorts := ReportCohorts();
      recording := Recording(
        limits, observation == 0,
        if bounds.warmupStart.None? then None else Some(start - bounds.warmupStart.value),
        stop - start, ended - stop, ended - bounds.runStart.value, phases,
        cohorts, checks.balances, map[Warming := checks.warming, Measuring := checks.measuring,
          Draining := checks.draining]);
    }
  }

  /** What is left of the verdict once the rows are admitted. */
  ghost function Compared(limits: Limits, rows: seq<Row>, recording: Recording): Result<Check, Code> {
    if !CompleteWindowRows(rows) then Failure(CompleteWindow)
    else if recording != Rebuild(limits, rows) then Failure(AllRecorderFieldsMismatch)
    else Success(Check(|rows|, Count(rows, IsBegin()), Rebuild(limits, rows).measurementNanoseconds))
  }

  lemma {:induction false} ComparedLast(trace: Trace, recording: Recording, expected: Limits)
    requires AdmitLimits(trace, expected).Met? && AdmitAll(trace.limits, trace.rows, |trace.rows|).Met?
    ensures Verdict(trace, recording, expected) == Compared(trace.limits, trace.rows, recording)
  {
  }

  lemma {:induction false} RefusalStays(limits: Limits, rows: seq<Row>, k: nat, total: nat)
    requires k <= |rows| && AdmitAll(limits, rows[..k], total).Refused?
    ensures AdmitAll(limits, rows, total) == AdmitAll(limits, rows[..k], total)
  {
    if k < |rows| {
      assert rows[..|rows| - 1][..k] == rows[..k];
      RefusalStays(limits, rows[..|rows| - 1], k, total);
    } else {
      assert rows[..k] == rows;
    }
  }

  /** The parent checker: the pass over the rows reaches the verdict that the declarative figures define. */
  method CheckParent(trace: Trace, recording: Recording, expected: Limits) returns (r: Result<Check, Code>)
    ensures r == Verdict(trace, recording, expected)
  {
    var limited := AdmitLimits(trace, expected);
    if limited.Refused? {
      return Failure(limited.code);
    }
    var pass := new Replay(trace.limits, |trace.rows|);
    var admitted := pass.Run(trace.rows);
    if admitted.Refused? {
      return Failure(admitted.code);
    }
    ComparedLast(trace, recording, expected);
    r := pass.CheckRecording(recording);
  }
}
