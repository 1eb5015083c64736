/** A family of parent logs: measured calls one after the other, the first `served` of them successful, with
    the balance checks that the barriers demand. */
module SampleParent {
  import opened Wrappers
  import opened Clock
  import opened ParentTrace
  import L = ParentLaws
  import Q = PacedTrace
  import B = BalanceTrace

  /** Each call begins and ends at its own reading. */
  datatype Course = Course(lanes: nat, times: seq<Nanos>, served: nat)

  predicate InRange(c: Course) {
    && 0 < c.lanes && 0 < |c.times| && c.times[|c.times| - 1] + 1 < NANOSECOND_LIMIT
    && forall j, k :: 0 <= j <= k < |c.times| ==> c.times[j] <= c.times[k]
  }

  /** When the window closes. */
  function Closing(c: Course): Nanos
    requires InRange(c)
  {
    c.times[|c.times| - 1] + 1
  }

  function OutcomeOf(c: Course, k: nat): Outcome {
    if k < c.served then Succeeded else Rejected
  }

  function BeginOf(c: Course, k: nat): Event
    requires k < |c.times|
  {
    Begin(k + 1, FundedCall, Measurement, c.times[k])
  }

  function FinishOf(c: Course, k: nat): Event
    requires k < |c.times|
  {
    Finish(k + 1, OutcomeOf(c, k), c.times[k])
  }

  function Push(rows: seq<Row>, event: Event): seq<Row> {
    rows + [Row(|rows| + 1, event)]
  }

  /** n balance checks at one reading. */
  function Checked(rows: seq<Row>, n: nat, at: Nanos): seq<Row> {
    if n == 0 then rows else Push(Checked(rows, n - 1, at), BalanceCheck(true, at))
  }

  /** The run opens, both early barriers are checked, and the window opens. */
  function Opened(c: Course): seq<Row> {
    Push(Checked(Push([], StartWarmup(0)), 2 * c.lanes, 0), StartMeasurement(0))
  }

  /** The first k calls. */
  function Called(c: Course, k: nat): seq<Row>
    requires InRange(c) && k <= |c.times|
  {
    if k == 0 then Opened(c) else
      Push(Push(Called(c, k - 1), BeginOf(c, k - 1)), FinishOf(c, k - 1))
  }

  /** Then the window closes, the last barrier is checked, and the log ends. */
  function Log(c: Course): seq<Row>
    requires InRange(c)
  {
    Push(Checked(Push(Called(c, |c.times|), StopMeasurement(Closing(c))), c.lanes, Closing(c)), Finalize(Closing(c)))
  }

  // ---- what the rows so far determine -------------------------------------------------------------

  datatype Facts = Facts(
    stage: Stage, open: map<int, Begun>, begun: nat, balances: nat, starts: nat, stops: nat,
    start: Option<int>, stop: Option<int>, ended: Option<int>, first: Option<int>, last: Option<int>,
    flow: Flow, core: Q.Core, checks: seq<int>)

  ghost function FactsOf(rows: seq<Row>): Facts {
    Facts(StageOf(rows), Open(rows), Count(rows, IsBegin()), Count(rows, IsBalance()), Count(rows, IsStart()),
      Count(rows, IsStop()),
          Latest(rows, IsStart()), Latest(rows, IsStop()), Latest(rows, IsFinalize()),
          if |rows| == 0 then None else Some(rows[0].event.at), if |rows| == 0 then None
            else Some(rows[|rows| - 1].event.at),
          FlowOf(rows, FundedCall), Q.CoreOf(rows), B.Checks(rows))
  }

  ghost function FactsAfter(f: Facts, e: Event): Facts {
    Facts(StageAfter(f.stage, e), OpenAfter(f.open, e),
          if e.Begin? then f.begun + 1 else f.begun, if e.BalanceCheck? then f.balances + 1 else f.balances,
          if e.StartMeasurement? then f.starts + 1 else f.starts, if e.StopMeasurement? then f.stops + 1 else f.stops,
          if e.StartMeasurement? then Some(e.at) else f.start, if e.StopMeasurement? then Some(e.at) else f.stop,
          if e.Finalize? then Some(e.at) else f.ended, if f.first.None? then Some(e.at) else f.first, Some(e.at),
          FlowAfter(f.flow, f.stage, f.open, e, FundedCall), Q.CoreAfter(f.core, e),
          if e.BalanceCheck? then f.checks + [e.at] else f.checks)
  }

  lemma {:induction false} FactsPush(rows: seq<Row>, e: Event)
    ensures FactsOf(Push(rows, e)) == FactsAfter(FactsOf(rows), e)
  {
    assert Push(rows, e)[..|rows|] == rows;
  }

  /** Does the clock allow the event next? */
  ghost predicate OnTime(f: Facts, at: int) {
    f.ended.None? && (f.last.Some? ==> f.last.value <= at)
  }

  lemma {:induction false} AdmitPush(limits: Limits, rows: seq<Row>, e: Event, total: nat)
    requires L.Admitted(limits, rows, total) && OnTime(FactsOf(rows), e.at)
    requires AdmitEvent(limits, rows, e, |rows| + 1 == total).Met?
    ensures L.Admitted(limits, Push(rows, e), total)
  {
    assert Push(rows, e)[..|rows|] == rows;
  }

  function Repeated(at: int, n: nat): seq<int> {
    seq(n, i => at)
  }

  /** The facts after n checks at one reading. */
  ghost function WithChecks(f: Facts, n: nat, at: int): Facts {
    f.(balances := f.balances + n, checks := f.checks + Repeated(at, n))
  }

  lemma {:induction false} OneCheck(limits: Limits, rows: seq<Row>, f: Facts, n: nat, at: Nanos, total: nat)
    requires L.Admitted(limits, rows, total) && FactsOf(rows) == WithChecks(f, n, at)
    requires OnTime(f, at) && f.stage != Created && f.last == Some(at) && f.balances + n < limits.maxSamplesPerPhase
    ensures var more := Push(rows, BalanceCheck(true, at));
            L.Admitted(limits, more, total) && FactsOf(more) == WithChecks(f, n + 1, at)
  {
    AdmitPush(limits, rows, BalanceCheck(true, at), total);
    FactsPush(rows, BalanceCheck(true, at));
    assert f.checks + Repeated(at, n) + [at] == f.checks + Repeated(at, n + 1);
  }

  lemma {:induction false} NoCheck(f: Facts, at: int)
    ensures WithChecks(f, 0, at) == f
  {
    assert f.checks + Repeated(at, 0) == f.checks;
  }

  lemma {:induction false} ChecksPushed(limits: Limits, rows: seq<Row>, n: nat, at: Nanos, total: nat)
    requires L.Admitted(limits, rows, total) && OnTime(FactsOf(rows), at) && FactsOf(rows).stage != Created
    requires FactsOf(rows).balances + n <= limits.maxSamplesPerPhase
    requires FactsOf(rows).last == Some(at)
    ensures var more := Checked(rows, n, at);
            L.Admitted(limits, more, total) && FactsOf(more) == WithChecks(FactsOf(rows), n, at)
  {
    if n == 0 {
      NoCheck(FactsOf(rows), at);
    } else {
      var k := n - 1;
      assert k + 1 == n;
      ChecksPushed(limits, rows, k, at, total);
      OneCheck(limits, Checked(rows, k, at), FactsOf(rows), k, at, total);
    }
  }

  // ---- the opening, the calls and the closing --------------------------------------------------------

  /** The calls made so far, each finished when it began. */
  ghost predicate CoreHolds(c: Course, core: Q.Core, k: nat)
    requires InRange(c) && k <= |c.times|
  {
    && |core.begins| == k
    && (forall i :: 0 <= i < k ==> core.begins[i] == Q.CoreBegin(i + 1, c.times[i]))
    && (forall o :: 1 <= o <= k ==>
       o in core.finishes && core.finishes[o] ==
       Q.CoreFinish(OutcomeOf(c, o - 1), c.times[o - 1]))
  }

  /** Between two calls. */
  ghost predicate Between(c: Course, f: Facts, k: nat)
    requires InRange(c) && k <= |c.times|
  {
    && f.stage == Measuring && f.open == map[] && f.begun == k && f.balances == 2 * c.lanes && f.starts == 1
       && f.stops == 0
    && f.start == Some(0) && f.stop.None? && f.ended.None? && f.first == Some(0)
    && f.last == Some(if k == 0 then 0 else c.times[k - 1])
    && f.flow.entered == k && f.flow.active == 0 && CoreHolds(c, f.core, k) && f.checks == Repeated(0, 2 * c.lanes)
  }

  ghost predicate RoomFor(c: Course, limits: Limits) {
    |c.times| <= limits.maxSamplesPerPhase && 3 * c.lanes <= limits.maxSamplesPerPhase
      && 1 <= limits.maxInFlightPerPhase
  }

  lemma {:induction false} OpenedHolds(c: Course, limits: Limits, total: nat)
    requires InRange(c) && RoomFor(c, limits)
    ensures L.Admitted(limits, Opened(c), total) && Between(c, FactsOf(Opened(c)), 0)
  {
    var none, one := [], Push([], StartWarmup(0));
    FactsPush(none, StartWarmup(0));
    AdmitPush(limits, none, StartWarmup(0), total);
    ChecksPushed(limits, one, 2 * c.lanes, 0, total);
    var checked := Checked(one, 2 * c.lanes, 0);
    AdmitPush(limits, checked, StartMeasurement(0), total);
    FactsPush(checked, StartMeasurement(0));
    assert [] + Repeated(0, 2 * c.lanes) == Repeated(0, 2 * c.lanes);
  }

  lemma {:induction false} CoreStep(c: Course, core: Q.Core, k: nat)
    requires InRange(c) && k < |c.times| && CoreHolds(c, core, k)
    ensures CoreHolds(c, Q.CoreAfter(Q.CoreAfter(core, BeginOf(c, k)), FinishOf(c, k)), k + 1)
  {
    var begun := Q.CoreAfter(core, BeginOf(c, k));
    var done := Q.CoreAfter(begun, FinishOf(c, k));
    assert begun.begins[k].observation == k + 1 && Q.Measured(begun.begins, k + 1);
    assert done.finishes == core.finishes[k + 1 := Q.CoreFinish(OutcomeOf(c, k), c.times[k])];
  }

  /** What a call changes, with its finish and without it. */
  lemma {:induction false} CallFacts(c: Course, f: Facts, k: nat)
    requires InRange(c) && k < |c.times| && Between(c, f, k)
    ensures var g := FactsAfter(f, BeginOf(c, k));
            && g.open == map[k + 1 := Begun(c.times[k], FundedCall, Measurement)] && g.ended.None?
               && g.last == Some(c.times[k])
            && Between(c, FactsAfter(g, FinishOf(c, k)), k + 1)
  {
    CoreStep(c, f.core, k);
    var g := FactsAfter(f, BeginOf(c, k));
    assert g.open - {k + 1} == map[];
  }

  lemma {:induction false} OneCall(c: Course, limits: Limits, rows: seq<Row>, k: nat, total: nat)
    requires InRange(c) && RoomFor(c, limits) && k < |c.times|
    requires L.Admitted(limits, rows, total) && Between(c, FactsOf(rows), k)
    ensures var more := Push(Push(rows, BeginOf(c, k)), FinishOf(c, k));
            L.Admitted(limits, more, total) && Between(c, FactsOf(more), k + 1)
  {
    var begun := Push(rows, BeginOf(c, k));
    CallFacts(c, FactsOf(rows), k);
    FactsPush(rows, BeginOf(c, k));
    FactsPush(begun, FinishOf(c, k));
    AdmitPush(limits, rows, BeginOf(c, k), total);
    assert Open(begun) == FactsOf(begun).open;
    AdmitPush(limits, begun, FinishOf(c, k), total);
  }

  lemma {:induction false} CallsHold(c: Course, limits: Limits, k: nat, total: nat)
    requires InRange(c) && RoomFor(c, limits) && k <= |c.times|
    ensures L.Admitted(limits, Called(c, k), total) && Between(c, FactsOf(Called(c, k)), k)
  {
    if k == 0 {
      OpenedHolds(c, limits, total);
    } else {
      CallsHold(c, limits, k - 1, total);
      OneCall(c, limits, Called(c, k - 1), k - 1, total);
    }
  }

  /** What the whole log determines. */
  ghost predicate Finished(c: Course, f: Facts)
    requires InRange(c)
  {
    && f.starts == 1 && f.stops == 1 && f.start == Some(0) && f.stop == Some(Closing(c)) && f.ended == Some(Closing(c))
    && f.first == Some(0) && f.last == Some(Closing(c)) && CoreHolds(c, f.core, |c.times|)
    && f.checks == Repeated(0, 2 * c.lanes) + Repeated(Closing(c), c.lanes)
  }

  /** Every log of the family is admitted and complete. */
  lemma {:induction false} LogHolds(c: Course, limits: Limits)
    requires InRange(c) && RoomFor(c, limits)
    ensures var rows := Log(c);
            |rows| > 0 && L.Admitted(limits, rows, |rows|) && CompleteWindowRows(rows) && Finished(c, FactsOf(rows))
  {
    var total, at := |Log(c)|, Closing(c);
    CallsHold(c, limits, |c.times|, total);
    var called := Called(c, |c.times|);
    var stopped := Push(called, StopMeasurement(at));
    var checked := Checked(stopped, c.lanes, at);
    AdmitPush(limits, called, StopMeasurement(at), total);
    FactsPush(called, StopMeasurement(at));
    ChecksPushed(limits, stopped, c.lanes, at, total);
    AdmitPush(limits, checked, Finalize(at), total);
    FactsPush(checked, Finalize(at));
  }

  /** The parent checker accepts the log with the recording it determines. */
  lemma {:induction false} LogAccepted(c: Course, limits: Limits)
    requires InRange(c) && RoomFor(c, limits)
    requires limits.maxSamplesPerPhase <= 4096 && limits.maxInFlightPerPhase <= 64
    requires limits.maxInFlightPerPhase <= limits.maxSamplesPerPhase
    ensures CompleteWindowRows(Log(c))
    ensures var trace := Trace(limits, 7 * limits.maxSamplesPerPhase + 4, Log(c));
            Verdict(trace, Rebuild(limits, Log(c)), limits).Success?
  {
    LogHolds(c, limits);
    L.RowCeiling(limits, Log(c));
  }
}
