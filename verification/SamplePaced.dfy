/** The paced logs that go with the sample parent logs: every call of every lane is requested in turn, the first
    `served` of them enter the source, the others are withdrawn. */
module SamplePaced {
  import opened Wrappers
  import opened Clock
  import opened Recorder
  import opened PacedTrace
  import PL = PacedLaws
  import S = SampleParent

  function Push(rows: seq<Row>, event: Event): seq<Row> {
    rows + [Row(|rows| + 1, event)]
  }

  /** The course serves the plan: as many readings as calls, a gap apart. */
  ghost predicate Serves(c: S.Course, plan: Plan) {
    && S.InRange(c) && c.lanes == plan.lanes && 0 < plan.measurementCallsPerLane
    && |c.times| == plan.lanes * plan.measurementCallsPerLane <= plan.limits.maxSamplesPerPhase <= 4096
    && PL.Apart(c.times, plan.Gap())
  }

  /** The lane of a request and its ordinal there. */
  datatype Place = Place(lane: nat, ordinal: nat)

  /** The k-th request, lane by lane. */
  function PlaceOf(plan: Plan, k: nat): Place {
    if k == 0 then Place(0, 0) else
      var last := PlaceOf(plan, k - 1);
      if last.ordinal + 1 < plan.measurementCallsPerLane then Place(last.lane, last.ordinal + 1)
      else Place(last.lane + 1, 0)
  }

  function RequestOf(plan: Plan, k: nat): Event {
    Request(k + 1, PlaceOf(plan, k).lane, PlaceOf(plan, k).ordinal)
  }

  function ServedCall(rows: seq<Row>, k: nat, at: Nanos): seq<Row> {
    Push(Push(Push(rows, WaitBegin(k + 1, at)), Dispatch(k + 1, at)), SourceTerminal(k + 1, Succeeded, at))
  }

  /** One more call. */
  function NextCall(c: S.Course, plan: Plan, rows: seq<Row>, k: nat): seq<Row>
    requires 0 < plan.measurementCallsPerLane && k < |c.times|
  {
    var asked := Push(rows, RequestOf(plan, k));
    if k < c.served then ServedCall(asked, k, c.times[k]) else Push(asked, Withdraw(k + 1, false, c.times[k]))
  }

  /** The first k calls. */
  function Requested(c: S.Course, plan: Plan, k: nat): seq<Row>
    requires 0 < plan.measurementCallsPerLane && k <= |c.times|
  {
    if k == 0 then [] else NextCall(c, plan, Requested(c, plan, k - 1), k - 1)
  }

  function Log(c: S.Course, plan: Plan): seq<Row>
    requires 0 < plan.measurementCallsPerLane
  {
    Push(Requested(c, plan, |c.times|), Finalize)
  }

  // ---- what the rows so far determine ------------------------------------------------------------------

  datatype Facts = Facts(
    items: seq<Item>, occupied: map<int, int>, fifo: seq<int>, peak: int, previous: Option<int>, starts: seq<int>,
    dispatched: nat, withdrawn: nat, finals: nat, waiting: int, entered: int)

  ghost function FactsOf(core: Core, rows: seq<Row>): Facts {
    Facts(Items(core, rows), Occupied(core, rows), Fifo(rows), PeakQueue(rows), Previous(rows), Starts(rows),
          Count(rows, IsDispatch()), Count(rows, IsWithdraw()), Count(rows, IsFinalize()),
          SeriesGroup(Wait, rows).active, SeriesGroup(Source, rows).active)
  }

  /** How many observations of the series are live after the event. */
  function LiveAfter(s: Series, live: int, e: Event): int {
    if Opens(s, e) then live + 1 else if Closes(s, e) then live - 1 else live
  }

  ghost function FactsAfter(core: Core, f: Facts, e: Event): Facts {
    var fifo := FifoAfter(f.fifo, e);
    Facts(ItemsAfter(core, f.items, e), OccupiedAfter(f.items, f.occupied, e), fifo,
          if e.Request? then Max(f.peak, |fifo|) else f.peak, if Timed(e) then Some(e.at) else f.previous,
          if e.Dispatch? then f.starts + [e.at] else f.starts, if e.Dispatch? then f.dispatched + 1 else f.dispatched,
          if e.Withdraw? then f.withdrawn + 1 else f.withdrawn, if e.Finalize? then f.finals + 1 else f.finals,
          LiveAfter(Wait, f.waiting, e), LiveAfter(Source, f.entered, e))
  }

  lemma {:induction false} FactsPush(core: Core, rows: seq<Row>, e: Event)
    ensures FactsOf(core, Push(rows, e)) == FactsAfter(core, FactsOf(core, rows), e)
  {
    assert Push(rows, e)[..|rows|] == rows;
  }

  lemma {:induction false} AdmitPush(plan: Plan, core: Core, rows: seq<Row>, e: Event, total: nat)
    requires PL.Admitted(plan, core, rows, total) && Count(rows, IsFinalize()) == 0
    requires Timed(e) && Previous(rows).Some? ==> Previous(rows).value <= e.at
    requires AdmitEvent(plan, core, rows, e, |rows| + 1 == total).Met?
    ensures PL.Admitted(plan, core, Push(rows, e), total)
  {
    assert Push(rows, e)[..|rows|] == rows;
  }

  // ---- ordinals, lane by lane ----------------------------------------------------------------------------

  /** The ordinals that the first k requests used in a lane. */
  function Used(plan: Plan, k: nat, lane: int): int {
    var place := PlaceOf(plan, k);
    if lane < place.lane then plan.measurementCallsPerLane else if lane == place.lane then place.ordinal else 0
  }

  lemma {:induction false} PlaceCounts(plan: Plan, k: nat)
    requires 0 < plan.measurementCallsPerLane
    ensures var place := PlaceOf(plan, k);
            place.ordinal < plan.measurementCallsPerLane
            && k == place.lane * plan.measurementCallsPerLane + place.ordinal
  {
    if k > 0 {
      PlaceCounts(plan, k - 1);
    }
  }

  lemma {:induction false} UsedNext(plan: Plan, k: nat, lane: int)
    requires 0 < plan.measurementCallsPerLane
    ensures Used(plan, k + 1, lane) ==
              if lane == PlaceOf(plan, k).lane then PlaceOf(plan, k).ordinal + 1 else Used(plan, k, lane)
  {
    PlaceCounts(plan, k);
  }

  /** Each of the planned requests has a lane. */
  lemma {:induction false} LaneInRange(plan: Plan, k: nat)
    requires 0 < plan.measurementCallsPerLane && k < plan.lanes * plan.measurementCallsPerLane
    ensures PlaceOf(plan, k).lane < plan.lanes && PlaceOf(plan, k).ordinal < plan.measurementCallsPerLane
  {
    PlaceCounts(plan, k);
    PL.FactorOut(PlaceOf(plan, k).lane, plan.lanes, plan.measurementCallsPerLane);
  }

  // ---- one call ---------------------------------------------------------------------------------------------

  function Least(a: nat, b: nat): nat {
    if a < b then a else b
  }

  function Before(c: S.Course, k: nat): Option<int>
    requires k <= |c.times|
  {
    if k == 0 then None else Some(c.times[k - 1])
  }

  /** Between two calls: nothing queued, no lane occupied. */
  ghost predicate Idle(c: S.Course, f: Facts, k: nat)
    requires k <= |c.times|
  {
    && |f.items| == k && f.occupied == map[] && f.fifo == [] && f.peak == (if k == 0 then 0 else 1)
    && f.previous == Before(c, k) && f.starts == c.times[..Least(k, c.served)]
    && f.dispatched == Least(k, c.served) && f.withdrawn == k - Least(k, c.served)
    && f.finals == f.waiting == f.entered == 0
  }

  /** In the middle of the k-th call. */
  ghost predicate InCall(c: S.Course, f: Facts, k: nat, lane: int, state: Phase)
    requires k < |c.times|
  {
    var at, served := c.times[k], Least(k, c.served);
    && |f.items| == k + 1 && f.occupied == map[lane := k + 1] && f.peak == 1 && f.finals == 0
       && f.withdrawn == k - served
    && f.items[k] == Item(state, lane, at, at, S.OutcomeOf(c, k), if state == Reserved then 0
       else at, if state == Entered then at else 0)
    && f.previous == (if state == Reserved then Before(c, k) else Some(at))
    && (if state == Entered then
          f.fifo == [] && f.starts == c.times[..k + 1] && f.dispatched == k + 1 && f.waiting == 0 && f.entered == 1
        else
          f.fifo == [k + 1] && f.starts == c.times[..served] && f.dispatched == served && f.entered == 0
          && f.waiting == (if state == Waiting then 1 else 0))
  }

  lemma {:induction false} RequestFacts(c: S.Course, core: Core, f: Facts, k: nat, lane: int, ordinal: int)
    requires S.InRange(c) && k < |c.times| && S.CoreHolds(c, core, |c.times|) && Idle(c, f, k)
    ensures InCall(c, FactsAfter(core, f, Request(k + 1, lane, ordinal)), k, lane, Reserved)
  {
    assert core.begins[k].observation == k + 1;
    assert map[][lane := k + 1] == map[lane := k + 1];
  }

  lemma {:induction false} ServeFacts(c: S.Course, core: Core, f: Facts, k: nat, lane: int)
    requires S.InRange(c) && k < |c.times| && k < c.served && InCall(c, f, k, lane, Reserved)
    ensures var waits := FactsAfter(core, f, WaitBegin(k + 1, c.times[k]));
            var enters := FactsAfter(core, waits, Dispatch(k + 1, c.times[k]));
            && InCall(c, waits, k, lane, Waiting) && InCall(c, enters, k, lane, Entered)
            && Idle(c, FactsAfter(core, enters, SourceTerminal(k + 1, Succeeded, c.times[k])), k + 1)
  {
    assert c.times[..k + 1] == c.times[..k] + [c.times[k]];
    assert map[lane := k + 1] - {lane} == map[];
  }

  lemma {:induction false} WithdrawFacts(c: S.Course, core: Core, f: Facts, k: nat, lane: int)
    requires S.InRange(c) && k < |c.times| && c.served <= k && InCall(c, f, k, lane, Reserved)
    ensures Idle(c, FactsAfter(core, f, Withdraw(k + 1, false, c.times[k])), k + 1)
  {
    assert map[lane := k + 1] - {lane} == map[];
  }

  /** The clock and the gap allow the k-th call. */
  lemma {:induction false} Ready(c: S.Course, plan: Plan, k: nat)
    requires Serves(c, plan) && k < |c.times|
    ensures Before(c, k).Some? ==> Before(c, k).value <= c.times[k] && c.times[k] - Before(c, k).value >= plan.Gap()
  {
  }

  /** The ordinals are those of the first k requests. */
  ghost predicate OrdinalsAt(plan: Plan, rows: seq<Row>, k: nat)
    requires 0 < plan.measurementCallsPerLane
  {
    forall lane :: 0 <= lane < plan.lanes ==> NextOrdinal(rows, lane) == Used(plan, k, lane)
  }

  lemma {:induction false} OrdinalsPush(plan: Plan, rows: seq<Row>, k: nat, e: Event)
    requires 0 < plan.measurementCallsPerLane && OrdinalsAt(plan, rows, k)
    ensures !e.Request? ==> OrdinalsAt(plan, Push(rows, e), k)
    ensures e == RequestOf(plan, k) ==> OrdinalsAt(plan, Push(rows, e), k + 1)
  {
    assert Push(rows, e)[..|rows|] == rows;
    forall lane | 0 <= lane < plan.lanes
      ensures NextOrdinal(Push(rows, e), lane) == if e.Request?
              && e.lane == lane then e.ordinal + 1 else NextOrdinal(rows, lane)
    {
    }
    if e == RequestOf(plan, k) {
      forall lane | 0 <= lane < plan.lanes ensures NextOrdinal(Push(rows, e), lane) == Used(plan, k + 1, lane) {
        UsedNext(plan, k, lane);
      }
    }
  }

  /** A request is admitted between two calls. */
  lemma {:induction false} RequestAdmitted(c: S.Course, plan: Plan, core: Core, rows: seq<Row>, k: nat, total: nat)
    requires Serves(c, plan) && k < |c.times| && S.CoreHolds(c, core, |c.times|)
    requires PL.Admitted(plan, core, rows, total) && Idle(c, FactsOf(core, rows), k) && OrdinalsAt(plan, rows, k)
    ensures var asked := Push(rows, RequestOf(plan, k));
            && PL.Admitted(plan, core, asked, total) && OrdinalsAt(plan, asked, k + 1)
            && InCall(c, FactsOf(core, asked), k, PlaceOf(plan, k).lane, Reserved)
  {
    var e := RequestOf(plan, k);
    LaneInRange(plan, k);
    UsedNext(plan, k, e.lane);
    assert core.begins[k].observation == k + 1;
    AdmitPush(plan, core, rows, e, total);
    OrdinalsPush(plan, rows, k, e);
    FactsPush(core, rows, e);
    RequestFacts(c, core, FactsOf(core, rows), k, e.lane, e.ordinal);
  }

  lemma {:induction false} WithdrawAdmitted(c: S.Course, plan: Plan, core: Core, rows: seq<Row>, k: nat, lane: int,
                                            total: nat)
    requires Serves(c, plan) && k < |c.times| && c.served <= k
    requires PL.Admitted(plan, core, rows, total) && InCall(c, FactsOf(core, rows), k, lane, Reserved)
             && OrdinalsAt(plan, rows, k + 1)
    ensures var more := Push(rows, Withdraw(k + 1, false, c.times[k]));
            PL.Admitted(plan, core, more, total) && Idle(c, FactsOf(core, more), k + 1) && OrdinalsAt(plan, more, k + 1)
  {
    var e := Withdraw(k + 1, false, c.times[k]);
    Ready(c, plan, k);
    AdmitPush(plan, core, rows, e, total);
    OrdinalsPush(plan, rows, k + 1, e);
    FactsPush(core, rows, e);
    WithdrawFacts(c, core, FactsOf(core, rows), k, lane);
  }

  lemma {:induction false} ServedAdmitted(c: S.Course, plan: Plan, core: Core, rows: seq<Row>, k: nat, lane: int,
                                          total: nat)
    requires Serves(c, plan) && k < |c.times| && k < c.served
    requires PL.Admitted(plan, core, rows, total) && InCall(c, FactsOf(core, rows), k, lane, Reserved)
             && OrdinalsAt(plan, rows, k + 1)
    ensures var more := ServedCall(rows, k, c.times[k]);
            PL.Admitted(plan, core, more, total) && Idle(c, FactsOf(core, more), k + 1) && OrdinalsAt(plan, more, k + 1)
  {
    var at := c.times[k];
    var wait, enter, end := WaitBegin(k + 1, at), Dispatch(k + 1, at), SourceTerminal(k + 1, Succeeded, at);
    var waits, enters := Push(rows, wait), Push(Push(rows, wait), enter);
    Ready(c, plan, k);
    ServeFacts(c, core, FactsOf(core, rows), k, lane);
    FactsPush(core, rows, wait);
    FactsPush(core, waits, enter);
    FactsPush(core, enters, end);
    AdmitPush(plan, core, rows, wait, total);
    AdmitPush(plan, core, waits, enter, total);
    AdmitPush(plan, core, enters, end, total);
    OrdinalsPush(plan, rows, k + 1, wait);
    OrdinalsPush(plan, waits, k + 1, enter);
    OrdinalsPush(plan, enters, k + 1, end);
  }

  /** Admitted so far, and between two calls. */
  ghost predicate Holds(c: S.Course, plan: Plan, core: Core, rows: seq<Row>, k: nat, total: nat)
    requires 0 < plan.measurementCallsPerLane && k <= |c.times|
  {
    PL.Admitted(plan, core, rows, total) && Idle(c, FactsOf(core, rows), k) && OrdinalsAt(plan, rows, k)
  }

  lemma {:induction false} OneRequest(c: S.Course, plan: Plan, core: Core, rows: seq<Row>, k: nat, total: nat)
    requires Serves(c, plan) && k < |c.times| && S.CoreHolds(c, core, |c.times|) && Holds(c, plan, core, rows, k, total)
    ensures Holds(c, plan, core, NextCall(c, plan, rows, k), k + 1, total)
  {
    var asked, lane := Push(rows, RequestOf(plan, k)), PlaceOf(plan, k).lane;
    RequestAdmitted(c, plan, core, rows, k, total);
    if k < c.served {
      ServedAdmitted(c, plan, core, asked, k, lane, total);
    } else {
      WithdrawAdmitted(c, plan, core, asked, k, lane, total);
    }
  }

  /** Admitted so far, after the first k calls. */
  ghost predicate RequestedHolds(c: S.Course, plan: Plan, core: Core, k: nat, total: nat)
    requires 0 < plan.measurementCallsPerLane
  {
    k <= |c.times| && Holds(c, plan, core, Requested(c, plan, k), k, total)
  }

  lemma {:induction false} NoneRequested(c: S.Course, plan: Plan, core: Core, total: nat)
    requires Serves(c, plan)
    ensures RequestedHolds(c, plan, core, 0, total)
  {
    assert Requested(c, plan, 0) == [];
  }

  lemma {:induction false} NextRequested(c: S.Course, plan: Plan, core: Core, k: nat, total: nat)
    requires Serves(c, plan) && k < |c.times| && S.CoreHolds(c, core, |c.times|)
             && RequestedHolds(c, plan, core, k, total)
    ensures RequestedHolds(c, plan, core, k + 1, total)
  {
    assert Requested(c, plan, k + 1) == NextCall(c, plan, Requested(c, plan, k), k);
    OneRequest(c, plan, core, Requested(c, plan, k), k, total);
  }

  lemma {:induction false} AllRequested(c: S.Course, plan: Plan, core: Core, k: nat, total: nat)
    requires Serves(c, plan) && k <= |c.times| && S.CoreHolds(c, core, |c.times|)
    ensures RequestedHolds(c, plan, core, k, total)
  {
    if k == 0 {
      NoneRequested(c, plan, core, total);
    } else {
      var j := k - 1;
      assert j + 1 == k;
      AllRequested(c, plan, core, j, total);
      NextRequested(c, plan, core, j, total);
    }
  }

  /** Every log of the family is admitted to its end, with all planned calls requested. */
  lemma {:induction false} LogHolds(c: S.Course, plan: Plan, core: Core)
    requires Serves(c, plan) && S.CoreHolds(c, core, |c.times|)
    ensures var rows, n := Log(c, plan), |c.times|;
            && PL.Admitted(plan, core, rows, |rows|) && Count(rows, IsFinalize()) > 0 && Fifo(rows) == []
               && Occupied(core, rows) == map[]
            && |Items(core, rows)| == n && PeakQueue(rows) == 1 && Starts(rows) == c.times[..Least(n, c.served)]
            && Count(rows, IsDispatch()) == Least(n, c.served) && Count(rows, IsWithdraw()) == n - Least(n, c.served)
            && SeriesGroup(Wait, rows).active == SeriesGroup(Source, rows).active == 0
  {
    var n, total := |c.times|, |Log(c, plan)|;
    AllRequested(c, plan, core, n, total);
    AdmitPush(plan, core, Requested(c, plan, n), Finalize, total);
    FactsPush(core, Requested(c, plan, n), Finalize);
    assert FactsOf(core, Log(c, plan)).finals == 1;
  }

  /** The report declared with the log: no timer is started. */
  ghost function Declared(c: S.Course, plan: Plan, core: Core): Report
    requires 0 < plan.measurementCallsPerLane
  {
    var n, rows := |c.times|, Log(c, plan);
    Report(n, Least(n, c.served), n - Least(n, c.served), 1, 0, true, ReportOf(core, Wait, rows),
      ReportOf(core, Source, rows))
  }

  /** The paced checker accepts the rows with that report. */
  lemma {:induction false} LogAccepted(c: S.Course, plan: Plan, core: Core)
    requires Serves(c, plan) && S.CoreHolds(c, core, |c.times|)
    ensures RowsVerdict(plan, core, Log(c, plan), Declared(c, plan, core)).Success?
  {
    var rows := Log(c, plan);
    LogHolds(c, plan, core);
    PL.RowCeiling(plan, core, rows);
    PL.PlannedCallsMeaning(plan, core, rows, |rows|);
  }
}
