/** Dispatches counted lane by lane after the paced log was accepted, and what that count must equal. */
module LaneDispatch {
  import opened Clock
  import opened PacedTrace
  import opened PacedLaws
  import C = CrossLayer
  import P = ParentTrace

  /** Dispatches whose request holds the given lane. */
  ghost function Dispatched(core: Core, rows: seq<Row>, lane: int): nat {
    if |rows| == 0 then 0 else
      var items, event := Items(core, rows[..|rows| - 1]), rows[|rows| - 1].event;
      Dispatched(core, rows[..|rows| - 1], lane)
      + (if event.Dispatch? && 1 <= event.request <= |items| && items[event.request - 1].lane == lane then 1 else 0)
  }

  /** Dispatches of the first n lanes. */
  ghost function DispatchedSum(core: Core, rows: seq<Row>, n: nat): nat {
    if n == 0 then 0 else DispatchedSum(core, rows, n - 1) + Dispatched(core, rows, n - 1)
  }

  ghost predicate AllSucceed(rows: seq<Row>) {
    forall i :: 0 <= i < |rows| && rows[i].event.SourceTerminal? ==> rows[i].event.outcome == Succeeded
  }

  /** The lane of each request so far. */
  ghost predicate Mapped(core: Core, rows: seq<Row>, requests: map<int, int>) {
    var items := Items(core, rows);
    forall r :: 1 <= r <= |items| ==> r in requests && requests[r] == items[r - 1].lane
  }

  lemma {:induction false} MappedStep(plan: Plan, core: Core, rows: seq<Row>, total: nat, requests: map<int, int>)
    requires Admitted(plan, core, rows, total) && |rows| > 0 && Mapped(core, rows[..|rows| - 1], requests)
    ensures var event := rows[|rows| - 1].event;
            Mapped(core, rows, if event.Request? then requests[event.request := event.lane] else requests)
  {
    AdmittedFits(plan, core, rows, total);
    var init, event := rows[..|rows| - 1], rows[|rows| - 1].event;
    if !event.Finalize? {
      AfterShape(core, Items(core, init), Fifo(init), Occupied(core, init), plan.lanes, event);
    }
  }

  lemma {:induction false} DispatchFits(plan: Plan, core: Core, rows: seq<Row>, total: nat)
    requires Admitted(plan, core, rows, total) && |rows| > 0 && rows[|rows| - 1].event.Dispatch?
    ensures var items, event := Items(core, rows[..|rows| - 1]), rows[|rows| - 1].event;
            1 <= event.request <= |items| && 0 <= items[event.request - 1].lane < plan.lanes
  {
    AdmittedFits(plan, core, rows, total);
    DispatcherInvariant(plan, core, rows[..|rows| - 1], total);
  }

  /** A dispatch counts for the lane that its request took. */
  lemma {:induction false} CountStep(plan: Plan, core: Core, rows: seq<Row>, total: nat, requests: map<int, int>)
    requires Admitted(plan, core, rows, total) && |rows| > 0 && Mapped(core, rows[..|rows| - 1], requests)
    ensures var event := rows[|rows| - 1].event;
            && (event.Dispatch? ==> event.request in requests && 0 <= requests[event.request] < plan.lanes)
            && forall lane :: Dispatched(core, rows, lane) ==
                 Dispatched(core, rows[..|rows| - 1], lane)
                   + (if event.Dispatch? && requests[event.request] == lane then 1 else 0)
  {
    if rows[|rows| - 1].event.Dispatch? {
      DispatchFits(plan, core, rows, total);
    }
  }

  lemma {:induction false} SucceedStep(rows: seq<Row>, k: nat)
    requires k < |rows|
    ensures AllSucceed(rows[..k + 1]) <==>
            AllSucceed(rows[..k])
            && (rows[k].event.SourceTerminal? ==> rows[k].event.outcome == Succeeded)
  {
    assert rows[..k + 1] == rows[..k] + [rows[k]];
  }

  /** Each lane's count so far. */
  ghost predicate Counted(core: Core, rows: seq<Row>, counts: seq<nat>) {
    forall lane :: 0 <= lane < |counts| ==> counts[lane] == Dispatched(core, rows, lane)
  }

  /** One row: a dispatch adds to the count of its request's lane. */
  method CountRow(plan: Plan, ghost core: Core, ghost rows: seq<Row>, ghost total: nat, event: Event,
                  requests: map<int, int>, dispatched: array<nat>)
    requires Admitted(plan, core, rows, total) && |rows| > 0 && event == rows[|rows| - 1].event
             && Mapped(core, rows[..|rows| - 1], requests)
    requires dispatched.Length == plan.lanes && Counted(core, rows[..|rows| - 1], dispatched[..])
    modifies dispatched
    ensures Counted(core, rows, dispatched[..])
  {
    CountStep(plan, core, rows, total, requests);
    if event.Dispatch? {
      var lane := requests[event.request];
      dispatched[lane] := dispatched[lane] + 1;
    }
  }

  /** The counting loop over an accepted log; it refuses a source call that did not succeed. */
  method CountDispatches(plan: Plan, ghost core: Core, rows: seq<Row>) returns (ok: bool, dispatched: array<nat>)
    requires Admitted(plan, core, rows, |rows|)
    ensures ok <==> AllSucceed(rows)
    ensures dispatched.Length == plan.lanes
    ensures ok ==> forall lane :: 0 <= lane < plan.lanes ==> dispatched[lane] == Dispatched(core, rows, lane)
  {
    var requests: map<int, int> := map[];
    dispatched := new nat[plan.lanes](_ => 0);
    var index := 0;
    while index < |rows|
      invariant 0 <= index <= |rows| && fresh(dispatched) && dispatched.Length == plan.lanes
      invariant Mapped(core, rows[..index], requests) && AllSucceed(rows[..index])
      invariant Counted(core, rows[..index], dispatched[..])
    {
      var event := rows[index].event;
      ghost var now := rows[..index + 1];
      assert now[..index] == rows[..index];
      PrefixAdmitted(plan, core, rows, index + 1, |rows|);
      MappedStep(plan, core, now, |rows|, requests);
      SucceedStep(rows, index);
      CountRow(plan, core, now, |rows|, event, requests, dispatched);
      match event {
        case Request(r, lane, _) => requests := requests[r := lane];
        case SourceTerminal(_, outcome, _) =>
          if outcome != Succeeded {
            assert !AllSucceed(rows);
            ok := false;
            return;
          }
        case _ =>
      }
      index := index + 1;
    }
    assert rows[..index] == rows;
    ok := true;
  }

  // ---- what the counts must equal ------------------------------------------------------------------------------

  lemma {:induction false} SumStep(core: Core, rows: seq<Row>, n: nat)
    requires |rows| > 0
    ensures var items, event := Items(core, rows[..|rows| - 1]), rows[|rows| - 1].event;
            DispatchedSum(core, rows, n) == DispatchedSum(core, rows[..|rows| - 1], n)
              + (if event.Dispatch? && 1 <= event.request <= |items|
                && 0 <= items[event.request - 1].lane < n then 1 else 0)
  {
    if n > 0 {
      SumStep(core, rows, n - 1);
    }
  }

  lemma {:induction false} NoDispatches(core: Core, n: nat)
    ensures DispatchedSum(core, [], n) == 0
  {
    if n > 0 {
      NoDispatches(core, n - 1);
    }
  }

  /** The lanes share out the dispatches. */
  lemma {:induction false} LanesShareDispatches(plan: Plan, core: Core, rows: seq<Row>, total: nat)
    requires Admitted(plan, core, rows, total)
    ensures DispatchedSum(core, rows, plan.lanes) == Count(rows, IsDispatch())
  {
    if |rows| == 0 {
      assert rows == [];
      NoDispatches(core, plan.lanes);
    } else {
      AdmittedFits(plan, core, rows, total);
      LanesShareDispatches(plan, core, rows[..|rows| - 1], total);
      SumStep(core, rows, plan.lanes);
      if rows[|rows| - 1].event.Dispatch? {
        DispatchFits(plan, core, rows, total);
      }
    }
  }

  lemma {:induction false} NoRejections(rows: seq<Row>)
    requires AllSucceed(rows)
    ensures SeriesGroup(Source, rows).rejected == 0
  {
    if |rows| > 0 {
      assert forall i :: 0 <= i < |rows| - 1 ==> rows[..|rows| - 1][i] == rows[i];
      NoRejections(rows[..|rows| - 1]);
    }
  }

  lemma {:induction false} SourcesSettled(plan: Plan, core: Core, rows: seq<Row>)
    requires Admitted(plan, core, rows, |rows|) && Fifo(rows) == [] && Occupied(core, rows) == map[] && AllSucceed(rows)
    ensures SeriesGroup(Source, rows).succeeded == DispatchedSum(core, rows, plan.lanes)
  {
    RequestsConserved(plan, core, rows, |rows|);
    RowsByKind(plan, core, rows, |rows|);
    SeriesConserved(rows, Source);
    NoRejections(rows);
    LanesShareDispatches(plan, core, rows, |rows|);
  }

  /** When the paced log is accepted and every source call succeeded, the dispatches counted by lane add up to
      the declared source successes and to the parent's measured successes: those two cross-checks can never
      be what refuses a capture. */
  lemma {:induction false} CrossLaneCountsImplied(plan: Plan, parent: P.Trace, recording: P.Recording, rows: seq<Row>,
                                                  report: Report)
    requires Verdict(plan, parent, recording, rows, report).Success? && AllSucceed(rows)
    ensures var core := CoreOf(parent.rows);
            var sum := DispatchedSum(core, rows, plan.lanes);
            && report.dispatched.group.rejected == 0 && report.dispatched.group.succeeded == sum
            && P.GroupOf(parent.rows, P.Measurement, P.FundedCall).succeeded == sum
  {
    C.CallsConserved(plan, parent, recording, rows, report);
    NoRejections(rows);
    SourcesSettled(plan, CoreOf(parent.rows), rows);
  }
}
