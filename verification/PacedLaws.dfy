/** What an admitted paced log says as a whole. */
module PacedLaws {
  import opened Wrappers
  import opened Clock
  import opened Counting
  import opened Recorder
  import opened PacedTrace

  ghost predicate Admitted(plan: Plan, core: Core, rows: seq<Row>, total: nat) {
    AdmitAll(plan, core, rows, total).Met?
  }

  ghost predicate InQueue(state: Phase) {
    state == Reserved || state == Waiting
  }

  ghost predicate Busy(state: Phase) {
    InQueue(state) || state == Entered
  }

  // ---- the queue and the lanes ---------------------------------------------------------

  /** The request is known and still queued. */
  ghost predicate Queued(items: seq<Item>, r: int) {
    1 <= r <= |items| && InQueue(items[r - 1].state)
  }

  /** The queue is exactly the reserved and waiting requests, in request order. */
  ghost predicate QueueMatches(items: seq<Item>, fifo: seq<int>) {
    && (forall i, j :: 0 <= i < j < |fifo| ==> fifo[i] < fifo[j])
    && (forall r :: r in fifo <==> Queued(items, r))
  }

  /** The request is busy in the lane. */
  ghost predicate Holds(items: seq<Item>, lane: int, r: int) {
    1 <= r <= |items| && items[r - 1].lane == lane && Busy(items[r - 1].state)
  }

  /** A lane is occupied exactly by its one busy request. */
  ghost predicate LanesMatch(items: seq<Item>, occupied: map<int, int>, lanes: nat) {
    && (forall lane :: lane in occupied ==> Holds(items, lane, occupied[lane]))
    && (forall lane, r :: Holds(items, lane, r) ==> lane in occupied && occupied[lane] == r)
    && (forall k :: 0 <= k < |items| ==> 0 <= items[k].lane < lanes)
  }

  /** What admission says about a row, in terms of the tables before it. */
  ghost predicate Fits(core: Core, items: seq<Item>, fifo: seq<int>, occupied: map<int, int>, lanes: nat,
                       event: Event) {
    match event
    case Request(r, lane, _) =>
      r == |items| + 1 && 0 <= lane < lanes && lane !in occupied && r <= |core.begins|
        && core.begins[r - 1].observation in core.finishes
    case WaitBegin(r, _) => 1 <= r <= |items| && items[r - 1].state == Reserved
    case Dispatch(r, _) => 1 <= r <= |items| && items[r - 1].state == Waiting && AtHead(fifo, r)
    case SourceTerminal(r, _, _) => 1 <= r <= |items| && items[r - 1].state == Entered
    case Withdraw(r, _, _) => 1 <= r <= |items| && InQueue(items[r - 1].state) && AtHead(fifo, r)
    case Finalize => true
  }

  lemma {:induction false} AdmittedFits(plan: Plan, core: Core, rows: seq<Row>, total: nat)
    requires Admitted(plan, core, rows, total) && |rows| > 0
    ensures var init := rows[..|rows| - 1];
            Admitted(plan, core, init, total)
            && Fits(core, Items(core, init), Fifo(init), Occupied(core, init), plan.lanes, rows[|rows| - 1].event)
  {
  }

  lemma {:induction false} PrefixAdmitted(plan: Plan, core: Core, rows: seq<Row>, k: nat, total: nat)
    requires Admitted(plan, core, rows, total) && k <= |rows|
    ensures Admitted(plan, core, rows[..k], total)
  {
    if k < |rows| {
      PrefixAdmitted(plan, core, rows[..|rows| - 1], k, total);
      assert rows[..|rows| - 1][..k] == rows[..k];
    } else {
      assert rows[..k] == rows;
    }
  }

  lemma {:induction false} PushMatches(items: seq<Item>, fifo: seq<int>, item: Item)
    requires QueueMatches(items, fifo) && item.state == Reserved
    ensures QueueMatches(items + [item], fifo + [|items| + 1])
  {
    forall r ensures r in fifo + [|items| + 1] <==> Queued(items + [item], r) {
      assert r in fifo <==> Queued(items, r);
    }
    forall i | 0 <= i < |fifo| ensures fifo[i] < |items| + 1 {
      assert fifo[i] in fifo;
    }
  }

  lemma {:induction false} PopMatches(items: seq<Item>, fifo: seq<int>, item: Item)
    requires QueueMatches(items, fifo) && |fifo| > 0 && fifo[0] in fifo && !InQueue(item.state)
    ensures 1 <= fifo[0] <= |items| && QueueMatches(items[fifo[0] - 1 := item], fifo[1..])
  {
    forall r ensures r in fifo[1..] <==> Queued(items[fifo[0] - 1 := item], r) {
      assert r in fifo <==> Queued(items, r);
      assert r in fifo <==> r == fifo[0] || r in fifo[1..];
      assert r in fifo[1..] ==> r != fifo[0];
    }
  }

  lemma {:induction false} StayMatches(items: seq<Item>, fifo: seq<int>, k: nat, item: Item)
    requires QueueMatches(items, fifo) && k < |items| && InQueue(item.state) == InQueue(items[k].state)
    ensures QueueMatches(items[k := item], fifo)
  {
    forall r ensures r in fifo <==> Queued(items[k := item], r) {
      assert r in fifo <==> Queued(items, r);
    }
  }

  lemma {:induction false} AfterShape(core: Core, items: seq<Item>, fifo: seq<int>, occupied: map<int, int>,
                                      lanes: nat, event: Event)
    requires Fits(core, items, fifo, occupied, lanes, event) && !event.Finalize?
    ensures var after := ItemsAfter(core, items, event);
            if event.Request? then
              |after| == |items| + 1 && after == items + [after[|items|]] && after[|items|].state == Reserved
                && after[|items|].lane == event.lane
            else
              1 <= event.request <= |items| == |after| && after == items[event.request - 1 := after[event.request - 1]]
              && after[event.request - 1].lane == items[event.request - 1].lane
  {
  }

  lemma {:induction false} LeaveStep(core: Core, items: seq<Item>, fifo: seq<int>, occupied: map<int, int>,
                                     lanes: nat, event: Event)
    requires QueueMatches(items, fifo) && Fits(core, items, fifo, occupied, lanes, event)
    requires event.Dispatch? || event.Withdraw?
    ensures QueueMatches(ItemsAfter(core, items, event), fifo[1..])
  {
    AfterShape(core, items, fifo, occupied, lanes, event);
    assert fifo[0] == event.request && event.request in fifo;
    PopMatches(items, fifo, ItemsAfter(core, items, event)[event.request - 1]);
  }

  lemma {:induction false} QueueStep(core: Core, items: seq<Item>, fifo: seq<int>, occupied: map<int, int>,
                                     lanes: nat, event: Event)
    requires QueueMatches(items, fifo) && Fits(core, items, fifo, occupied, lanes, event)
    ensures QueueMatches(ItemsAfter(core, items, event), FifoAfter(fifo, event))
  {
    var after := ItemsAfter(core, items, event);
    if event.Request? {
      AfterShape(core, items, fifo, occupied, lanes, event);
      PushMatches(items, fifo, after[|items|]);
    } else if event.Dispatch? || event.Withdraw? {
      LeaveStep(core, items, fifo, occupied, lanes, event);
    } else if !event.Finalize? {
      AfterShape(core, items, fifo, occupied, lanes, event);
      StayMatches(items, fifo, event.request - 1, after[event.request - 1]);
    }
  }

  lemma {:induction false} LanesStep(core: Core, items: seq<Item>, fifo: seq<int>, occupied: map<int, int>,
                                     lanes: nat, event: Event)
    requires LanesMatch(items, occupied, lanes) && Fits(core, items, fifo, occupied, lanes, event)
    ensures LanesMatch(ItemsAfter(core, items, event), OccupiedAfter(items, occupied, event), lanes)
  {
    if !event.Finalize? {
      AfterShape(core, items, fifo, occupied, lanes, event);
      var after := ItemsAfter(core, items, event);
      assert !event.Request? ==> Holds(items, items[event.request - 1].lane, event.request);
      forall lane, r | Holds(after, lane, r) ensures var o := OccupiedAfter(items, occupied, event);
        lane in o
        && o[lane] == r {
        assert Holds(items, lane, r) || (event.Request? && r == |items| + 1);
      }
      forall lane | lane in OccupiedAfter(items, occupied, event) ensures Holds(after, lane,
        OccupiedAfter(items, occupied, event)[lane]) {
        assert lane in occupied ==> Holds(items, lane, occupied[lane]);
      }
    }
  }

  /** The FIFO dispatcher invariant, after every prefix. */
  lemma {:induction false} DispatcherInvariant(plan: Plan, core: Core, rows: seq<Row>, total: nat)
    requires Admitted(plan, core, rows, total)
    ensures QueueMatches(Items(core, rows), Fifo(rows))
    ensures LanesMatch(Items(core, rows), Occupied(core, rows), plan.lanes)
  {
    if |rows| > 0 {
      var init, event := rows[..|rows| - 1], rows[|rows| - 1].event;
      AdmittedFits(plan, core, rows, total);
      DispatcherInvariant(plan, core, init, total);
      QueueStep(core, Items(core, init), Fifo(init), Occupied(core, init), plan.lanes, event);
      LanesStep(core, Items(core, init), Fifo(init), Occupied(core, init), plan.lanes, event);
    }
  }

  /** One queued request per lane: the queue never exceeds the lanes. */
  lemma {:induction false} QueueWithinLanes(items: seq<Item>, fifo: seq<int>, occupied: map<int, int>, lanes: nat)
    requires QueueMatches(items, fifo) && LanesMatch(items, occupied, lanes)
    ensures |fifo| <= lanes
  {
    forall i | 0 <= i < |fifo| ensures Queued(items, fifo[i]) {
      assert fifo[i] in fifo;
    }
    var held := seq(|fifo|, i requires 0 <= i < |fifo| => items[fifo[i] - 1].lane);
    forall i, j | 0 <= i < j < |held| ensures held[i] != held[j] {
      assert Holds(items, held[i], fifo[i]) && Holds(items, held[j], fifo[j]);
    }
    Pigeonhole(held, lanes);
  }

  lemma {:induction false} RefusedByQueue(plan: Plan, core: Core, rows: seq<Row>, row: Row, total: nat)
    requires Admit(plan, core, rows, row, total) == Refused(QueueBound)
    ensures row.event.Request? && |Fifo(rows)| + 1 > plan.lanes
    ensures Fits(core, Items(core, rows), Fifo(rows), Occupied(core, rows), plan.lanes, row.event)
  {
  }

  /** The queue bound of REQUEST can never be what refuses a log. */
  lemma {:induction false} QueueBoundNeverRefuses(plan: Plan, core: Core, rows: seq<Row>, row: Row, total: nat)
    requires Admitted(plan, core, rows, total)
    ensures Admit(plan, core, rows, row, total) != Refused(QueueBound)
  {
    var items, fifo, occupied := Items(core, rows), Fifo(rows), Occupied(core, rows);
    DispatcherInvariant(plan, core, rows, total);
    if Admit(plan, core, rows, row, total) == Refused(QueueBound) {
      RefusedByQueue(plan, core, rows, row, total);
      QueueStep(core, items, fifo, occupied, plan.lanes, row.event);
      LanesStep(core, items, fifo, occupied, plan.lanes, row.event);
      QueueWithinLanes(ItemsAfter(core, items, row.event), FifoAfter(fifo, row.event),
        OccupiedAfter(items, occupied, row.event), plan.lanes);
      assert false;
    }
  }

  // ---- how many requests are in each state ----------------------------------------------

  ghost function HasState(state: Phase): Item -> int { (item: Item) => if item.state == state then 1 else 0 }

  ghost function InState(items: seq<Item>, state: Phase): int {
    Total(items, HasState(state))
  }

  /** A row changes a total over the requests by the one request it names. */
  lemma {:induction false} TotalMoves(core: Core, items: seq<Item>, fifo: seq<int>, occupied: map<int, int>,
                                      lanes: nat, event: Event, weight: Item -> int)
    requires Fits(core, items, fifo, occupied, lanes, event) && !event.Finalize?
    ensures var after := ItemsAfter(core, items, event);
            if event.Request? then
              |after| == |items| + 1 && Total(after, weight) == Total(items, weight) + weight(after[|items|])
            else
              |after| == |items| && 1 <= event.request <= |items|
              && Total(after, weight) == Total(items, weight) - weight(items[event.request - 1])
                 + weight(after[event.request - 1])
  {
    AfterShape(core, items, fifo, occupied, lanes, event);
    var after := ItemsAfter(core, items, event);
    if event.Request? {
      TotalAppend(items, after[|items|], weight);
    } else {
      TotalUpdate(items, event.request - 1, after[event.request - 1], weight);
    }
  }

  /** The state that a row gives to the request it names. */
  ghost function StateFrom(event: Event): Phase
    requires !event.Finalize?
  {
    match event
    case Request(_, _, _) => Reserved
    case WaitBegin(_, _) => Waiting
    case Dispatch(_, _) => Entered
    case SourceTerminal(_, _, _) => Done
    case Withdraw(_, _, _) => Withheld
  }

  /** One request leaves its state and enters another. */
  lemma {:induction false} StateMoves(core: Core, items: seq<Item>, fifo: seq<int>, occupied: map<int, int>,
                                      lanes: nat, event: Event, state: Phase)
    requires Fits(core, items, fifo, occupied, lanes, event) && !event.Finalize?
    ensures InState(ItemsAfter(core, items, event), state) ==
              InState(items, state) + (if StateFrom(event) == state then 1 else 0)
                - (if !event.Request? && items[event.request - 1].state == state then 1 else 0)
  {
    TotalMoves(core, items, fifo, occupied, lanes, event, HasState(state));
  }

  /** The live observations of the two series are the waiting and the entered requests, and every
      dispatch or withdrawal is visible in a request's state. */
  lemma {:induction false} StatesCounted(plan: Plan, core: Core, rows: seq<Row>, total: nat)
    requires Admitted(plan, core, rows, total)
    ensures SeriesGroup(Wait, rows).active == InState(Items(core, rows), Waiting)
    ensures SeriesGroup(Source, rows).active == InState(Items(core, rows), Entered)
    ensures Count(rows, IsDispatch()) == InState(Items(core, rows), Entered) + InState(Items(core, rows), Done)
    ensures Count(rows, IsWithdraw()) == InState(Items(core, rows), Withheld)
  {
    if |rows| > 0 {
      var init, event := rows[..|rows| - 1], rows[|rows| - 1].event;
      AdmittedFits(plan, core, rows, total);
      if event.Withdraw? {
        WithdrawFits(plan, core, rows, total);
      }
      StatesCounted(plan, core, init, total);
      if !event.Finalize? {
        var items, fifo, occupied := Items(core, init), Fifo(init), Occupied(core, init);
        StateMoves(core, items, fifo, occupied, plan.lanes, event, Waiting);
        StateMoves(core, items, fifo, occupied, plan.lanes, event, Entered);
        StateMoves(core, items, fifo, occupied, plan.lanes, event, Done);
        StateMoves(core, items, fifo, occupied, plan.lanes, event, Withheld);
      }
    }
  }

  /** A withdrawal records a wait exactly when its request was waiting. */
  lemma {:induction false} WithdrawFits(plan: Plan, core: Core, rows: seq<Row>, total: nat)
    requires Admitted(plan, core, rows, total) && |rows| > 0 && rows[|rows| - 1].event.Withdraw?
    ensures var init, event := rows[..|rows| - 1], rows[|rows| - 1].event;
            1 <= event.request <= |Items(core, init)|
            && event.recordedWait == (Items(core, init)[event.request - 1].state == Waiting)
  {
  }

  lemma {:induction false} AllStates(items: seq<Item>)
    ensures |items| == InState(items, Reserved) + InState(items, Waiting) + InState(items, Entered)
                       + InState(items, Done) + InState(items, Withheld)
  {
    if |items| > 0 {
      AllStates(items[..|items| - 1]);
    }
  }

  lemma {:induction false} NoneInState(items: seq<Item>, state: Phase)
    ensures 0 <= InState(items, state)
    ensures InState(items, state) == 0 <==> forall k :: 0 <= k < |items| ==> items[k].state != state
  {
    if |items| > 0 {
      NoneInState(items[..|items| - 1], state);
      assert forall k :: 0 <= k < |items| - 1 ==> items[..|items| - 1][k] == items[k];
    }
  }

  /** With no queue and no occupied lane every request is done or withheld. */
  lemma {:induction false} NothingPending(plan: Plan, core: Core, rows: seq<Row>, total: nat)
    requires Admitted(plan, core, rows, total) && Fifo(rows) == [] && Occupied(core, rows) == map[]
    ensures InState(Items(core, rows), Reserved) == InState(Items(core, rows), Waiting)
            == InState(Items(core, rows), Entered) == 0
  {
    var items := Items(core, rows);
    DispatcherInvariant(plan, core, rows, total);
    forall k | 0 <= k < |items| ensures !Busy(items[k].state) {
      assert !Holds(items, items[k].lane, k + 1);
    }
    NoneInState(items, Reserved);
    NoneInState(items, Waiting);
    NoneInState(items, Entered);
  }

  /** At the end every request was dispatched or withdrawn, and nothing is left open. */
  lemma {:induction false} RequestsConserved(plan: Plan, core: Core, rows: seq<Row>, total: nat)
    requires Admitted(plan, core, rows, total) && Fifo(rows) == [] && Occupied(core, rows) == map[]
    ensures |Items(core, rows)| == Count(rows, IsDispatch()) + Count(rows, IsWithdraw())
    ensures SeriesGroup(Wait, rows).active == 0 && SeriesGroup(Source, rows).active == 0
  {
    NothingPending(plan, core, rows, total);
    StatesCounted(plan, core, rows, total);
    AllStates(Items(core, rows));
  }

  // ---- peaks -------------------------------------------------------------------------

  lemma {:induction false} QueuePeakStep(rows: seq<Row>)
    requires |rows| > 0 && |Fifo(rows[..|rows| - 1])| <= PeakQueue(rows[..|rows| - 1])
    ensures PeakQueue(rows) == Max(PeakQueue(rows[..|rows| - 1]), |Fifo(rows)|)
  {
  }

  /** The reported peak of the queue is its largest length after any prefix of the rows. */
  lemma {:induction false} QueuePeakIsMaximum(rows: seq<Row>)
    ensures forall k :: 0 <= k <= |rows| ==> |Fifo(rows[..k])| <= PeakQueue(rows)
    ensures exists k :: 0 <= k <= |rows| && |Fifo(rows[..k])| == PeakQueue(rows)
  {
    if |rows| == 0 {
      assert Fifo(rows[..0]) == [];
    } else {
      var init := rows[..|rows| - 1];
      QueuePeakIsMaximum(init);
      assert init[..|init|] == init;
      QueuePeakStep(rows);
      ExtendMaximum(rows, (r: seq<Row>) => |Fifo(r)|, (r: seq<Row>) => true, PeakQueue(init), PeakQueue(rows));
    }
  }

  /** The requests that are live observations of the series. */
  ghost function LiveIn(core: Core, rows: seq<Row>, s: Series): int {
    InState(Items(core, rows), if s == Wait then Waiting else Entered)
  }

  lemma {:induction false} SeriesPeakStep(plan: Plan, core: Core, rows: seq<Row>, total: nat, s: Series)
    requires Admitted(plan, core, rows, total) && |rows| > 0
             && LiveIn(core, rows[..|rows| - 1], s) <= SeriesGroup(s, rows[..|rows| - 1]).peak
    ensures SeriesGroup(s, rows).peak == Max(SeriesGroup(s, rows[..|rows| - 1]).peak, LiveIn(core, rows, s))
  {
    StatesCounted(plan, core, rows, total);
    StatesCounted(plan, core, rows[..|rows| - 1], total);
  }

  /** The reported peak of a series is the largest number of requests waiting, or in the source, after any prefix
      of the rows. */
  lemma {:induction false} SeriesPeakIsMaximum(plan: Plan, core: Core, rows: seq<Row>, total: nat, s: Series)
    requires Admitted(plan, core, rows, total)
    ensures forall k :: 0 <= k <= |rows| ==> LiveIn(core, rows[..k], s) <= SeriesGroup(s, rows).peak
    ensures exists k :: 0 <= k <= |rows| && LiveIn(core, rows[..k], s) == SeriesGroup(s, rows).peak
  {
    if |rows| == 0 {
      assert LiveIn(core, rows[..0], s) == 0;
    } else {
      var init := rows[..|rows| - 1];
      SeriesPeakIsMaximum(plan, core, init, total, s);
      assert init[..|init|] == init;
      SeriesPeakStep(plan, core, rows, total, s);
      ExtendMaximum(rows, (r: seq<Row>) => LiveIn(core, r, s), (r: seq<Row>) => true, SeriesGroup(s, init).peak,
                    SeriesGroup(s, rows).peak);
    }
  }

  // ---- how many rows a log can have ----------------------------------------------------

  ghost function IsWithdrawAfterWait(): Event -> bool { (e: Event) => e.Withdraw? && e.recordedWait }

  lemma {:induction false} SeriesConserved(rows: seq<Row>, s: Series)
    ensures var g := SeriesGroup(s, rows); g.entered == g.settled + g.active && g.settled == g.succeeded + g.rejected
  {
    if |rows| > 0 {
      SeriesConserved(rows[..|rows| - 1], s);
    }
  }

  lemma {:induction false} RowsByKind(plan: Plan, core: Core, rows: seq<Row>, total: nat)
    requires Admitted(plan, core, rows, total)
    ensures |rows| == |Items(core, rows)| + SeriesGroup(Wait, rows).entered + Count(rows, IsDispatch())
                      + SeriesGroup(Source, rows).settled + Count(rows, IsWithdraw()) + Count(rows, IsFinalize())
    ensures SeriesGroup(Source, rows).entered == Count(rows, IsDispatch())
    ensures SeriesGroup(Wait, rows).settled == Count(rows, IsDispatch()) + Count(rows, IsWithdrawAfterWait())
    ensures Count(rows, IsFinalize()) <= 1 && Count(rows, IsWithdrawAfterWait()) <= Count(rows, IsWithdraw())
    ensures |Items(core, rows)| <= plan.limits.maxSamplesPerPhase || |Items(core, rows)| == 0
  {
    if |rows| > 0 {
      AdmittedFits(plan, core, rows, total);
      RowsByKind(plan, core, rows[..|rows| - 1], total);
    }
  }

  /** A finalized log with nothing pending has exactly four rows per dispatch, three per withdrawal
      after a wait, two per withdrawal before it, and its final row; so the declared ceiling of four
      rows per sample and one more can never be what refuses it. */
  lemma {:induction false} RowCeiling(plan: Plan, core: Core, rows: seq<Row>)
    requires Admitted(plan, core, rows, |rows|) && 0 <= plan.limits.maxSamplesPerPhase
    requires Count(rows, IsFinalize()) > 0 && Fifo(rows) == [] && Occupied(core, rows) == map[]
    ensures var dispatched, afterWait := Count(rows, IsDispatch()), Count(rows, IsWithdrawAfterWait());
            |rows| == 4 * dispatched + 3 * afterWait + 2 * (Count(rows, IsWithdraw()) - afterWait) + 1
    ensures 1 <= |rows| <= 4 * plan.limits.maxSamplesPerPhase + 1
  {
    RowsByKind(plan, core, rows, |rows|);
    RequestsConserved(plan, core, rows, |rows|);
    SeriesConserved(rows, Wait);
    SeriesConserved(rows, Source);
  }

  // ---- ordinals and the sample cap -----------------------------------------------------

  /** The ordinals used by the first n lanes together. */
  ghost function OrdinalSum(rows: seq<Row>, n: nat): int {
    if n == 0 then 0 else OrdinalSum(rows, n - 1) + NextOrdinal(rows, n - 1)
  }

  lemma {:induction false} OrdinalSumStep(rows: seq<Row>, n: nat)
    requires |rows| > 0
    requires var event := rows[|rows| - 1].event;
             event.Request? ==> 0 <= event.lane && event.ordinal == NextOrdinal(rows[..|rows| - 1], event.lane)
    ensures var event := rows[|rows| - 1].event;
            OrdinalSum(rows, n) == OrdinalSum(rows[..|rows| - 1], n)
              + (if event.Request? && event.lane < n then 1 else 0)
  {
    if n > 0 {
      OrdinalSumStep(rows, n - 1);
    }
  }

  lemma {:induction false} NoOrdinals(n: nat)
    ensures OrdinalSum([], n) == 0
  {
    if n > 0 {
      NoOrdinals(n - 1);
    }
  }

  /** Requests are numbered lane by lane without gaps. */
  lemma {:induction false} OrdinalsCountRequests(plan: Plan, core: Core, rows: seq<Row>, total: nat)
    requires Admitted(plan, core, rows, total)
    ensures OrdinalSum(rows, plan.lanes) == |Items(core, rows)|
    ensures forall lane ::
            0 <= NextOrdinal(rows, lane) && (NextOrdinal(rows, lane) <= plan.measurementCallsPerLane
            || NextOrdinal(rows, lane) == 0)
  {
    if |rows| > 0 {
      AdmittedFits(plan, core, rows, total);
      OrdinalsCountRequests(plan, core, rows[..|rows| - 1], total);
      OrdinalSumStep(rows, plan.lanes);
    } else {
      assert rows == [];
      NoOrdinals(plan.lanes);
    }
  }

  lemma {:induction false} NextMultiple(k: int, m: int)
    ensures (k + 1) * m == k * m + m
  {
  }

  /** The first n lanes have used m ordinals each. */
  ghost predicate LanesAt(rows: seq<Row>, n: nat, m: int) {
    forall lane :: 0 <= lane < n ==> NextOrdinal(rows, lane) == m
  }

  lemma {:induction false} LanesAtNext(rows: seq<Row>, n: nat, m: int)
    ensures LanesAt(rows, n + 1, m) <==> LanesAt(rows, n, m) && NextOrdinal(rows, n) == m
  {
    if LanesAt(rows, n, m) && NextOrdinal(rows, n) == m {
      forall lane | 0 <= lane < n + 1 ensures NextOrdinal(rows, lane) == m {
        assert lane < n || lane == n;
      }
    }
  }

  /** A sum of n ordinals, each at most m, is n times m exactly when each is m. */
  lemma {:induction false} OrdinalSumFull(rows: seq<Row>, n: nat, m: int)
    requires forall lane :: 0 <= lane < n ==> NextOrdinal(rows, lane) <= m
    ensures OrdinalSum(rows, n) <= n * m
    ensures OrdinalSum(rows, n) == n * m <==> LanesAt(rows, n, m)
  {
    if n > 0 {
      var k := n - 1;
      assert k + 1 == n && NextOrdinal(rows, k) <= m;
      OrdinalSumFull(rows, k, m);
      NextMultiple(k, m);
      LanesAtNext(rows, k, m);
    }
  }

  /** The declared `plannedCallsCompleted` flag says that every lane made all its calls. */
  lemma {:induction false} PlannedCallsMeaning(plan: Plan, core: Core, rows: seq<Row>, total: nat)
    requires Admitted(plan, core, rows, total) && 0 <= plan.measurementCallsPerLane
    ensures PlannedCallsDone(plan, rows) <==> |Items(core, rows)| == plan.lanes * plan.measurementCallsPerLane
    ensures |Items(core, rows)| <= plan.lanes * plan.measurementCallsPerLane
  {
    OrdinalsCountRequests(plan, core, rows, total);
    OrdinalSumFull(rows, plan.lanes, plan.measurementCallsPerLane);
    assert PlannedCallsDone(plan, rows) <==> LanesAt(rows, plan.lanes, plan.measurementCallsPerLane);
  }

  lemma {:induction false} RoomFor(lanes: int, warmup: int, calls: int, ledger: int, samples: int)
    requires 1 <= lanes && 0 <= warmup && 1 <= calls && 1 <= ledger
    requires (1 + warmup + calls) * lanes * ledger <= samples
    ensures lanes * calls < samples
  {
    var slots := (1 + warmup + calls) * lanes;
    assert slots == lanes * calls + lanes * warmup + lanes;
    assert lanes * warmup >= 0 && lanes * calls >= 0;
    assert slots * ledger >= slots * 1;
  }

  /** An admitted plan leaves room for every call of every lane. */
  lemma {:induction false} PlanHasRoom(plan: Plan)
    requires AdmitPlan(plan).Met?
    ensures plan.lanes * plan.measurementCallsPerLane < plan.limits.maxSamplesPerPhase
  {
    RoomFor(plan.lanes, plan.warmupCallsPerLane, plan.measurementCallsPerLane,
            plan.maxLedgerTransactionsPerOperation, plan.limits.maxSamplesPerPhase);
  }

  /** For an admitted plan the sample cap of REQUEST can never be what refuses a log. */
  lemma {:induction false} SampleCapNeverRefuses(plan: Plan, core: Core, rows: seq<Row>, total: nat)
    requires AdmitPlan(plan).Met? && Admitted(plan, core, rows, total)
    ensures |Items(core, rows)| < plan.limits.maxSamplesPerPhase
  {
    PlannedCallsMeaning(plan, core, rows, total);
    PlanHasRoom(plan);
  }

  // ---- the minimum gap over whole runs --------------------------------------------------

  /** Consecutive readings are at least a gap apart. */
  ghost predicate Apart(starts: seq<int>, gap: int) {
    forall i, j :: 0 <= i && j == i + 1 < |starts| ==> starts[j] - starts[i] >= gap
  }

  lemma {:induction false} ApartNext(starts: seq<int>, gap: int, at: int)
    requires Apart(starts, gap) && (|starts| > 0 ==> at - starts[|starts| - 1] >= gap)
    ensures Apart(starts + [at], gap)
  {
  }

  /** What admission says about the gap before a dispatch. */
  lemma {:induction false} DispatchGap(plan: Plan, core: Core, rows: seq<Row>, total: nat)
    requires Admitted(plan, core, rows, total) && |rows| > 0 && rows[|rows| - 1].event.Dispatch?
    ensures var before, at := Starts(rows[..|rows| - 1]), rows[|rows| - 1].event.at;
            |before| > 0 ==> at - before[|before| - 1] >= plan.Gap()
  {
  }

  lemma {:induction false} GapsStep(plan: Plan, core: Core, rows: seq<Row>, total: nat)
    requires Admitted(plan, core, rows, total) && |rows| > 0 && Apart(Starts(rows[..|rows| - 1]), plan.Gap())
    ensures Apart(Starts(rows), plan.Gap())
  {
    var before, event := Starts(rows[..|rows| - 1]), rows[|rows| - 1].event;
    if event.Dispatch? {
      DispatchGap(plan, core, rows, total);
      ApartNext(before, plan.Gap(), event.at);
      assert Starts(rows) == before + [event.at];
    } else {
      assert Starts(rows) == before;
    }
  }

  /** Consecutive starts are at least a gap apart, one start per dispatch. */
  lemma {:induction false} GapsKept(plan: Plan, core: Core, rows: seq<Row>, total: nat)
    requires Admitted(plan, core, rows, total)
    ensures |Starts(rows)| == Count(rows, IsDispatch())
    ensures Apart(Starts(rows), plan.Gap())
  {
    if |rows| > 0 {
      GapsKept(plan, core, rows[..|rows| - 1], total);
      GapsStep(plan, core, rows, total);
    }
  }

  lemma {:induction false} GapsAddUp(starts: seq<int>, gap: int, i: nat, j: nat)
    requires Apart(starts, gap)
    requires i <= j < |starts|
    ensures starts[j] - starts[i] >= (j - i) * gap
    decreases j
  {
    if i < j {
      GapsAddUp(starts, gap, i, j - 1);
      assert starts[j] - starts[j - 1] >= gap;
      assert (j - i) * gap == (j - 1 - i) * gap + gap;
    }
  }

  /** Any two starts of a run are as many gaps apart as there are starts between them. */
  lemma {:induction false} RateBound(plan: Plan, core: Core, rows: seq<Row>, total: nat, i: nat, j: nat)
    requires Admitted(plan, core, rows, total) && i <= j < |Starts(rows)|
    ensures Starts(rows)[j] - Starts(rows)[i] >= (j - i) * plan.Gap()
  {
    GapsKept(plan, core, rows, total);
    GapsAddUp(Starts(rows), plan.Gap(), i, j);
  }

  /** The starts that lie in a closed window, by their index. */
  ghost function StartsWithin(starts: seq<int>, from: int, to: int): set<int> {
    set k | 0 <= k < |starts| && from <= starts[k] <= to
  }

  /** A closed window of length `span` holds at most span / gap + 1 starts. */
  lemma {:induction false} WindowRateBound(plan: Plan, core: Core, rows: seq<Row>, total: nat, from: int, span: nat)
    requires Admitted(plan, core, rows, total) && plan.Gap() > 0
    ensures |StartsWithin(Starts(rows), from, from + span)| <= span / plan.Gap() + 1
  {
    GapsKept(plan, core, rows, total);
    WindowSize(Starts(rows), plan.Gap(), from, span);
  }

  lemma {:induction false} WindowSize(starts: seq<int>, gap: int, from: int, span: nat)
    requires gap > 0 && Apart(starts, gap)
    ensures |StartsWithin(starts, from, from + span)| <= span / gap + 1
  {
    var within := StartsWithin(starts, from, from + span);
    QuotientBound(0, gap, span);
    if |within| > 0 {
      var i, j := Extremes(within);
      GapsAddUp(starts, gap, i, j);
      QuotientBound(j - i, gap, span);
      WithinSize(within, i, j);
    }
  }

  lemma {:induction false} QuotientBound(n: nat, gap: int, span: int)
    requires gap > 0 && n * gap <= span
    ensures n <= span / gap
  {
    var q := span / gap;
    assert span == q * gap + span % gap;
    assert (q + 1) * gap == q * gap + gap;
    FactorOut(n, q + 1, gap);
  }

  lemma {:induction false} FactorOut(n: int, k: int, gap: int)
    requires gap > 0 && n * gap < k * gap
    ensures n < k
  {
    assert (k - n) * gap > 0;
  }

  // ---- each request lies inside the bracket of its core call ----------------------------

  ghost function ClosingAfter(closing: Option<Event>, event: Event, r: int): Option<Event> {
    if (event.SourceTerminal? || event.Withdraw?) && event.request == r then Some(event) else closing
  }

  /** The row that ended the request: its source terminal or its withdrawal. */
  ghost function ClosingRow(rows: seq<Row>, r: int): Option<Event> {
    if |rows| == 0 then None else ClosingAfter(ClosingRow(rows[..|rows| - 1], r), rows[|rows| - 1].event, r)
  }

  /** The readings of a request lie in order inside the bracket of its call: its wait, its dispatch and its
      terminal, or its wait, when it is recorded, and its withdrawal. */
  ghost predicate Bracketed(item: Item, closing: Option<Event>, previous: int) {
    && Busy(item.state) == closing.None?
    && match item.state
       case Reserved => true
       case Waiting => item.begin <= item.waitAt <= item.finish && item.waitAt <= previous
       case Entered => item.begin <= item.waitAt <= item.sourceAt <= item.finish && item.sourceAt <= previous
       case Done =>
         && closing.value.SourceTerminal? && closing.value.outcome == item.outcome && closing.value.at <= previous
         && item.begin <= item.waitAt <= item.sourceAt <= closing.value.at <= item.finish
       case Withheld =>
         && closing.value.Withdraw? && item.outcome == Rejected && closing.value.at <= previous
         && item.begin <= closing.value.at <= item.finish
         && (closing.value.recordedWait ==> item.begin <= item.waitAt <= closing.value.at)
  }

  ghost function Now(rows: seq<Row>): int {
    if Previous(rows).Some? then Previous(rows).value else 0
  }

  /** Only a known request has ended. */
  lemma {:induction false} ClosedAreKnown(plan: Plan, core: Core, rows: seq<Row>, total: nat, r: int)
    requires Admitted(plan, core, rows, total) && ClosingRow(rows, r).Some?
    ensures 1 <= r <= |Items(core, rows)|
  {
    AdmittedFits(plan, core, rows, total);
    if ClosingRow(rows[..|rows| - 1], r).Some? {
      ClosedAreKnown(plan, core, rows[..|rows| - 1], total, r);
    }
  }

  /** What the readings of a row must be for the request it names. */
  ghost predicate InBracket(item: Item, event: Event)
    requires Timed(event)
  {
    && event.at <= item.finish
    && (if event.SourceTerminal? then item.sourceAt <= event.at && item.outcome == event.outcome
        else item.begin <= event.at)
    && (event.Withdraw? ==> item.outcome == Rejected && event.recordedWait == (item.state == Waiting))
  }

  /** The readings that admission compares. */
  lemma {:induction false} AdmittedReadings(plan: Plan, core: Core, rows: seq<Row>, total: nat)
    requires Admitted(plan, core, rows, total) && |rows| > 0 && Timed(rows[|rows| - 1].event)
    ensures var init, event := rows[..|rows| - 1], rows[|rows| - 1].event;
            && 1 <= event.request <= |Items(core, init)| && InBracket(Items(core, init)[event.request - 1], event)
            && Now(init) <= event.at && Now(rows) == event.at
  {
  }

  /** A row keeps the bracket of every request. */
  lemma {:induction false} BracketedStep(core: Core, items: seq<Item>, fifo: seq<int>, occupied: map<int, int>,
                                         lanes: nat, event: Event, k: nat, closing: Option<Event>, previous: int)
    requires Fits(core, items, fifo, occupied, lanes, event)
    requires k < |items| && Bracketed(items[k], closing, previous)
    requires Timed(event) ==> previous <= event.at && InBracket(items[event.request - 1], event)
    ensures k < |ItemsAfter(core, items, event)|
    ensures Bracketed(ItemsAfter(core, items, event)[k], ClosingAfter(closing, event, k + 1),
                      if Timed(event) then event.at else previous)
  {
  }

  lemma {:induction false} AllBracketed(plan: Plan, core: Core, rows: seq<Row>, total: nat)
    requires Admitted(plan, core, rows, total)
    ensures forall k :: 0 <= k < |Items(core, rows)| ==>
              Bracketed(Items(core, rows)[k], ClosingRow(rows, k + 1), Now(rows))
  {
    forall k: nat | k < |Items(core, rows)|
      ensures Bracketed(Items(core, rows)[k], ClosingRow(rows, k + 1), Now(rows))
    {
      RequestBracketed(plan, core, rows, total, k);
    }
  }

  lemma {:induction false} RequestBracketed(plan: Plan, core: Core, rows: seq<Row>, total: nat, k: nat)
    requires Admitted(plan, core, rows, total) && k < |Items(core, rows)|
    ensures Bracketed(Items(core, rows)[k], ClosingRow(rows, k + 1), Now(rows))
  {
    var init, event := rows[..|rows| - 1], rows[|rows| - 1].event;
    AdmittedFits(plan, core, rows, total);
    if k < |Items(core, init)| {
      RequestBracketed(plan, core, init, total, k);
      if Timed(event) {
        AdmittedReadings(plan, core, rows, total);
      }
      BracketedStep(core, Items(core, init), Fifo(init), Occupied(core, init), plan.lanes, event, k,
                    ClosingRow(init, k + 1), Now(init));
    } else if ClosingRow(rows, k + 1).Some? {
      ClosedAreKnown(plan, core, init, total, k + 1);
    }
  }

  /** A waiting or entered request is a live observation of its series. */
  lemma {:induction false} SeriesOpen(plan: Plan, core: Core, rows: seq<Row>, total: nat, k: nat)
    requires Admitted(plan, core, rows, total) && k < |Items(core, rows)|
    ensures Items(core, rows)[k].state == Waiting ==> SeriesGroup(Wait, rows).active > 0
    ensures Items(core, rows)[k].state == Entered ==> SeriesGroup(Source, rows).active > 0
  {
    StatesCounted(plan, core, rows, total);
    NoneInState(Items(core, rows), Waiting);
    NoneInState(Items(core, rows), Entered);
  }

  /** The terminal check of a series can never be what refuses a log. */
  lemma {:induction false} SeriesTerminalOrderNeverRefuses(plan: Plan, core: Core, rows: seq<Row>, row: Row, total: nat)
    requires Admitted(plan, core, rows, total)
    ensures Admit(plan, core, rows, row, total) != Refused(SeriesTerminalOrder)
  {
    if Timed(row.event) && 1 <= row.event.request <= |Items(core, rows)| {
      var k := row.event.request - 1;
      AllBracketed(plan, core, rows, total);
      assert Bracketed(Items(core, rows)[k], ClosingRow(rows, k + 1), Now(rows));
      SeriesOpen(plan, core, rows, total, k);
    }
  }
}
