/** The paced checker accepts exactly the well-formed logs, each with the one report that the positions of its
    rows determine. */
module PacedExact {
  import opened Wrappers
  import opened Clock
  import opened Recorder
  import opened PacedTrace
  import opened PacedPositions
  import opened PacedPlaces
  import opened PacedFigures
  import opened Positions
  import P = ParentTrace
  import L = PacedLaws

  // ---- acceptance ------------------------------------------------------------------------------

  ghost predicate Standing(plan: Plan, core: Core, rows: seq<Row>, k: nat) {
    && k < |rows| && SoundBelow(plan, core, rows, k) && AdmitPlan(plan).Met?
    && L.Admitted(plan, core, rows[..k], |rows|)
  }

  lemma {:induction false} PreviousIs(rows: seq<Row>, n: nat)
    requires n <= |rows|
    ensures var previous := Previous(rows[..n]);
            if previous.None? then forall j: nat :: j < n ==> !Timed(rows[j].event)
            else exists j: nat :: j < n && Timed(rows[j].event) && ReadingAt(rows, j) == previous.value
                                  && forall i: nat :: j < i < n ==> !Timed(rows[i].event)
  {
    if n > 0 {
      var k: nat := n - 1;
      PrefixNext(rows, k);
      PreviousIs(rows, k);
      if Timed(rows[k].event) {
        assert ReadingAt(rows, k) == rows[k].event.at;
      } else if Previous(rows[..k]).Some? {
        var j: nat :| j < k && Timed(rows[j].event) && ReadingAt(rows, j) == Previous(rows[..k]).value
                      && forall i: nat :: j < i < k ==> !Timed(rows[i].event);
        assert forall i: nat :: j < i < n ==> !Timed(rows[i].event);
      }
    }
  }

  ghost predicate ClockSound(rows: seq<Row>, k: nat)
    requires k < |rows|
  {
    Timed(rows[k].event) ==>
      forall j: nat :: j < k && Timed(rows[j].event) ==> ReadingAt(rows, j) <= ReadingAt(rows, k)
  }

  lemma {:induction false} ClockIs(plan: Plan, core: Core, rows: seq<Row>, k: nat)
    requires k < |rows| && SoundBelow(plan, core, rows, k)
    ensures ClockSound(rows, k) <==> !(Timed(rows[k].event) && Previous(rows[..k]).Some?
                                       && Previous(rows[..k]).value > rows[k].event.at)
  {
    PreviousIs(rows, k);
    var previous := Previous(rows[..k]);
    if Timed(rows[k].event) && previous.Some? {
      var j: nat :| j < k && Timed(rows[j].event) && ReadingAt(rows, j) == previous.value
                    && forall i: nat :: j < i < k ==> !Timed(rows[i].event);
      assert RowSound(plan, core, rows, j);
      if previous.value <= rows[k].event.at {
        forall i: nat | i < k && Timed(rows[i].event) ensures ReadingAt(rows, i) <= ReadingAt(rows, k) {
          assert i <= j;
        }
      }
    }
  }

  /** No row before the last one is FINALIZE. */
  lemma {:induction false} NotFinalized(plan: Plan, core: Core, rows: seq<Row>, k: nat)
    requires k < |rows| && SoundBelow(plan, core, rows, k)
    ensures Count(rows[..k], IsFinalize()) == 0
  {
    CountIs(rows, k, IsFinalize());
    NumberZero(k, Are(rows, IsFinalize()));
    forall j: nat | j < k ensures !At(rows, j, IsFinalize()) {
      assert RowSound(plan, core, rows, j);
    }
  }

  ghost predicate EventMet(plan: Plan, core: Core, rows: seq<Row>, k: nat)
    requires k < |rows|
  {
    AdmitEvent(plan, core, rows[..k], rows[k].event, k + 1 == |rows|).Met?
  }

  /** The table entry of a known request. */
  lemma {:induction false} KnownIs(plan: Plan, core: Core, rows: seq<Row>, k: nat, r: int)
    requires Standing(plan, core, rows, k)
    ensures var items := Items(core, rows[..k]);
            && |items| == Number(k, Are(rows, IsRequest()))
            && (KnownRequest(items, r).Met? <==> Seen(rows, k, IsRequest(), r))
            && (Seen(rows, k, IsRequest(), r) <==> 1 <= r <= |items|)
            && (1 <= r <= |items| ==> ItemIs(core, rows, k, r, items[r - 1]))
  {
    ItemsAre(plan, core, rows, k);
    RequestsAre(plan, core, rows, k, r);
    L.SampleCapNeverRefuses(plan, core, rows[..k], |rows|);
  }

  /** In the queue, and busy, told from the rows. */
  lemma {:induction false} StatesAre(plan: Plan, core: Core, rows: seq<Row>, k: nat, r: int)
    requires k <= |rows| && SoundBelow(plan, core, rows, k)
    ensures var state := StateAt(rows, k, r);
            && (L.InQueue(state) <==> !Seen(rows, k, IsLeave(), r))
            && (L.Busy(state) <==> !Seen(rows, k, IsClose(), r))
            && (state == Waiting <==> Seen(rows, k, IsWait(), r) && !Seen(rows, k, IsLeave(), r))
            && (state == Entered <==> Seen(rows, k, IsDispatch(), r) && !Seen(rows, k, IsClose(), r))
  {
    StepsAre(plan, core, rows, k, r);
    SeenEither(rows, k, r);
  }

  lemma {:induction false} HeadIs(items: seq<Item>, fifo: seq<int>, r: int)
    requires L.QueueMatches(items, fifo)
    ensures AtHead(fifo, r) <==> L.Queued(items, r) && forall q :: q < r ==> !L.Queued(items, q)
  {
    if AtHead(fifo, r) {
      assert fifo[0] in fifo;
      assert forall i :: 0 <= i < |fifo| ==> fifo[i] >= r;
      forall q | q < r ensures !L.Queued(items, q) {
        assert q !in fifo;
      }
    } else if L.Queued(items, r) {
      assert r in fifo && fifo[0] in fifo;
      var i :| 0 <= i < |fifo| && fifo[i] == r;
      assert fifo[0] < r && L.Queued(items, fifo[0]);
    }
  }

  /** The head of the queue is the oldest request that has not left it. */
  lemma {:induction false} OldestIs(plan: Plan, core: Core, rows: seq<Row>, k: nat, r: int)
    requires Standing(plan, core, rows, k) && Seen(rows, k, IsRequest(), r)
    ensures AtHead(Fifo(rows[..k]), r) <==> !Seen(rows, k, IsLeave(), r) && Oldest(rows, k, r)
  {
    var items, fifo := Items(core, rows[..k]), Fifo(rows[..k]);
    L.DispatcherInvariant(plan, core, rows[..k], |rows|);
    HeadIs(items, fifo, r);
    forall q ensures L.Queued(items, q) <==> Seen(rows, k, IsRequest(), q) && !Seen(rows, k, IsLeave(), q) {
      KnownIs(plan, core, rows, k, q);
      StatesAre(plan, core, rows, k, q);
    }
  }

  lemma {:induction false} RequestOnce(plan: Plan, core: Core, rows: seq<Row>, k: nat, i: nat, j: nat)
    requires k <= |rows| && SoundBelow(plan, core, rows, k) && i < k && j < k
    requires rows[i].event.Request? && rows[j].event.Request? && rows[i].event.request == rows[j].event.request
    ensures i == j
  {
    assert RowSound(plan, core, rows, i) && RowSound(plan, core, rows, j);
    NumberNext(i, Are(rows, IsRequest()));
    NumberNext(j, Are(rows, IsRequest()));
    if i < j {
      NumberGrows(i + 1, j, Are(rows, IsRequest()));
    } else if j < i {
      NumberGrows(j + 1, i, Are(rows, IsRequest()));
    }
  }

  /** A lane is free when its requests have ended. */
  lemma {:induction false} LaneIs(plan: Plan, core: Core, rows: seq<Row>, k: nat, lane: int)
    requires Standing(plan, core, rows, k)
    ensures lane !in Occupied(core, rows[..k]) <==> LaneFree(rows, k, lane)
  {
    var items, occupied := Items(core, rows[..k]), Occupied(core, rows[..k]);
    L.DispatcherInvariant(plan, core, rows[..k], |rows|);
    if lane in occupied {
      var r := occupied[lane];
      assert L.Holds(items, lane, r);
      KnownIs(plan, core, rows, k, r);
      StatesAre(plan, core, rows, k, r);
      var j: nat :| j < k && Happens(rows, j, IsRequest(), r) && AsksFor(rows, j, lane);
    } else {
      forall j: nat | j < k && AsksFor(rows, j, lane) ensures Seen(rows, k, IsClose(), rows[j].event.request) {
        var r := rows[j].event.request;
        assert Happens(rows, j, IsRequest(), r);
        KnownIs(plan, core, rows, k, r);
        StatesAre(plan, core, rows, k, r);
        var item := items[r - 1];
        var i: nat :| i < k && Happens(rows, i, IsRequest(), r) && AsksFor(rows, i, item.lane);
        RequestOnce(plan, core, rows, k, i, j);
        assert !L.Holds(items, lane, r);
      }
    }
  }

  lemma {:induction false} RequestMet(plan: Plan, core: Core, rows: seq<Row>, k: nat)
    requires Standing(plan, core, rows, k) && rows[k].event.Request? && rows[k].sequence == k + 1
    ensures EventMet(plan, core, rows, k) <==> EventSound(plan, core, rows, k)
  {
    var lane := rows[k].event.lane;
    KnownIs(plan, core, rows, k, rows[k].event.request);
    LaneIs(plan, core, rows, k, lane);
    OrdinalIs(plan, core, rows, k, lane);
    NotFinalized(plan, core, rows, k);
    L.SampleCapNeverRefuses(plan, core, rows[..k], |rows|);
    L.QueueBoundNeverRefuses(plan, core, rows[..k], rows[k], |rows|);
  }

  lemma {:induction false} WaitMet(plan: Plan, core: Core, rows: seq<Row>, k: nat)
    requires Standing(plan, core, rows, k) && rows[k].event.WaitBegin?
    ensures EventMet(plan, core, rows, k) <==> EventSound(plan, core, rows, k)
  {
    var r := rows[k].event.request;
    KnownIs(plan, core, rows, k, r);
    StatesAre(plan, core, rows, k, r);
    StepsAre(plan, core, rows, k, r);
    SeenEither(rows, k, r);
  }

  lemma {:induction false} GapIs(plan: Plan, core: Core, rows: seq<Row>, k: nat, at: int)
    requires k < |rows| && SoundBelow(plan, core, rows, k)
    ensures var starts := Starts(rows[..k]);
            (|starts| == 0 || at - starts[|starts| - 1] >= plan.Gap()) <==> GapPassed(plan, rows, k, at)
  {
    var starts := Starts(rows[..k]);
    StartsAre(rows, k);
    if |starts| > 0 {
      var j: nat :| IsLastStart(rows, k, j) && starts[|starts| - 1] == ReadingAt(rows, j);
      assert RowSound(plan, core, rows, j);
      forall i: nat | i < k && At(rows, i, IsDispatch()) ensures ReadingAt(rows, i) <= ReadingAt(rows, j) {
        assert i <= j;
      }
    }
  }

  /** The terminal check of a series never decides. */
  lemma {:induction false} TerminalIs(plan: Plan, core: Core, rows: seq<Row>, k: nat)
    requires Standing(plan, core, rows, k) && rows[k].sequence == k + 1 && ClockSound(rows, k)
    ensures AdmitEvent(plan, core, rows[..k], rows[k].event, k + 1 == |rows|) != Refused(SeriesTerminalOrder)
  {
    NotFinalized(plan, core, rows, k);
    ClockIs(plan, core, rows, k);
    L.SeriesTerminalOrderNeverRefuses(plan, core, rows[..k], rows[k], |rows|);
  }

  lemma {:induction false} DispatchMet(plan: Plan, core: Core, rows: seq<Row>, k: nat)
    requires Standing(plan, core, rows, k) && rows[k].sequence == k + 1 && ClockSound(rows, k)
    requires rows[k].event.Dispatch?
    ensures EventMet(plan, core, rows, k) <==> EventSound(plan, core, rows, k)
  {
    var r := rows[k].event.request;
    KnownIs(plan, core, rows, k, r);
    StatesAre(plan, core, rows, k, r);
    StepsAre(plan, core, rows, k, r);
    TerminalIs(plan, core, rows, k);
    GapIs(plan, core, rows, k, rows[k].event.at);
    if Seen(rows, k, IsRequest(), r) {
      OldestIs(plan, core, rows, k, r);
    }
  }

  lemma {:induction false} ReturnMet(plan: Plan, core: Core, rows: seq<Row>, k: nat)
    requires Standing(plan, core, rows, k) && rows[k].sequence == k + 1 && ClockSound(rows, k)
    requires rows[k].event.SourceTerminal?
    ensures EventMet(plan, core, rows, k) <==> EventSound(plan, core, rows, k)
  {
    var r, at := rows[k].event.request, rows[k].event.at;
    KnownIs(plan, core, rows, k, r);
    StatesAre(plan, core, rows, k, r);
    StepsAre(plan, core, rows, k, r);
    TerminalIs(plan, core, rows, k);
    if Seen(rows, k, IsDispatch(), r) {
      var item := Items(core, rows[..k])[r - 1];
      var j: nat :| j < k && Happens(rows, j, IsDispatch(), r) && ReadingAt(rows, j) == item.sourceAt;
      assert RowSound(plan, core, rows, j) && ReadingAt(rows, k) == at;
    }
  }

  lemma {:induction false} WithdrawMet(plan: Plan, core: Core, rows: seq<Row>, k: nat)
    requires Standing(plan, core, rows, k) && rows[k].sequence == k + 1 && ClockSound(rows, k)
    requires rows[k].event.Withdraw?
    ensures EventMet(plan, core, rows, k) <==> EventSound(plan, core, rows, k)
  {
    var r := rows[k].event.request;
    KnownIs(plan, core, rows, k, r);
    StatesAre(plan, core, rows, k, r);
    TerminalIs(plan, core, rows, k);
    if Seen(rows, k, IsRequest(), r) {
      OldestIs(plan, core, rows, k, r);
    }
  }

  /** After a sound beginning, a row is admitted exactly when it is sound. */
  lemma {:induction false} AdmitIs(plan: Plan, core: Core, rows: seq<Row>, k: nat)
    requires Standing(plan, core, rows, k)
    ensures Admit(plan, core, rows[..k], rows[k], |rows|).Met? <==> RowSound(plan, core, rows, k)
  {
    NotFinalized(plan, core, rows, k);
    ClockIs(plan, core, rows, k);
    if rows[k].sequence == k + 1 && ClockSound(rows, k) {
      match rows[k].event {
        case Request(_, _, _) => RequestMet(plan, core, rows, k);
        case WaitBegin(_, _) => WaitMet(plan, core, rows, k);
        case Dispatch(_, _) => DispatchMet(plan, core, rows, k);
        case SourceTerminal(_, _, _) => ReturnMet(plan, core, rows, k);
        case Withdraw(_, _, _) => WithdrawMet(plan, core, rows, k);
        case Finalize =>
      }
      assert EventMet(plan, core, rows, k) <==> EventSound(plan, core, rows, k);
    }
  }

  lemma {:induction false} AdmitAllIs(plan: Plan, core: Core, rows: seq<Row>, n: nat)
    requires n <= |rows| && AdmitPlan(plan).Met?
    ensures L.Admitted(plan, core, rows[..n], |rows|) <==> SoundBelow(plan, core, rows, n)
  {
    if n > 0 {
      var k: nat := n - 1;
      assert k + 1 == n;
      PrefixNext(rows, k);
      AdmitAllIs(plan, core, rows, k);
      SoundNext(plan, core, rows, k);
      if SoundBelow(plan, core, rows, k) {
        AdmitIs(plan, core, rows, k);
      }
    }
  }

  // ---- the report ------------------------------------------------------------------------------

  ghost predicate Whole(plan: Plan, core: Core, rows: seq<Row>) {
    AdmitPlan(plan).Met? && SoundBelow(plan, core, rows, |rows|) && L.Admitted(plan, core, rows, |rows|)
  }

  lemma {:induction false} WholeKnown(plan: Plan, core: Core, rows: seq<Row>, r: int)
    requires Whole(plan, core, rows)
    ensures var items := Items(core, rows);
            && |items| == Number(|rows|, Are(rows, IsRequest()))
            && (Seen(rows, |rows|, IsRequest(), r) <==> 1 <= r <= |items|)
            && (1 <= r <= |items| ==> (L.Busy(items[r - 1].state) <==> !Seen(rows, |rows|, IsClose(), r)))
  {
    var n := |rows|;
    assert rows[..n] == rows;
    ItemsAre(plan, core, rows, n);
    RequestsAre(plan, core, rows, n, r);
    StatesAre(plan, core, rows, n, r);
    if 1 <= r <= |Items(core, rows)| {
      assert ItemIs(core, rows, n, r, Items(core, rows)[r - 1]);
    }
  }

  lemma {:induction false} EmptyIs(fifo: seq<int>)
    ensures fifo == [] <==> forall r :: r !in fifo
  {
    if fifo != [] {
      var r := fifo[0];
      assert r in fifo;
    }
  }

  /** Nothing is queued and no lane is held exactly when every request ended. */
  lemma {:induction false} EndedIs(plan: Plan, core: Core, rows: seq<Row>)
    requires Whole(plan, core, rows)
    ensures Fifo(rows) == [] && Occupied(core, rows) == map[] <==> AllEnded(rows)
  {
    var items, fifo, occupied := Items(core, rows), Fifo(rows), Occupied(core, rows);
    L.DispatcherInvariant(plan, core, rows, |rows|);
    EmptyIs(fifo);
    forall r | r in fifo ensures Pending(rows, r) {
      WholeKnown(plan, core, rows, r);
    }
    forall lane | lane in occupied ensures Pending(rows, occupied[lane]) {
      WholeKnown(plan, core, rows, occupied[lane]);
      assert L.Holds(items, lane, occupied[lane]);
    }
    forall r | Pending(rows, r) ensures occupied != map[] {
      WholeKnown(plan, core, rows, r);
      assert L.Holds(items, items[r - 1].lane, r);
    }
  }

  /** The counters of the report. */
  lemma {:induction false} CountersAre(plan: Plan, core: Core, rows: seq<Row>)
    requires Whole(plan, core, rows)
    ensures |Items(core, rows)| == Number(|rows|, Are(rows, IsRequest()))
    ensures Count(rows, IsDispatch()) == Number(|rows|, Are(rows, IsDispatch()))
    ensures Count(rows, IsWithdraw()) == Number(|rows|, Are(rows, IsWithdraw()))
    ensures Count(rows, IsFinalize()) == Number(|rows|, Are(rows, IsFinalize()))
    ensures PeakQueue(rows) == Highest(0, |rows|, QueueLevel(rows))
  {
    var n := |rows|;
    assert rows[..n] == rows;
    WholeKnown(plan, core, rows, 0);
    CountIs(rows, n, IsDispatch());
    CountIs(rows, n, IsWithdraw());
    CountIs(rows, n, IsFinalize());
    PeakIs(plan, core, rows, n);
  }

  /** FINALIZE occurs exactly when it is the last row. */
  lemma {:induction false} FinalizedIs(plan: Plan, core: Core, rows: seq<Row>)
    requires SoundBelow(plan, core, rows, |rows|)
    ensures Number(|rows|, Are(rows, IsFinalize())) > 0 <==> |rows| > 0 && rows[|rows| - 1].event.Finalize?
  {
    var n := |rows|;
    NumberZero(n, Are(rows, IsFinalize()));
    if Number(n, Are(rows, IsFinalize())) > 0 {
      var k: nat :| k < n && Are(rows, IsFinalize())(k);
      assert RowSound(plan, core, rows, k);
    } else if n > 0 {
      var last: nat := n - 1;
      assert !Are(rows, IsFinalize())(last);
    }
  }

  ghost predicate CountersMatch(core: Core, rows: seq<Row>, report: Report) {
    && Number(|rows|, Are(rows, IsRequest())) == |core.begins| == report.requestedMeasuredCalls
    && Number(|rows|, Are(rows, IsDispatch())) == report.sourceExecuteEntries
    && Number(|rows|, Are(rows, IsWithdraw())) == report.preEntryWithheld
    && Highest(0, |rows|, QueueLevel(rows)) == report.peakQueuedCalls
  }

  lemma {:induction false} EndIs(plan: Plan, core: Core, rows: seq<Row>, report: Report)
    requires Whole(plan, core, rows)
    ensures AdmitEnd(core, rows, report).Met? <==>
              |rows| > 0 && rows[|rows| - 1].event.Finalize? && AllEnded(rows) && CountersMatch(core, rows, report)
  {
    EndedIs(plan, core, rows);
    CountersAre(plan, core, rows);
    FinalizedIs(plan, core, rows);
    if AllEnded(rows) {
      L.RequestsConserved(plan, core, rows, |rows|);
    }
  }

  lemma {:induction false} CallsMadeIs(plan: Plan, core: Core, rows: seq<Row>)
    requires SoundBelow(plan, core, rows, |rows|)
    ensures PlannedCallsDone(plan, rows) <==> AllCallsMade(plan, rows)
  {
    assert rows[..|rows|] == rows;
    forall lane ensures NextOrdinal(rows, lane) == Number(|rows|, RequestsOf(rows, lane)) {
      OrdinalIs(plan, core, rows, |rows|, lane);
    }
  }

  /** The rest of the report. */
  ghost predicate RecordersMatch(plan: Plan, rows: seq<Row>, report: Report) {
    && (report.plannedCallsCompleted <==> AllCallsMade(plan, rows))
    && report.queueWait == RecordedSeries(rows, Wait) && report.dispatched == RecordedSeries(rows, Source)
  }

  lemma {:induction false} RecordersAre(plan: Plan, core: Core, rows: seq<Row>, report: Report)
    requires SoundBelow(plan, core, rows, |rows|)
    ensures RecordersMatch(plan, rows, report) <==>
              report.plannedCallsCompleted == PlannedCallsDone(plan, rows)
              && report.queueWait == ReportOf(core, Wait, rows) && report.dispatched == ReportOf(core, Source, rows)
  {
    CallsMadeIs(plan, core, rows);
    SeriesRecorded(plan, core, rows, Wait);
    SeriesRecorded(plan, core, rows, Source);
  }

  lemma {:induction false} RecordedIs(plan: Plan, core: Core, rows: seq<Row>, report: Report)
    requires Number(|rows|, Are(rows, IsRequest())) == |core.begins|
    ensures report == Recorded(plan, rows, report.pacingTimersStarted) <==>
              CountersMatch(core, rows, report) && RecordersMatch(plan, rows, report)
  {
  }

  // ---- the verdict -----------------------------------------------------------------------------

  ghost function CheckOf(rows: seq<Row>): Check {
    var n := |rows|;
    Check(n, Number(n, Are(rows, IsRequest())), Number(n, Are(rows, IsDispatch())), Number(n, Are(rows, IsWithdraw())))
  }

  ghost predicate InRange(plan: Plan, rows: seq<Row>) {
    1 <= |rows| <= 4 * plan.limits.maxSamplesPerPhase + 1
  }

  lemma {:induction false} VerdictSplits(plan: Plan, core: Core, rows: seq<Row>, report: Report, check: Check)
    ensures RowsVerdict(plan, core, rows, report) == Success(check) <==>
              && InRange(plan, rows) && L.Admitted(plan, core, rows, |rows|) && AdmitEnd(core, rows, report).Met?
              && report.plannedCallsCompleted == PlannedCallsDone(plan, rows)
              && report.queueWait == ReportOf(core, Wait, rows) && report.dispatched == ReportOf(core, Source, rows)
              && check == Check(|rows|, |Items(core, rows)|, Count(rows, IsDispatch()), Count(rows, IsWithdraw()))
  {
  }

  /** The row bound is implied. */
  lemma {:induction false} RangeImplied(plan: Plan, core: Core, rows: seq<Row>)
    requires Whole(plan, core, rows) && WellFormed(plan, core, rows)
    ensures InRange(plan, rows)
  {
    EndedIs(plan, core, rows);
    CountersAre(plan, core, rows);
    FinalizedIs(plan, core, rows);
    L.RowCeiling(plan, core, rows);
  }

  /** For an admitted plan, the rows are accepted exactly when the log is well formed and the report is the one its
      positions determine. */
  lemma {:induction false} RowsExactly(plan: Plan, core: Core, rows: seq<Row>, report: Report, check: Check)
    requires AdmitPlan(plan).Met?
    ensures RowsVerdict(plan, core, rows, report) == Success(check) <==>
              && WellFormed(plan, core, rows) && report == Recorded(plan, rows, report.pacingTimersStarted)
              && check == CheckOf(rows)
  {
    assert rows[..|rows|] == rows;
    AdmitAllIs(plan, core, rows, |rows|);
    VerdictSplits(plan, core, rows, report, check);
    if SoundBelow(plan, core, rows, |rows|) {
      EndIs(plan, core, rows, report);
      RecordersAre(plan, core, rows, report);
      CountersAre(plan, core, rows);
      if Number(|rows|, Are(rows, IsRequest())) == |core.begins| {
        RecordedIs(plan, core, rows, report);
      }
      if WellFormed(plan, core, rows) {
        RangeImplied(plan, core, rows);
      }
    }
  }

  ghost predicate PlanSound(plan: Plan) {
    var samples, inFlight := plan.limits.maxSamplesPerPhase, plan.limits.maxInFlightPerPhase;
    && 1 <= plan.lanes <= 16 && 0 <= plan.warmupCallsPerLane <= 256 && 1 <= plan.measurementCallsPerLane <= 256
    && 1 <= plan.setupBudgetMs <= 60000 && 1 <= plan.measurementWindowMs <= 60000 && 1 <= plan.drainGraceMs <= 1000
    && 1 <= plan.maxLedgerTransactionsPerOperation <= 16 && 1 <= plan.minimumStartGapMs <= 1000
    && plan.lanes <= inFlight <= 64 && inFlight <= samples <= 4096 && 3 * plan.lanes <= samples
    && (1 + plan.warmupCallsPerLane + plan.measurementCallsPerLane) * plan.lanes
       * plan.maxLedgerTransactionsPerOperation <= samples
  }

  lemma {:induction false} PlanIs(plan: Plan)
    ensures AdmitPlan(plan).Met? <==> PlanSound(plan)
  {
  }

  lemma {:induction false} PeakWithin(plan: Plan, core: Core, rows: seq<Row>)
    requires Whole(plan, core, rows)
    ensures 0 <= PeakQueue(rows) <= plan.lanes
  {
    L.QueuePeakIsMaximum(rows);
    var k :| 0 <= k <= |rows| && |Fifo(rows[..k])| == PeakQueue(rows);
    L.PrefixAdmitted(plan, core, rows, k, |rows|);
    L.DispatcherInvariant(plan, core, rows[..k], |rows|);
    L.QueueWithinLanes(Items(core, rows[..k]), Fifo(rows[..k]), Occupied(core, rows[..k]), plan.lanes);
  }

  lemma {:induction false} NumbersInRange(plan: Plan, core: Core, rows: seq<Row>)
    requires Whole(plan, core, rows) && AllEnded(rows)
    ensures var n := |rows|;
            Number(n, Are(rows, IsDispatch())) + Number(n, Are(rows, IsWithdraw())) == Number(n, Are(rows, IsRequest()))
              <= plan.limits.maxSamplesPerPhase
    ensures 0 <= Highest(0, |rows|, QueueLevel(rows)) <= plan.lanes
  {
    CountersAre(plan, core, rows);
    EndedIs(plan, core, rows);
    L.RequestsConserved(plan, core, rows, |rows|);
    L.SampleCapNeverRefuses(plan, core, rows, |rows|);
    PeakWithin(plan, core, rows);
  }

  /** The ranges of the report are implied, except that of the timers. */
  lemma {:induction false} ReportInRange(plan: Plan, core: Core, rows: seq<Row>, report: Report)
    requires Whole(plan, core, rows) && AllEnded(rows) && CountersMatch(core, rows, report)
    ensures AdmitReport(plan, report).Met? <==> 0 <= report.pacingTimersStarted <= report.requestedMeasuredCalls
  {
    NumbersInRange(plan, core, rows);
  }

  lemma {:induction false} WholeIs(plan: Plan, core: Core, rows: seq<Row>)
    requires AdmitPlan(plan).Met? && SoundBelow(plan, core, rows, |rows|)
    ensures Whole(plan, core, rows)
  {
    assert rows[..|rows|] == rows;
    AdmitAllIs(plan, core, rows, |rows|);
  }

  /** A paced log is accepted exactly when its plan is sound, its parent log is accepted, the log is well formed for the
      calls of the parent, and the report is the one its positions determine. */
  lemma {:induction false} AcceptedExactly(plan: Plan, parent: P.Trace, recording: P.Recording, rows: seq<Row>,
                                           report: Report, check: Check)
    ensures Verdict(plan, parent, recording, rows, report) == Success(check) <==>
              && PlanSound(plan) && P.Verdict(parent, recording, plan.limits).Success?
              && WellFormed(plan, CoreOf(parent.rows), rows)
              && report == Recorded(plan, rows, report.pacingTimersStarted)
              && 0 <= report.pacingTimersStarted <= report.requestedMeasuredCalls && check == CheckOf(rows)
  {
    var core := CoreOf(parent.rows);
    PlanIs(plan);
    if PlanSound(plan) {
      RowsExactly(plan, core, rows, report, check);
      if WellFormed(plan, core, rows) && report == Recorded(plan, rows, report.pacingTimersStarted) {
        WholeIs(plan, core, rows);
        RecordedIs(plan, core, rows, report);
        ReportInRange(plan, core, rows, report);
      }
    }
  }
}
