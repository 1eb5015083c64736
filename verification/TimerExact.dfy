/** A timer log is accepted exactly when it is well formed: what the checker admits row by row is what the positions
    of both logs say. */
module TimerExact {
  import opened Wrappers
  import opened Positions
  import opened TimerTrace
  import opened TimerPositions
  import opened TimerPlaces
  import opened TimerStates
  import P = ParentTrace
  import Q = PacedTrace
  import PL = PacedLaws
  import PP = PacedPositions
  import PE = PacedExact
  import TI = TimerIdle
  import TL = TimerLaws

  // ---- the rows that are admitted --------------------------------------------------------------

  ghost predicate Ready(plan: Q.Plan, rows: seq<Row>, paced: seq<Q.Row>, n: nat) {
    n <= |rows| && 0 <= From(rows, n) && StateAt(plan, rows, paced, n, From(rows, n)) && !Finalized(rows[..n])
  }

  /** The rows below n are admitted exactly when each is sound in its place. */
  ghost predicate Told(plan: Q.Plan, rows: seq<Row>, paced: seq<Q.Row>, n: nat) {
    && n <= |rows|
    && (AdmitAll(plan, rows[..n], paced, |rows|).Met? <==> SoundBelow(plan, rows, paced, n))
    && (SoundBelow(plan, rows, paced, n) && n < |rows| ==> Ready(plan, rows, paced, n))
  }

  lemma {:induction false} ToldStart(plan: Q.Plan, rows: seq<Row>, paced: seq<Q.Row>)
    ensures Told(plan, rows, paced, 0)
  {
    NothingRead(rows, paced, 0);
  }

  lemma {:induction false} RowSplits(plan: Q.Plan, rows: seq<Row>, paced: seq<Q.Row>, n: nat)
    requires n < |rows| && 0 <= From(rows, n)
    ensures var c := rows[n].pacedSequence;
            AdmitRow(plan, rows[..n + 1], paced, |rows|).Met? <==>
              && !Finalized(rows[..n]) && rows[n].sequence == n + 1 && From(rows, n) <= c <= |paced|
              && AdmitAdvance(plan, Merge(rows[..n], paced), Slice(paced, From(rows, n), c)).Met?
              && AdmitTimer(plan, StepsTo(rows, paced, n, c), rows[n].event, n + 1 == |rows| && c == |paced|).Met?
  {
    PrefixNext(rows, n);
    CursorIs(rows, n);
  }

  lemma {:induction false} RowIs(plan: Q.Plan, core: Q.Core, rows: seq<Row>, paced: seq<Q.Row>, n: nat)
    requires Accepted(plan, core, paced) && n < |rows|
    requires Ready(plan, rows, paced, n)
    ensures AdmitRow(plan, rows[..n + 1], paced, |rows|).Met? <==> RowSound(plan, rows, paced, n)
  {
    var c := rows[n].pacedSequence;
    RowSplits(plan, rows, paced, n);
    if From(rows, n) <= c <= |paced| {
      AdvanceIs(plan, core, rows, paced, n, c);
      if ReadsSound(rows, paced, n, c) {
        EventIs(plan, core, rows, paced, n, c);
      }
    }
  }

  lemma {:induction false} StillOpen(rows: seq<Row>, n: nat)
    requires n < |rows| && !Finalized(rows[..n]) && !rows[n].event.Finalize?
    ensures !Finalized(rows[..n + 1])
  {
    PrefixNext(rows, n);
    TL.FinalizedByLast(rows[..n + 1]);
  }

  lemma {:induction false} RowLeaves(plan: Q.Plan, core: Q.Core, rows: seq<Row>, paced: seq<Q.Row>, n: nat)
    requires Accepted(plan, core, paced) && n + 1 < |rows|
    requires Ready(plan, rows, paced, n) && RowSound(plan, rows, paced, n)
    ensures Ready(plan, rows, paced, n + 1)
  {
    AdvanceIs(plan, core, rows, paced, n, rows[n].pacedSequence);
    RowOn(plan, core, rows, paced, n, rows[n].pacedSequence);
    StillOpen(rows, n);
  }

  lemma {:induction false} SoundNext(plan: Q.Plan, rows: seq<Row>, paced: seq<Q.Row>, n: nat)
    requires n < |rows|
    ensures SoundBelow(plan, rows, paced, n + 1) <==>
              SoundBelow(plan, rows, paced, n) && RowSound(plan, rows, paced, n)
  {
  }

  lemma {:induction false} ToldNext(plan: Q.Plan, core: Q.Core, rows: seq<Row>, paced: seq<Q.Row>, n: nat)
    requires Accepted(plan, core, paced) && n < |rows| && Told(plan, rows, paced, n)
    ensures Told(plan, rows, paced, n + 1)
  {
    PrefixNext(rows, n);
    SoundNext(plan, rows, paced, n);
    if SoundBelow(plan, rows, paced, n) {
      RowIs(plan, core, rows, paced, n);
      if RowSound(plan, rows, paced, n) && n + 1 < |rows| {
        RowLeaves(plan, core, rows, paced, n);
      }
    }
  }

  lemma {:induction false} AdmitAllIs(plan: Q.Plan, core: Q.Core, rows: seq<Row>, paced: seq<Q.Row>, n: nat)
    requires Accepted(plan, core, paced) && n <= |rows|
    ensures Told(plan, rows, paced, n)
  {
    ToldStart(plan, rows, paced);
    var k: nat := 0;
    while k < n
      invariant k <= n && Told(plan, rows, paced, k)
    {
      ToldNext(plan, core, rows, paced, k);
      k := k + 1;
    }
  }

  // ---- the rows in place ------------------------------------------------------------------------

  lemma {:induction false} NoneQueuedAtEnd(plan: Q.Plan, core: Q.Core, paced: seq<Q.Row>)
    requires Accepted(plan, core, paced)
    ensures !SomeQueued(paced, |paced|) && Q.Fifo(paced) == []
  {
    PE.WholeIs(plan, core, paced);
    PE.EndedIs(plan, core, paced);
    QueueIs(plan, core, paced, |paced|);
    assert paced[..|paced|] == paced;
  }

  lemma {:induction false} PacedInOrder(plan: Q.Plan, core: Q.Core, paced: seq<Q.Row>, j: nat)
    requires Accepted(plan, core, paced) && TimedAt(paced, j)
    ensures PacedBefore(paced, j, PP.ReadingAt(paced, j))
  {
    assert PP.RowSound(plan, core, paced, j);
  }

  ghost predicate AllSound(plan: Q.Plan, rows: seq<Row>, paced: seq<Q.Row>, timers: nat) {
    && |rows| == 3 * timers + 1 && timers <= plan.limits.maxSamplesPerPhase && rows[3 * timers].event.Finalize?
    && SoundBelow(plan, rows, paced, |rows|)
  }

  lemma {:induction false} AnchorsRise(plan: Q.Plan, rows: seq<Row>, paced: seq<Q.Row>, h: nat, i: nat)
    requires SoundBelow(plan, rows, paced, |rows|) && h <= i < |rows|
    ensures rows[h].pacedSequence <= rows[i].pacedSequence
    decreases i
  {
    if h < i {
      assert RowSound(plan, rows, paced, i);
      AnchorsRise(plan, rows, paced, h, i - 1);
    }
  }

  /** The timer row that paced row j is read for. */
  lemma {:induction false} ReadFor(plan: Q.Plan, rows: seq<Row>, paced: seq<Q.Row>, i: nat, j: nat) returns (k: nat)
    requires i < |rows| && SoundBelow(plan, rows, paced, |rows|) && rows[|rows| - 1].pacedSequence == |paced|
    requires rows[i].pacedSequence <= j < |paced|
    ensures i < k < |rows| && From(rows, k) <= j < rows[k].pacedSequence
  {
    k := i + 1;
    while rows[k].pacedSequence <= j
      invariant i < k < |rows| && From(rows, k) <= j
      decreases |rows| - k
    {
      k := k + 1;
    }
  }

  lemma {:induction false} ReadsInOrder(plan: Q.Plan, rows: seq<Row>, paced: seq<Q.Row>, timers: nat, i: nat, j: nat)
    requires AllSound(plan, rows, paced, timers) && Reads(rows, i) && TimedAt(paced, j)
    ensures if j < rows[i].pacedSequence then PP.ReadingAt(paced, j) <= ReadingOf(rows, i)
            else ReadingOf(rows, i) <= PP.ReadingAt(paced, j)
  {
    assert RowSound(plan, rows, paced, i) && RowSound(plan, rows, paced, 3 * timers);
    if j >= rows[i].pacedSequence {
      var k := ReadFor(plan, rows, paced, i, j);
      assert RowSound(plan, rows, paced, k);
      assert ReadSound(rows, paced, k, j);
    }
  }

  lemma {:induction false} SoundInOrder(plan: Q.Plan, rows: seq<Row>, paced: seq<Q.Row>, timers: nat)
    requires AllSound(plan, rows, paced, timers)
    ensures Anchored(rows, paced) && InOrder(rows, paced) && rows[3 * timers].pacedSequence == |paced|
  {
    assert RowSound(plan, rows, paced, 3 * timers);
    forall i: nat | i < |rows| ensures rows[i].sequence == i + 1 && 0 <= rows[i].pacedSequence <= |paced| {
      assert RowSound(plan, rows, paced, i);
    }
    forall h: nat, i: nat | h < i < |rows| ensures rows[h].pacedSequence <= rows[i].pacedSequence {
      AnchorsRise(plan, rows, paced, h, i);
    }
    forall h: nat, i: nat | h < i && Reads(rows, h) && Reads(rows, i) ensures ReadingOf(rows, h) <= ReadingOf(rows, i) {
      assert RowSound(plan, rows, paced, i);
    }
    forall i: nat, j: nat | Reads(rows, i) && TimedAt(paced, j)
      ensures if j < rows[i].pacedSequence then PP.ReadingAt(paced, j) <= ReadingOf(rows, i)
              else ReadingOf(rows, i) <= PP.ReadingAt(paced, j)
    {
      ReadsInOrder(plan, rows, paced, timers, i, j);
    }
  }

  /** The three rows of timer m. */
  lemma {:induction false} Kinds(plan: Q.Plan, rows: seq<Row>, paced: seq<Q.Row>, timers: nat, m: nat)
    requires AllSound(plan, rows, paced, timers) && m < timers
    ensures rows[3 * m].event.Arm? && rows[3 * m].event.timer == m + 1 && rows[3 * m + 1].event == Armed(m + 1)
    ensures match rows[3 * m + 2].event
            case Fire(timer, at) => timer == m + 1 && rows[3 * m].event.due <= at
            case Cancel(timer, returned) => timer == m + 1 && returned
            case _ => false
  {
    assert RowSound(plan, rows, paced, 3 * m);
    assert RowSound(plan, rows, paced, 3 * m + 1);
    assert RowSound(plan, rows, paced, 3 * m + 2);
  }

  lemma {:induction false} NoStart(plan: Q.Plan, rows: seq<Row>, paced: seq<Q.Row>, timers: nat, m: nat, j: nat)
    requires AllSound(plan, rows, paced, timers) && m < timers
    requires 0 <= rows[3 * m].pacedSequence <= j < rows[3 * m + 2].pacedSequence
    ensures !Dispatches(paced, j)
  {
    assert RowSound(plan, rows, paced, 3 * m + 1);
    assert RowSound(plan, rows, paced, 3 * m + 2);
    if j < rows[3 * m + 1].pacedSequence {
      assert ReadSound(rows, paced, 3 * m + 1, j);
    } else {
      assert ReadSound(rows, paced, 3 * m + 2, j);
    }
  }

  lemma {:induction false} FireIsAnswered(plan: Q.Plan, core: Q.Core, rows: seq<Row>, paced: seq<Q.Row>, timers: nat,
                                          m: nat)
    requires Accepted(plan, core, paced) && AllSound(plan, rows, paced, timers) && m < timers
    requires Pending(rows, paced, 3 * m + 3)
    ensures var end, next := rows[3 * m + 2], rows[3 * m + 3];
            && end.event.Fire? && 0 <= end.pacedSequence < next.pacedSequence && Dispatches(paced, end.pacedSequence)
            && PP.ReadingAt(paced, end.pacedSequence) == end.event.at
  {
    NoneQueuedAtEnd(plan, core, paced);
    assert RowSound(plan, rows, paced, 3 * m + 3);
    if m + 1 < timers {
      Kinds(plan, rows, paced, timers, m + 1);
    }
    assert ReadSound(rows, paced, 3 * m + 3, rows[3 * m + 2].pacedSequence);
  }

  lemma {:induction false} TimerTold(plan: Q.Plan, core: Q.Core, rows: seq<Row>, paced: seq<Q.Row>, timers: nat, m: nat)
    requires Accepted(plan, core, paced) && AllSound(plan, rows, paced, timers) && m < timers
    ensures TimerSound(plan, rows, paced, m)
  {
    Kinds(plan, rows, paced, timers, m);
    assert RowSound(plan, rows, paced, 3 * m) && RowSound(plan, rows, paced, 3 * m + 1);
    assert RowSound(plan, rows, paced, 3 * m + 2);
    forall j: nat | rows[3 * m].pacedSequence <= j < rows[3 * m + 2].pacedSequence ensures !Dispatches(paced, j) {
      NoStart(plan, rows, paced, timers, m, j);
    }
    if Pending(rows, paced, 3 * m + 3) {
      FireIsAnswered(plan, core, rows, paced, timers, m);
    }
  }

  // ---- a well-formed log ------------------------------------------------------------------------

  lemma {:induction false} ReadOnClock(plan: Q.Plan, core: Q.Core, rows: seq<Row>, paced: seq<Q.Row>, i: nat, j: nat)
    requires Accepted(plan, core, paced) && Anchored(rows, paced) && InOrder(rows, paced)
    requires i < |rows| && From(rows, i) <= j && TimedAt(paced, j)
    ensures PacedBefore(paced, j, PP.ReadingAt(paced, j)) && TimersBefore(rows, i, PP.ReadingAt(paced, j))
  {
    PacedInOrder(plan, core, paced, j);
    forall h: nat | h < i && Reads(rows, h) ensures ReadingOf(rows, h) <= PP.ReadingAt(paced, j) {
      assert h == i - 1 || rows[h].pacedSequence <= rows[i - 1].pacedSequence;
    }
  }

  lemma {:induction false} ReadWhileLive(plan: Q.Plan, rows: seq<Row>, paced: seq<Q.Row>, timers: nat, m: nat, i: nat,
                                         j: nat)
    requires WellFormed(plan, rows, paced, timers) && m < timers && 3 * m < i < 3 * m + 3
    requires From(rows, i) <= j < rows[i].pacedSequence
    ensures !Dispatches(paced, j) && !Pending(rows, paced, i)
  {
    assert TimerSound(plan, rows, paced, m);
  }

  lemma {:induction false} ReadAnswers(plan: Q.Plan, rows: seq<Row>, paced: seq<Q.Row>, timers: nat, m: nat)
    requires WellFormed(plan, rows, paced, timers) && m < timers && Pending(rows, paced, 3 * m + 3)
    ensures From(rows, 3 * m + 3) >= 0 && Answer(rows, paced, 3 * m + 3, From(rows, 3 * m + 3))
    ensures From(rows, 3 * m + 3) < rows[3 * m + 3].pacedSequence
  {
    assert TimerSound(plan, rows, paced, m);
  }

  lemma {:induction false} ReadInPlace(plan: Q.Plan, core: Q.Core, rows: seq<Row>, paced: seq<Q.Row>, timers: nat,
                                       i: nat, j: nat)
    requires Accepted(plan, core, paced) && WellFormed(plan, rows, paced, timers)
    requires i < |rows| && 0 <= From(rows, i) <= j < rows[i].pacedSequence
    ensures ReadSound(rows, paced, i, j)
  {
    var m := i / 3;
    if TimedAt(paced, j) {
      ReadOnClock(plan, core, rows, paced, i, j);
    }
    if i % 3 != 0 {
      ReadWhileLive(plan, rows, paced, timers, m, i, j);
    } else if Pending(rows, paced, i) {
      ReadAnswers(plan, rows, paced, timers, m - 1);
    }
  }

  lemma {:induction false} ClockInPlace(rows: seq<Row>, paced: seq<Q.Row>, i: nat)
    requires Anchored(rows, paced) && InOrder(rows, paced) && Reads(rows, i)
    ensures OnClock(rows, paced, i, rows[i].pacedSequence, ReadingOf(rows, i))
  {
  }

  lemma {:induction false} NonePending(plan: Q.Plan, rows: seq<Row>, paced: seq<Q.Row>, timers: nat, m: nat)
    requires WellFormed(plan, rows, paced, timers) && m < timers
    ensures !(Pending(rows, paced, 3 * m) && rows[3 * m].pacedSequence == From(rows, 3 * m))
  {
    if Pending(rows, paced, 3 * m) {
      var k: nat := m - 1;
      assert 3 * k + 3 == 3 * m;
      ReadAnswers(plan, rows, paced, timers, k);
    }
  }

  lemma {:induction false} ArmInPlace(plan: Q.Plan, rows: seq<Row>, paced: seq<Q.Row>, timers: nat, m: nat)
    requires WellFormed(plan, rows, paced, timers) && m < timers <= plan.limits.maxSamplesPerPhase
    ensures EventSound(plan, rows, paced, 3 * m, rows[3 * m].pacedSequence)
  {
    assert TimerSound(plan, rows, paced, m);
    ClockInPlace(rows, paced, 3 * m);
    NonePending(plan, rows, paced, timers, m);
  }

  lemma {:induction false} RestInPlace(plan: Q.Plan, rows: seq<Row>, paced: seq<Q.Row>, timers: nat, m: nat)
    requires WellFormed(plan, rows, paced, timers) && m < timers
    ensures EventSound(plan, rows, paced, 3 * m + 1, rows[3 * m + 1].pacedSequence)
    ensures EventSound(plan, rows, paced, 3 * m + 2, rows[3 * m + 2].pacedSequence)
  {
    assert TimerSound(plan, rows, paced, m);
    if Reads(rows, 3 * m + 2) {
      ClockInPlace(rows, paced, 3 * m + 2);
    }
  }

  lemma {:induction false} EventInPlace(plan: Q.Plan, rows: seq<Row>, paced: seq<Q.Row>, timers: nat, i: nat)
    requires WellFormed(plan, rows, paced, timers) && i < |rows| && timers <= plan.limits.maxSamplesPerPhase
    ensures EventSound(plan, rows, paced, i, rows[i].pacedSequence)
  {
    var m := i / 3;
    assert i == 3 * m || i == 3 * m + 1 || i == 3 * m + 2;
    if m < timers {
      ArmInPlace(plan, rows, paced, timers, m);
      RestInPlace(plan, rows, paced, timers, m);
    }
  }

  lemma {:induction false} WellFormedSound(plan: Q.Plan, core: Q.Core, rows: seq<Row>, paced: seq<Q.Row>, timers: nat)
    requires Accepted(plan, core, paced) && WellFormed(plan, rows, paced, timers)
    requires timers <= plan.limits.maxSamplesPerPhase
    ensures AllSound(plan, rows, paced, timers)
  {
    forall i: nat | i < |rows| ensures RowSound(plan, rows, paced, i) {
      EventInPlace(plan, rows, paced, timers, i);
      assert i > 0 ==> rows[i - 1].pacedSequence <= rows[i].pacedSequence;
      forall j: nat | From(rows, i) <= j < rows[i].pacedSequence ensures ReadSound(rows, paced, i, j) {
        ReadInPlace(plan, core, rows, paced, timers, i, j);
      }
    }
  }

  /** What the row-by-row demands say of whole logs. */
  lemma {:induction false} SoundIs(plan: Q.Plan, core: Q.Core, rows: seq<Row>, paced: seq<Q.Row>, timers: nat)
    requires Accepted(plan, core, paced) && timers <= plan.limits.maxSamplesPerPhase
    ensures AllSound(plan, rows, paced, timers) <==> WellFormed(plan, rows, paced, timers)
  {
    if WellFormed(plan, rows, paced, timers) {
      WellFormedSound(plan, core, rows, paced, timers);
    }
    if AllSound(plan, rows, paced, timers) {
      SoundInOrder(plan, rows, paced, timers);
      forall m: nat | m < timers ensures TimerSound(plan, rows, paced, m) {
        TimerTold(plan, core, rows, paced, timers, m);
      }
    }
  }

  // ---- the verdict ------------------------------------------------------------------------------

  ghost function Firing(rows: seq<Row>): nat -> bool {
    (k: nat) => k < |rows| && rows[k].event.Fire?
  }

  ghost function Cancelling(rows: seq<Row>): nat -> bool {
    (k: nat) => k < |rows| && rows[k].event.Cancel?
  }

  ghost function CheckOf(rows: seq<Row>, paced: seq<Q.Row>, timers: nat): Check {
    Check(|rows|, |paced|, timers, timers, Number(|rows|, Firing(rows)), Number(|rows|, Cancelling(rows)),
          One(timers > 0))
  }

  lemma {:induction false} CountIs(rows: seq<Row>, paced: seq<Q.Row>, n: nat, kind: Step -> bool, when: nat -> bool)
    requires n <= |rows| && forall row :: !kind(Paced(row))
    requires forall k: nat :: k < n ==> (when(k) <==> kind(Timer(rows[k].event)))
    ensures Count(Merge(rows[..n], paced), kind) == Number(n, when)
  {
    if n == 0 {
      NumberNone(when);
    } else {
      var k: nat := n - 1;
      assert k + 1 == n;
      CountIs(rows, paced, k, kind, when);
      PrefixNext(rows, k);
      TL.MergeCounts(rows[..n], paced, kind);
      NumberNext(k, when);
    }
  }

  lemma {:induction false} FinalState(plan: Q.Plan, core: Q.Core, rows: seq<Row>, paced: seq<Q.Row>, timers: nat)
    requires Accepted(plan, core, paced) && AllSound(plan, rows, paced, timers)
    ensures StateAt(plan, rows, paced, 3 * timers, |paced|) && rows[3 * timers].pacedSequence == |paced|
  {
    var n := 3 * timers;
    AdmitAllIs(plan, core, rows, paced, n);
    assert RowSound(plan, rows, paced, n);
    AdvanceIs(plan, core, rows, paced, n, |paced|);
  }

  lemma {:induction false} FinalQueue(plan: Q.Plan, core: Q.Core, rows: seq<Row>, paced: seq<Q.Row>, n: nat)
    requires Accepted(plan, core, paced) && StateAt(plan, rows, paced, n, |paced|)
    ensures Queued(StepsTo(rows, paced, n, |paced|)) == 0
  {
    NoneQueuedAtEnd(plan, core, paced);
    AcceptedAdmitted(plan, core, paced, |paced|);
    PartIs(rows, paced, n, |paced|);
    TL.QueuedIsLength(plan, core, StepsTo(rows, paced, n, |paced|), |paced|);
    assert paced[..|paced|] == paced;
  }

  /** What a merged log holds at its end. */
  ghost predicate Ended(steps: seq<Step>, timers: nat) {
    && Queued(steps) == 0 && Active(steps).None? && Expected(steps).None?
    && Count(steps, IsArm()) == Count(steps, IsArmed()) == timers
    && Count(steps, IsFire()) + Count(steps, IsCancel()) == timers
  }

  lemma {:induction false} HoldsEnded(plan: Q.Plan, rows: seq<Row>, paced: seq<Q.Row>, timers: nat, c: nat,
                                      steps: seq<Step>)
    requires 3 * timers <= |rows| && Holds(plan, rows, paced, 3 * timers, c, steps) && Queued(steps) == 0
    requires ExpectedAt(rows, paced, 3 * timers, c).None?
    ensures Ended(steps + [Timer(Finalize)], timers)
  {
    TI.FinalChangesNothing(steps);
  }

  lemma {:induction false} FinalFigures(plan: Q.Plan, core: Q.Core, rows: seq<Row>, paced: seq<Q.Row>, timers: nat)
    requires Accepted(plan, core, paced) && AllSound(plan, rows, paced, timers)
    ensures Cursor(rows) == |paced| && Ended(Merge(rows, paced), timers)
  {
    var n := 3 * timers;
    FinalState(plan, core, rows, paced, timers);
    FinalQueue(plan, core, rows, paced, n);
    NoneQueuedAtEnd(plan, core, paced);
    HoldsEnded(plan, rows, paced, timers, |paced|, StepsTo(rows, paced, n, |paced|));
    RowNext(rows, paced, n);
    assert rows[..n + 1] == rows;
  }

  lemma {:induction false} EndIs(plan: Q.Plan, core: Q.Core, rows: seq<Row>, paced: seq<Q.Row>, timers: nat)
    requires Accepted(plan, core, paced) && AllSound(plan, rows, paced, timers)
    ensures AdmitEnd(rows, paced, timers).Met?
  {
    FinalFigures(plan, core, rows, paced, timers);
    assert rows[3 * timers].event.Finalize?;
  }

  lemma {:induction false} LastIsFinal(plan: Q.Plan, rows: seq<Row>, paced: seq<Q.Row>)
    requires SoundBelow(plan, rows, paced, |rows|) && Finalized(rows)
    ensures |rows| > 0 && rows[|rows| - 1].event.Finalize?
  {
    var i :| 0 <= i < |rows| && rows[i].event.Finalize?;
    assert RowSound(plan, rows, paced, i);
  }

  lemma {:induction false} Refusals(plan: Q.Plan, core: Q.Core, rows: seq<Row>, paced: seq<Q.Row>, started: int)
    requires Accepted(plan, core, paced)
    requires AdmitAll(plan, rows, paced, |rows|).Met? && AdmitEnd(rows, paced, started).Met?
    ensures 0 <= started && AllSound(plan, rows, paced, started)
  {
    PE.PlanIs(plan);
    TL.RowCeiling(plan, rows, paced, started);
    assert rows[..|rows|] == rows;
    AdmitAllIs(plan, core, rows, paced, |rows|);
    LastIsFinal(plan, rows, paced);
  }

  lemma {:induction false} AdmittedExactly(plan: Q.Plan, core: Q.Core, rows: seq<Row>, paced: seq<Q.Row>, started: int)
    requires Accepted(plan, core, paced)
    ensures AdmitAll(plan, rows, paced, |rows|).Met? && AdmitEnd(rows, paced, started).Met? <==>
              0 <= started && AllSound(plan, rows, paced, started)
  {
    if AdmitAll(plan, rows, paced, |rows|).Met? && AdmitEnd(rows, paced, started).Met? {
      Refusals(plan, core, rows, paced, started);
    }
    if 0 <= started && AllSound(plan, rows, paced, started) {
      assert rows[..|rows|] == rows;
      AdmitAllIs(plan, core, rows, paced, |rows|);
      EndIs(plan, core, rows, paced, started);
    }
  }

  lemma {:induction false} VerdictSplits(plan: Q.Plan, rows: seq<Row>, paced: seq<Q.Row>, report: Q.Report,
                                         check: Check)
    ensures var steps := Merge(rows, paced);
            var armed := Count(steps, IsArmed());
            Verdict(plan, rows, paced, report) == Success(check) <==>
              && 1 <= |rows| <= 4 * plan.limits.maxSamplesPerPhase + 1
              && AdmitAll(plan, rows, paced, |rows|).Met?
              && AdmitEnd(rows, paced, report.pacingTimersStarted).Met?
              && check == Check(|rows|, Cursor(rows), Count(steps, IsArm()), armed, Count(steps, IsFire()),
                                Count(steps, IsCancel()), if armed == 0 then 0 else 1)
  {
  }

  /** Next to an accepted paced log, a timer log is accepted exactly when it is well formed for the number of timers
      that the report starts; no bound of the checker refuses more. */
  lemma {:induction false} RowsExactly(plan: Q.Plan, core: Q.Core, rows: seq<Row>, paced: seq<Q.Row>, report: Q.Report,
                                       check: Check)
    requires Accepted(plan, core, paced)
    ensures var timers := report.pacingTimersStarted;
            Verdict(plan, rows, paced, report) == Success(check) <==>
              && 0 <= timers <= plan.limits.maxSamplesPerPhase && WellFormed(plan, rows, paced, timers)
              && check == CheckOf(rows, paced, timers)
  {
    var timers := report.pacingTimersStarted;
    VerdictSplits(plan, rows, paced, report, check);
    AdmittedExactly(plan, core, rows, paced, timers);
    if 0 <= timers <= plan.limits.maxSamplesPerPhase {
      SoundIs(plan, core, rows, paced, timers);
      if AllSound(plan, rows, paced, timers) {
        FinalFigures(plan, core, rows, paced, timers);
        assert rows[..|rows|] == rows;
        CountIs(rows, paced, |rows|, IsFire(), Firing(rows));
        CountIs(rows, paced, |rows|, IsCancel(), Cancelling(rows));
      }
    }
  }

  /** The same for a timer log beside logs that the paced checker accepts. */
  lemma {:induction false} AcceptedExactly(plan: Q.Plan, parent: P.Trace, recording: P.Recording, paced: seq<Q.Row>,
                                           report: Q.Report, rows: seq<Row>, check: Check)
    requires Q.Verdict(plan, parent, recording, paced, report).Success?
    ensures var timers := report.pacingTimersStarted;
            Verdict(plan, rows, paced, report) == Success(check) <==>
              0 <= timers && WellFormed(plan, rows, paced, timers) && check == CheckOf(rows, paced, timers)
  {
    var core := Q.CoreOf(parent.rows);
    PE.AcceptedExactly(plan, parent, recording, paced, report,
                       Q.Verdict(plan, parent, recording, paced, report).value);
    PE.PlanIs(plan);
    PE.WholeIs(plan, core, paced);
    PE.NumbersInRange(plan, core, paced);
    RowsExactly(plan, core, rows, paced, report, check);
  }
}
