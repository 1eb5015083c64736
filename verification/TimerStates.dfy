/** What the merged reading of a sound timer log holds before each of its steps, and so which step is admitted next:
    told from the positions of both logs. */
module TimerStates {
  import opened Wrappers
  import opened TimerTrace
  import opened TimerPositions
  import opened TimerPlaces
  import Q = PacedTrace
  import PL = PacedLaws
  import PP = PacedPositions
  import TL = TimerLaws

  // ---- what each position demands ------------------------------------------------------------

  /** The row before was a fire with a queue. */
  ghost predicate Pending(rows: seq<Row>, paced: seq<Q.Row>, n: nat) {
    && 0 < n <= |rows| && rows[n - 1].event.Fire? && 0 <= rows[n - 1].pacedSequence
    && SomeQueued(paced, rows[n - 1].pacedSequence)
  }

  ghost predicate Answer(rows: seq<Row>, paced: seq<Q.Row>, n: nat, j: nat) {
    n > 0 && Dispatches(paced, j) && PP.ReadingAt(paced, j) == ReadingOf(rows, n - 1)
  }

  /** Paced row j may be read for timer row n. */
  ghost predicate ReadSound(rows: seq<Row>, paced: seq<Q.Row>, n: nat, j: nat) {
    && (TimedAt(paced, j) ==>
          PacedBefore(paced, j, PP.ReadingAt(paced, j)) && TimersBefore(rows, n, PP.ReadingAt(paced, j)))
    && (Dispatches(paced, j) ==> n % 3 == 0)
    && (Pending(rows, paced, n) && j == From(rows, n) ==> Answer(rows, paced, n, j))
  }

  ghost predicate ReadsSound(rows: seq<Row>, paced: seq<Q.Row>, n: nat, c: nat) {
    forall j: nat :: From(rows, n) <= j < c ==> ReadSound(rows, paced, n, j)
  }

  ghost predicate OnClock(rows: seq<Row>, paced: seq<Q.Row>, n: nat, c: nat, at: int) {
    PacedBefore(paced, c, at) && TimersBefore(rows, n, at)
  }

  ghost predicate ArmSound(plan: Q.Plan, rows: seq<Row>, paced: seq<Q.Row>, n: nat, c: nat, arm: Event)
    requires arm.Arm?
  {
    && n % 3 == 0 && arm.timer == n / 3 + 1 && n / 3 < plan.limits.maxSamplesPerPhase
    && !(Pending(rows, paced, n) && c == From(rows, n))
    && SomeQueued(paced, c) && DueAt(plan, paced, c, arm.due) && arm.at < arm.due
    && LeastDelay(arm.delayMs, arm.due - arm.at) && OnClock(rows, paced, n, c, arm.at)
  }

  /** The timer row at position n may follow when the rows before c are read. */
  ghost predicate EventSound(plan: Q.Plan, rows: seq<Row>, paced: seq<Q.Row>, n: nat, c: nat)
    requires n < |rows|
  {
    match rows[n].event
    case Arm(_, _, _, _) => ArmSound(plan, rows, paced, n, c, rows[n].event)
    case Armed(timer) => n % 3 == 1 && timer == n / 3 + 1
    case Fire(timer, at) =>
      n % 3 == 2 && timer == n / 3 + 1 && rows[n - 2].event.Arm? && rows[n - 2].event.due <= at
      && OnClock(rows, paced, n, c, at)
    case Cancel(timer, returned) => n % 3 == 2 && timer == n / 3 + 1 && returned
    case Finalize => n + 1 == |rows| && c == |paced|
  }

  ghost predicate RowSound(plan: Q.Plan, rows: seq<Row>, paced: seq<Q.Row>, n: nat)
    requires n < |rows|
  {
    && rows[n].sequence == n + 1 && 0 <= From(rows, n) <= rows[n].pacedSequence <= |paced|
    && ReadsSound(rows, paced, n, rows[n].pacedSequence)
    && EventSound(plan, rows, paced, n, rows[n].pacedSequence)
  }

  ghost predicate SoundBelow(plan: Q.Plan, rows: seq<Row>, paced: seq<Q.Row>, n: nat)
    requires n <= |rows|
  {
    forall i: nat :: i < n ==> RowSound(plan, rows, paced, i)
  }

  // ---- what the steps hold --------------------------------------------------------------------

  ghost function ActiveAt(rows: seq<Row>, n: nat): Option<Live>
    requires n <= |rows|
  {
    if n % 3 == 1 && rows[n - 1].event.Arm? then Some(Live(n / 3 + 1, rows[n - 1].event.due, false))
    else if n % 3 == 2 && rows[n - 2].event.Arm? then Some(Live(n / 3 + 1, rows[n - 2].event.due, true))
    else None
  }

  ghost function ExpectedAt(rows: seq<Row>, paced: seq<Q.Row>, n: nat, c: nat): Option<int> {
    if Pending(rows, paced, n) && c == From(rows, n) then Some(ReadingOf(rows, n - 1)) else None
  }

  /** What the steps before paced row c hold once n timer rows are read. */
  ghost predicate Holds(plan: Q.Plan, rows: seq<Row>, paced: seq<Q.Row>, n: nat, c: nat, steps: seq<Step>)
    requires n <= |rows|
  {
    && TL.WellStepped(plan, steps) && Active(steps) == ActiveAt(rows, n)
    && Expected(steps) == ExpectedAt(rows, paced, n, c) && Count(steps, IsArm()) == (n + 2) / 3
    && Count(steps, IsArmed()) == (n + 1) / 3 && Count(steps, IsFire()) + Count(steps, IsCancel()) == n / 3
  }

  /** Each started timer has its ARM in place. */
  ghost predicate ArmPlaced(rows: seq<Row>, n: nat)
    requires n <= |rows|
  {
    && (n % 3 == 1 ==> rows[n - 1].event.Arm?) && (n % 3 == 2 ==> rows[n - 2].event.Arm? && !rows[n - 1].event.Fire?)
  }

  ghost predicate StateAt(plan: Q.Plan, rows: seq<Row>, paced: seq<Q.Row>, n: nat, c: nat) {
    && Rising(rows, paced, n) && 0 <= From(rows, n) <= c <= |paced| && ArmPlaced(rows, n)
    && Holds(plan, rows, paced, n, c, StepsTo(rows, paced, n, c))
  }

  lemma {:induction false} ClockIs(plan: Q.Plan, rows: seq<Row>, paced: seq<Q.Row>, n: nat, c: nat, at: int)
    requires StateAt(plan, rows, paced, n, c)
    ensures InClockOrder(StepsTo(rows, paced, n, c), at) <==> OnClock(rows, paced, n, c, at)
  {
    OrderIs(plan, StepsTo(rows, paced, n, c), at);
    ReadingsAre(rows, paced, n, c, at);
  }

  // ---- a paced row is read ----------------------------------------------------------------------

  lemma {:induction false} QueueNeverRefuses(plan: Q.Plan, core: Q.Core, rows: seq<Row>, paced: seq<Q.Row>, n: nat,
                                             c: nat)
    requires Accepted(plan, core, paced) && StateAt(plan, rows, paced, n, c) && c < |paced|
    ensures 0 <= Queued(StepsTo(rows, paced, n, c)) + QueueChange(paced[c].event) <= plan.lanes
  {
    var steps := StepsTo(rows, paced, n, c);
    AcceptedAdmitted(plan, core, paced, c + 1);
    PartIs(rows, paced, n, c);
    QueueKept(plan, core, steps, paced, c);
  }

  lemma {:induction false} QueueKept(plan: Q.Plan, core: Q.Core, steps: seq<Step>, paced: seq<Q.Row>, c: nat)
    requires c < |paced| && TL.PacedPart(steps) == paced[..c] && PL.Admitted(plan, core, paced[..c + 1], |paced|)
    ensures 0 <= Queued(steps) + QueueChange(paced[c].event) <= plan.lanes
  {
    var next, part := steps + [Paced(paced[c])], paced[..c + 1];
    assert next[..|steps|] == steps && paced[..c + 1] == paced[..c] + [paced[c]];
    TL.PartOn(steps, Paced(paced[c]));
    TL.QueuedIsLength(plan, core, next, |paced|);
    PL.DispatcherInvariant(plan, core, part, |paced|);
    PL.QueueWithinLanes(Q.Items(core, part), Q.Fifo(part), Q.Occupied(core, part), plan.lanes);
  }

  lemma {:induction false} ReadIs(plan: Q.Plan, core: Q.Core, rows: seq<Row>, paced: seq<Q.Row>, n: nat, c: nat)
    requires Accepted(plan, core, paced) && StateAt(plan, rows, paced, n, c) && c < |paced|
    ensures AdmitPaced(plan, StepsTo(rows, paced, n, c), paced[c]).Met? <==> ReadSound(rows, paced, n, c)
  {
    QueueNeverRefuses(plan, core, rows, paced, n, c);
    if TimedAt(paced, c) {
      ClockIs(plan, rows, paced, n, c, paced[c].event.at);
    }
  }

  lemma {:induction false} PacedHolds(plan: Q.Plan, rows: seq<Row>, paced: seq<Q.Row>, n: nat, c: nat, steps: seq<Step>)
    requires n <= |rows| && From(rows, n) <= c < |paced| && Holds(plan, rows, paced, n, c, steps)
    requires AdmitPaced(plan, steps, paced[c]).Met? && ReadSound(rows, paced, n, c)
    ensures Holds(plan, rows, paced, n, c + 1, steps + [Paced(paced[c])])
  {
    var step := Paced(paced[c]);
    assert (steps + [step])[..|steps|] == steps;
    TL.StepOn(plan, steps, step);
    TL.CountOn(steps, step, IsArm());
    TL.CountOn(steps, step, IsArmed());
    TL.CountOn(steps, step, IsFire());
    TL.CountOn(steps, step, IsCancel());
  }

  lemma {:induction false} ReadOn(plan: Q.Plan, core: Q.Core, rows: seq<Row>, paced: seq<Q.Row>, n: nat, c: nat)
    requires Accepted(plan, core, paced) && StateAt(plan, rows, paced, n, c) && c < |paced|
    requires ReadSound(rows, paced, n, c)
    ensures StateAt(plan, rows, paced, n, c + 1)
  {
    ReadIs(plan, core, rows, paced, n, c);
    PacedHolds(plan, rows, paced, n, c, StepsTo(rows, paced, n, c));
    ReadNext(rows, paced, n, c);
  }

  lemma {:induction false} ReadsNext(rows: seq<Row>, paced: seq<Q.Row>, n: nat, d: nat)
    requires From(rows, n) <= d
    ensures ReadsSound(rows, paced, n, d + 1) <==> ReadsSound(rows, paced, n, d) && ReadSound(rows, paced, n, d)
  {
  }

  /** The rows that are read for timer row n, up to c, are admitted exactly when each is sound in its place. */
  ghost predicate Advances(plan: Q.Plan, rows: seq<Row>, paced: seq<Q.Row>, n: nat, c: nat) {
    && n <= |rows|
    && (AdmitAdvance(plan, Merge(rows[..n], paced), Slice(paced, From(rows, n), c)).Met? <==>
          ReadsSound(rows, paced, n, c))
    && (ReadsSound(rows, paced, n, c) ==> StateAt(plan, rows, paced, n, c))
  }

  lemma {:induction false} AdvanceGrows(plan: Q.Plan, steps: seq<Step>, part: seq<Q.Row>, row: Q.Row)
    ensures AdmitAdvance(plan, steps, part + [row]).Met? <==>
              AdmitAdvance(plan, steps, part).Met? && AdmitPaced(plan, steps + PacedSteps(part), row).Met?
  {
    assert (part + [row])[..|part|] == part;
  }

  lemma {:induction false} AdvanceSplits(plan: Q.Plan, rows: seq<Row>, paced: seq<Q.Row>, n: nat, d: nat)
    requires n <= |rows| && 0 <= From(rows, n) <= d < |paced|
    ensures AdmitAdvance(plan, Merge(rows[..n], paced), Slice(paced, From(rows, n), d + 1)).Met? <==>
              && AdmitAdvance(plan, Merge(rows[..n], paced), Slice(paced, From(rows, n), d)).Met?
              && AdmitPaced(plan, StepsTo(rows, paced, n, d), paced[d]).Met?
  {
    var from := From(rows, n);
    assert Slice(paced, from, d + 1) == Slice(paced, from, d) + [paced[d]];
    AdvanceGrows(plan, Merge(rows[..n], paced), Slice(paced, from, d), paced[d]);
  }

  lemma {:induction false} AdvanceOn(plan: Q.Plan, core: Q.Core, rows: seq<Row>, paced: seq<Q.Row>, n: nat, d: nat)
    requires Accepted(plan, core, paced) && n <= |rows| && 0 <= From(rows, n) <= d < |paced|
    requires Advances(plan, rows, paced, n, d)
    ensures Advances(plan, rows, paced, n, d + 1)
  {
    ReadsNext(rows, paced, n, d);
    AdvanceSplits(plan, rows, paced, n, d);
    if ReadsSound(rows, paced, n, d) {
      ReadIs(plan, core, rows, paced, n, d);
      if ReadSound(rows, paced, n, d) {
        ReadOn(plan, core, rows, paced, n, d);
      }
    }
  }

  lemma {:induction false} AdvanceNone(plan: Q.Plan, rows: seq<Row>, paced: seq<Q.Row>, n: nat, c: nat)
    requires StateAt(plan, rows, paced, n, c) && From(rows, n) == c
    ensures Advances(plan, rows, paced, n, c)
  {
    assert Slice(paced, c, c) == [];
  }

  lemma {:induction false} Upward(from: nat, upto: nat, holds: nat -> bool)
    requires from <= upto && holds(from)
    requires forall d: nat :: from <= d < upto && holds(d) ==> holds(d + 1)
    ensures holds(upto)
    decreases upto - from
  {
    if from < upto {
      Upward(from + 1, upto, holds);
    }
  }

  lemma {:induction false} AdvanceIs(plan: Q.Plan, core: Q.Core, rows: seq<Row>, paced: seq<Q.Row>, n: nat, c: nat)
    requires Accepted(plan, core, paced) && n <= |rows| && 0 <= From(rows, n) <= c <= |paced|
    requires StateAt(plan, rows, paced, n, From(rows, n))
    ensures Advances(plan, rows, paced, n, c)
  {
    var from: nat := From(rows, n);
    AdvanceNone(plan, rows, paced, n, from);
    forall d: nat | from <= d < c && Advances(plan, rows, paced, n, d) ensures Advances(plan, rows, paced, n, d + 1) {
      AdvanceOn(plan, core, rows, paced, n, d);
    }
    Upward(from, c, (d: nat) => Advances(plan, rows, paced, n, d));
  }

  // ---- a timer row is read ------------------------------------------------------------------------

  lemma {:induction false} CeilingIs(span: int, delayMs: int)
    ensures delayMs == (span + 999_999) / 1_000_000 <==> LeastDelay(delayMs, span)
  {
  }

  lemma {:induction false} ArmIs(plan: Q.Plan, core: Q.Core, rows: seq<Row>, paced: seq<Q.Row>, n: nat, c: nat)
    requires Accepted(plan, core, paced) && StateAt(plan, rows, paced, n, c) && n < |rows| && rows[n].event.Arm?
    ensures AdmitTimer(plan, StepsTo(rows, paced, n, c), rows[n].event, n + 1 == |rows| && c == |paced|).Met? <==>
              EventSound(plan, rows, paced, n, c)
  {
    var steps, arm := StepsTo(rows, paced, n, c), rows[n].event;
    ClockIs(plan, rows, paced, n, c, arm.at);
    PartIs(rows, paced, n, c);
    QueuedIs(plan, core, paced, steps, c);
    DueIs(plan, paced, steps, c, arm.due);
    CeilingIs(arm.due - arm.at, arm.delayMs);
    if ArmAnchored(plan, steps, arm.at, arm.due, arm.delayMs) && InClockOrder(steps, arm.at) {
      TL.DelayBoundImplied(plan, steps, arm.at, arm.due, arm.delayMs);
    }
  }

  lemma {:induction false} OtherIs(plan: Q.Plan, rows: seq<Row>, paced: seq<Q.Row>, n: nat, c: nat)
    requires StateAt(plan, rows, paced, n, c) && n < |rows| && !rows[n].event.Arm?
    ensures AdmitTimer(plan, StepsTo(rows, paced, n, c), rows[n].event, n + 1 == |rows| && c == |paced|).Met? <==>
              EventSound(plan, rows, paced, n, c)
  {
    if rows[n].event.Fire? {
      ClockIs(plan, rows, paced, n, c, rows[n].event.at);
    }
  }

  lemma {:induction false} EventIs(plan: Q.Plan, core: Q.Core, rows: seq<Row>, paced: seq<Q.Row>, n: nat, c: nat)
    requires Accepted(plan, core, paced) && StateAt(plan, rows, paced, n, c) && n < |rows|
    ensures AdmitTimer(plan, StepsTo(rows, paced, n, c), rows[n].event, n + 1 == |rows| && c == |paced|).Met? <==>
              EventSound(plan, rows, paced, n, c)
  {
    if rows[n].event.Arm? {
      ArmIs(plan, core, rows, paced, n, c);
    } else {
      OtherIs(plan, rows, paced, n, c);
    }
  }

  lemma {:induction false} TimerHolds(plan: Q.Plan, rows: seq<Row>, paced: seq<Q.Row>, n: nat, c: nat, steps: seq<Step>)
    requires n < |rows| && c == rows[n].pacedSequence && ArmPlaced(rows, n) && Holds(plan, rows, paced, n, c, steps)
    requires Queued(steps) > 0 <==> SomeQueued(paced, c)
    requires EventSound(plan, rows, paced, n, c) && !rows[n].event.Finalize?
    requires TL.StepAdmitted(plan, steps, Timer(rows[n].event))
    ensures ArmPlaced(rows, n + 1) && Holds(plan, rows, paced, n + 1, c, steps + [Timer(rows[n].event)])
  {
    var step := Timer(rows[n].event);
    assert (steps + [step])[..|steps|] == steps;
    TL.StepOn(plan, steps, step);
    TL.CountOn(steps, step, IsArm());
    TL.CountOn(steps, step, IsArmed());
    TL.CountOn(steps, step, IsFire());
    TL.CountOn(steps, step, IsCancel());
  }

  lemma {:induction false} TimerOn(plan: Q.Plan, core: Q.Core, rows: seq<Row>, paced: seq<Q.Row>, n: nat, c: nat)
    requires Accepted(plan, core, paced) && n < |rows| && rows[n].pacedSequence == c
    requires StateAt(plan, rows, paced, n, c) && EventSound(plan, rows, paced, n, c) && !rows[n].event.Finalize?
    ensures ArmPlaced(rows, n + 1)
    ensures Holds(plan, rows, paced, n + 1, c, StepsTo(rows, paced, n, c) + [Timer(rows[n].event)])
  {
    var steps := StepsTo(rows, paced, n, c);
    EventIs(plan, core, rows, paced, n, c);
    PartIs(rows, paced, n, c);
    QueuedIs(plan, core, paced, steps, c);
    TimerHolds(plan, rows, paced, n, c, steps);
  }

  lemma {:induction false} RowOn(plan: Q.Plan, core: Q.Core, rows: seq<Row>, paced: seq<Q.Row>, n: nat, c: nat)
    requires Accepted(plan, core, paced) && n < |rows| && rows[n].pacedSequence == c
    requires StateAt(plan, rows, paced, n, c) && EventSound(plan, rows, paced, n, c) && !rows[n].event.Finalize?
    ensures StateAt(plan, rows, paced, n + 1, c)
  {
    TimerOn(plan, core, rows, paced, n, c);
    RowNext(rows, paced, n);
    NothingRead(rows, paced, n + 1);
  }
}
