/** A timer log read by its row positions, next to the paced log that it is anchored in: which logs are well
    formed. Timer row i comes after paced row j exactly when j lies before the anchor of row i. */
module TimerPositions {
  import opened TimerTrace
  import Q = PacedTrace
  import PP = PacedPositions

  // ---- the paced log before an anchor ------------------------------------------------------

  ghost predicate Queuing(paced: seq<Q.Row>, a: nat, r: int) {
    PP.Seen(paced, a, PP.IsRequest(), r) && !PP.Seen(paced, a, PP.IsLeave(), r)
  }

  /** Some request is in the queue. */
  ghost predicate SomeQueued(paced: seq<Q.Row>, a: nat) {
    exists r :: Queuing(paced, a, r)
  }

  ghost predicate Dispatches(paced: seq<Q.Row>, j: nat) {
    j < |paced| && paced[j].event.Dispatch?
  }

  /** Paced row d is the latest start before the anchor. */
  ghost predicate LatestStart(paced: seq<Q.Row>, a: nat, d: nat) {
    d < a && Dispatches(paced, d) && forall j: nat :: d < j < a ==> !Dispatches(paced, j)
  }

  ghost predicate TimedAt(paced: seq<Q.Row>, j: nat) {
    j < |paced| && Q.Timed(paced[j].event)
  }

  /** One gap after the latest start. */
  ghost predicate DueAt(plan: Q.Plan, paced: seq<Q.Row>, a: nat, due: int) {
    exists d: nat :: LatestStart(paced, a, d) && due == PP.ReadingAt(paced, d) + plan.Gap()
  }

  // ---- the timer rows ------------------------------------------------------------------------

  ghost predicate Reads(rows: seq<Row>, i: nat) {
    i < |rows| && (rows[i].event.Arm? || rows[i].event.Fire?)
  }

  ghost function ReadingOf(rows: seq<Row>, i: nat): int {
    if Reads(rows, i) then rows[i].event.at else 0
  }

  /** The anchors rise and stay within the paced log. */
  ghost predicate Anchored(rows: seq<Row>, paced: seq<Q.Row>) {
    && (forall i: nat :: i < |rows| ==> rows[i].sequence == i + 1 && 0 <= rows[i].pacedSequence <= |paced|)
    && (forall h: nat, i: nat :: h < i < |rows| ==> rows[h].pacedSequence <= rows[i].pacedSequence)
  }

  /** The merged clock never runs backwards. */
  ghost predicate InOrder(rows: seq<Row>, paced: seq<Q.Row>) {
    && (forall h: nat, i: nat :: h < i && Reads(rows, h) && Reads(rows, i) ==> ReadingOf(rows, h) <= ReadingOf(rows, i))
    && (forall i: nat, j: nat :: Reads(rows, i) && TimedAt(paced, j) ==>
          if j < rows[i].pacedSequence then PP.ReadingAt(paced, j) <= ReadingOf(rows, i)
          else ReadingOf(rows, i) <= PP.ReadingAt(paced, j))
  }

  /** The least number of milliseconds that reaches the due reading. */
  ghost predicate LeastDelay(delayMs: int, span: int) {
    (delayMs - 1) * 1_000_000 < span <= delayMs * 1_000_000
  }

  /** Timer m was armed with a queue one gap after the latest start, registered, and fired when due or was cancelled;
      no start lies in between, and a fire with a queue is the reading of the start that is read next. */
  ghost predicate TimerSound(plan: Q.Plan, rows: seq<Row>, paced: seq<Q.Row>, m: nat)
    requires 3 * m + 3 < |rows|
  {
    var arm, registered, end, next := rows[3 * m], rows[3 * m + 1], rows[3 * m + 2], rows[3 * m + 3];
    && arm.event.Arm? && arm.event.timer == m + 1 && registered.event == Armed(m + 1)
    && 0 <= arm.pacedSequence && 0 <= end.pacedSequence
    && SomeQueued(paced, arm.pacedSequence) && DueAt(plan, paced, arm.pacedSequence, arm.event.due)
    && LeastDelay(arm.event.delayMs, arm.event.due - arm.event.at) && arm.event.at < arm.event.due
    && (forall j: nat :: arm.pacedSequence <= j < end.pacedSequence ==> !Dispatches(paced, j))
    && match end.event
       case Fire(timer, at) =>
         && timer == m + 1 && arm.event.due <= at
         && (SomeQueued(paced, end.pacedSequence) ==>
               Dispatches(paced, end.pacedSequence) && PP.ReadingAt(paced, end.pacedSequence) == at
               && end.pacedSequence < next.pacedSequence)
       case Cancel(timer, returned) => timer == m + 1 && returned
       case _ => false
  }

  /** Three rows for each timer, and FINALIZE at the end of both logs. */
  ghost predicate WellFormed(plan: Q.Plan, rows: seq<Row>, paced: seq<Q.Row>, timers: nat) {
    && |rows| == 3 * timers + 1 && Anchored(rows, paced) && InOrder(rows, paced)
    && rows[3 * timers].event.Finalize? && rows[3 * timers].pacedSequence == |paced|
    && forall m: nat :: m < timers ==> TimerSound(plan, rows, paced, m)
  }
}
