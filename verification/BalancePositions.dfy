/** A balance log read by the positions of its events, next to the rows of the parent log: how its barriers lie to the
    parent's window and checks, and what it measures. */
module BalancePositions {
  import opened Wrappers
  import opened Clock
  import opened Percentiles
  import opened Positions
  import opened BalanceTrace
  import P = ParentTrace
  import PP = ParentPositions

  // ---- events and rows by kind ---------------------------------------------------------------

  ghost predicate Begins(events: seq<Event>, k: nat, barrier: int) {
    k < |events| && events[k].Begin? && events[k].barrier == barrier
  }

  ghost predicate EndsAt(events: seq<Event>, k: nat, barrier: int) {
    k < |events| && events[k].End? && events[k].barrier == barrier
  }

  ghost predicate EndsOn(events: seq<Event>, k: nat, lane: int) {
    k < |events| && events[k].End? && events[k].lane == lane
  }

  ghost function Beginning(events: seq<Event>, barrier: int): nat -> bool {
    (k: nat) => Begins(events, k, barrier)
  }

  ghost function Ending(events: seq<Event>, barrier: int): nat -> bool {
    (k: nat) => EndsAt(events, k, barrier)
  }

  ghost function EndingOn(events: seq<Event>, lane: int): nat -> bool {
    (k: nat) => EndsOn(events, k, lane)
  }

  ghost predicate IsCheckAt(rows: seq<P.Row>, k: nat) {
    PP.At(rows, k, P.IsBalance())
  }

  ghost function Checking(rows: seq<P.Row>): nat -> bool {
    PP.Are(rows, P.IsBalance())
  }

  ghost function ReadingAt(events: seq<Event>, k: nat): int {
    if k < |events| then events[k].at else 0
  }

  ghost function Reading(events: seq<Event>): nat -> int {
    (k: nat) => ReadingAt(events, k)
  }

  // ---- durations --------------------------------------------------------------------------------

  /** Event j begins what event k ends: the same barrier of the same lane. */
  ghost predicate BegunBy(events: seq<Event>, k: nat, j: nat) {
    && j < k < |events| && events[j].Begin? && events[k].End?
    && events[j].lane == events[k].lane && events[j].barrier == events[k].barrier
  }

  ghost function BeginOf(events: seq<Event>, k: nat): nat {
    if exists j: nat :: BegunBy(events, k, j) then (var j: nat :| BegunBy(events, k, j); j) else k
  }

  ghost function DurationAt(events: seq<Event>, k: nat): int {
    ReadingAt(events, k) - ReadingAt(events, BeginOf(events, k))
  }

  ghost function Duration(events: seq<Event>): nat -> int {
    (k: nat) => DurationAt(events, k)
  }

  /** The summary of one barrier is that of the durations its own ENDs close, over all lanes. */
  ghost function MetricsOf(events: seq<Event>): seq<Metric> {
    [Summarize(Values(|events|, Ending(events, 0), Duration(events))),
     Summarize(Values(|events|, Ending(events, 1), Duration(events))),
     Summarize(Values(|events|, Ending(events, 2), Duration(events)))]
  }

  ghost function LaneMetric(events: seq<Event>, lane: int): Metric {
    Summarize(Values(|events|, EndingOn(events, lane), Duration(events)))
  }

  /** The check has the summary of each lane. */
  ghost predicate Checked(check: Check, events: seq<Event>, lanes: nat) {
    && |check.laneMetrics| == lanes && check.events == 6 * lanes && check.observations == 3 * lanes
    && forall lane: nat :: lane < lanes ==> check.laneMetrics[lane] == LaneMetric(events, lane)
  }

  // ---- the window and the checks of the parent -----------------------------------------------------

  ghost predicate BeginNotBefore(events: seq<Event>, barrier: int, at: int) {
    forall k: nat :: Begins(events, k, barrier) ==> at <= events[k].at
  }

  ghost predicate EndNotAfter(events: seq<Event>, barrier: int, at: int) {
    forall k: nat :: EndsAt(events, k, barrier) ==> events[k].at <= at
  }

  /** Barrier 0 lies after the parent's first row, barrier 1 before START_MEASUREMENT, barrier 2 after STOP_MEASUREMENT
      and before the parent's last row; and barrier 1 begins when all lanes have ended barrier 0. */
  ghost predicate AroundWindow(events: seq<Event>, rows: seq<P.Row>, start: nat, stop: nat)
    requires |rows| > 0
  {
    && PP.OnlyAt(rows, start, P.IsStart()) && PP.OnlyAt(rows, stop, P.IsStop())
    && rows[start].event.at <= rows[stop].event.at
    && BeginNotBefore(events, 0, rows[0].event.at) && EndNotAfter(events, 1, rows[start].event.at)
    && BeginNotBefore(events, 2, rows[stop].event.at) && EndNotAfter(events, 2, rows[|rows| - 1].event.at)
    && forall i: nat, j: nat :: EndsAt(events, i, 0) && Begins(events, j, 1) ==> events[i].at <= events[j].at
  }

  /** The i-th END of a barrier is no later than the i-th of the checks that belong to the barrier. */
  ghost predicate EndsMeetChecks(events: seq<Event>, rows: seq<P.Row>, lanes: nat, barrier: nat) {
    forall k: nat, c: nat :: EndsAt(events, k, barrier) && CheckFor(events, rows, lanes, barrier, k, c) ==>
      events[k].at <= rows[c].event.at
  }

  /** Among the checks of the barrier, row c has the place that event k has among its ENDs. */
  ghost predicate CheckFor(events: seq<Event>, rows: seq<P.Row>, lanes: nat, barrier: nat, k: nat, c: nat) {
    && IsCheckAt(rows, c)
    && Number(c, Checking(rows)) == barrier * lanes + Number(k, Ending(events, barrier))
  }

  /** The check belongs to the barrier. */
  ghost predicate ChecksFor(rows: seq<P.Row>, lanes: nat, barrier: nat, c: nat) {
    IsCheckAt(rows, c) && barrier * lanes <= Number(c, Checking(rows)) < (barrier + 1) * lanes
  }

  ghost predicate ChecksBeforeNext(events: seq<Event>, rows: seq<P.Row>, lanes: nat, barrier: nat) {
    forall c: nat, k: nat :: ChecksFor(rows, lanes, barrier, c) && Begins(events, k, barrier + 1) ==>
      rows[c].event.at <= events[k].at
  }

  /** How the log lies to the parent's. */
  ghost predicate Placed(events: seq<Event>, rows: seq<P.Row>, lanes: nat)
    requires |rows| > 0
  {
    && (exists start: nat, stop: nat :: AroundWindow(events, rows, start, stop))
    && Number(|rows|, Checking(rows)) == 3 * lanes
    && EndsMeetChecks(events, rows, lanes, 0) && EndsMeetChecks(events, rows, lanes, 1)
    && EndsMeetChecks(events, rows, lanes, 2)
    && ChecksBeforeNext(events, rows, lanes, 0) && ChecksBeforeNext(events, rows, lanes, 1)
  }
}
