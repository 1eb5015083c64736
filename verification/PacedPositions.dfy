/** A paced log read by its row positions alone: which logs are well formed, and what its report says. No figure
    here is carried from row to row. */
module PacedPositions {
  import opened Wrappers
  import opened Clock
  import opened Percentiles
  import opened Recorder
  import opened PacedTrace
  import opened Positions

  // ---- kinds of rows ---------------------------------------------------------------------

  ghost function IsRequest(): Event -> bool { (e: Event) => e.Request? }

  ghost function IsWait(): Event -> bool { (e: Event) => e.WaitBegin? }

  ghost function IsTerminal(): Event -> bool { (e: Event) => e.SourceTerminal? }

  /** The row takes its request out of the queue. */
  ghost function IsLeave(): Event -> bool { (e: Event) => e.Dispatch? || e.Withdraw? }

  /** The row ends its request and frees its lane. */
  ghost function IsClose(): Event -> bool { (e: Event) => e.SourceTerminal? || e.Withdraw? }

  ghost predicate At(rows: seq<Row>, k: nat, kind: Event -> bool) {
    k < |rows| && kind(rows[k].event)
  }

  ghost function Are(rows: seq<Row>, kind: Event -> bool): nat -> bool {
    (k: nat) => At(rows, k, kind)
  }

  /** The row at position k is of the kind and names request r. */
  ghost predicate Happens(rows: seq<Row>, k: nat, kind: Event -> bool, r: int) {
    At(rows, k, kind) && !rows[k].event.Finalize? && rows[k].event.request == r
  }

  /** A row before position k is of the kind and names request r. */
  ghost predicate Seen(rows: seq<Row>, k: nat, kind: Event -> bool, r: int) {
    exists j: nat :: j < k && Happens(rows, j, kind, r)
  }

  ghost predicate AsksFor(rows: seq<Row>, k: nat, lane: int) {
    k < |rows| && rows[k].event.Request? && rows[k].event.lane == lane
  }

  ghost function RequestsOf(rows: seq<Row>, lane: int): nat -> bool {
    (k: nat) => AsksFor(rows, k, lane)
  }

  ghost function ReadingAt(rows: seq<Row>, k: nat): int {
    if k < |rows| && Timed(rows[k].event) then rows[k].event.at else 0
  }

  ghost function Reading(rows: seq<Row>): nat -> int {
    (k: nat) => ReadingAt(rows, k)
  }

  // ---- well-formed logs --------------------------------------------------------------------

  /** Request r stands for a finished call of the parent. */
  ghost predicate HasCall(core: Core, r: int) {
    1 <= r <= |core.begins| && core.begins[r - 1].observation in core.finishes
  }

  ghost function CallBegin(core: Core, r: int): int
    requires HasCall(core, r)
  {
    core.begins[r - 1].at
  }

  ghost function CallFinish(core: Core, r: int): CoreFinish
    requires HasCall(core, r)
  {
    core.finishes[core.begins[r - 1].observation]
  }

  ghost predicate InCall(core: Core, r: int, at: int) {
    HasCall(core, r) && CallBegin(core, r) <= at <= CallFinish(core, r).at
  }

  /** Every earlier request has left the queue. */
  ghost predicate Oldest(rows: seq<Row>, k: nat, r: int) {
    forall q :: q < r && Seen(rows, k, IsRequest(), q) ==> Seen(rows, k, IsLeave(), q)
  }

  /** Every earlier request of the lane has ended. */
  ghost predicate LaneFree(rows: seq<Row>, k: nat, lane: int) {
    forall j: nat :: j < k && AsksFor(rows, j, lane) ==> Seen(rows, k, IsClose(), rows[j].event.request)
  }

  /** A full gap has passed since every earlier start. */
  ghost predicate GapPassed(plan: Plan, rows: seq<Row>, k: nat, at: int) {
    forall j: nat :: j < k && At(rows, j, IsDispatch()) ==> at - ReadingAt(rows, j) >= plan.Gap()
  }

  /** What its own kind demands of the row at position k. */
  ghost predicate EventSound(plan: Plan, core: Core, rows: seq<Row>, k: nat)
    requires k < |rows|
  {
    match rows[k].event
    case Request(r, lane, ordinal) =>
      && r == Number(k, Are(rows, IsRequest())) + 1 && 0 <= lane < plan.lanes
      && ordinal == Number(k, RequestsOf(rows, lane)) && ordinal < plan.measurementCallsPerLane
      && LaneFree(rows, k, lane) && HasCall(core, r)
    case WaitBegin(r, at) =>
      && Seen(rows, k, IsRequest(), r) && !Seen(rows, k, IsWait(), r) && !Seen(rows, k, IsLeave(), r)
      && InCall(core, r, at)
    case Dispatch(r, at) =>
      && Seen(rows, k, IsWait(), r) && !Seen(rows, k, IsLeave(), r) && Oldest(rows, k, r)
      && InCall(core, r, at) && GapPassed(plan, rows, k, at)
    case SourceTerminal(r, outcome, at) =>
      && Seen(rows, k, IsDispatch(), r) && !Seen(rows, k, IsClose(), r)
      && InCall(core, r, at) && outcome == CallFinish(core, r).outcome
    case Withdraw(r, recordedWait, at) =>
      && Seen(rows, k, IsRequest(), r) && !Seen(rows, k, IsLeave(), r) && Oldest(rows, k, r)
      && recordedWait == Seen(rows, k, IsWait(), r)
      && InCall(core, r, at) && CallFinish(core, r).outcome == Rejected
    case Finalize => k == |rows| - 1
  }

  ghost predicate RowSound(plan: Plan, core: Core, rows: seq<Row>, k: nat)
    requires k < |rows|
  {
    && rows[k].sequence == k + 1
    && (Timed(rows[k].event) ==>
          forall j: nat :: j < k && Timed(rows[j].event) ==> ReadingAt(rows, j) <= ReadingAt(rows, k))
    && EventSound(plan, core, rows, k)
  }

  ghost predicate SoundBelow(plan: Plan, core: Core, rows: seq<Row>, n: nat)
    requires n <= |rows|
  {
    forall k: nat :: k < n ==> RowSound(plan, core, rows, k)
  }

  /** The log requests r and never ends it. */
  ghost predicate Pending(rows: seq<Row>, r: int) {
    Seen(rows, |rows|, IsRequest(), r) && !Seen(rows, |rows|, IsClose(), r)
  }

  ghost predicate AllEnded(rows: seq<Row>) {
    forall r :: !Pending(rows, r)
  }

  /** Every row is in its place, every call of the parent was requested, every request ended, and the last row is
      FINALIZE. */
  ghost predicate WellFormed(plan: Plan, core: Core, rows: seq<Row>) {
    && |rows| > 0 && rows[|rows| - 1].event.Finalize? && SoundBelow(plan, core, rows, |rows|)
    && Number(|rows|, Are(rows, IsRequest())) == |core.begins|
    && AllEnded(rows)
  }

  // ---- what a well-formed log reports ----------------------------------------------------------

  ghost predicate OpensAt(rows: seq<Row>, k: nat, s: Series) {
    k < |rows| && if s == Wait then rows[k].event.WaitBegin? else rows[k].event.Dispatch?
  }

  /** A wait ends well when it is dispatched, a source call as it says. */
  ghost predicate ClosesAs(rows: seq<Row>, k: nat, s: Series, outcome: Outcome) {
    k < |rows|
    && match rows[k].event
       case Dispatch(_, _) => s == Wait && outcome == Succeeded
       case Withdraw(_, recordedWait, _) => s == Wait && recordedWait && outcome == Rejected
       case SourceTerminal(_, ended, _) => s == Source && outcome == ended
       case _ => false
  }

  ghost predicate ClosesAt(rows: seq<Row>, k: nat, s: Series) {
    ClosesAs(rows, k, s, Succeeded) || ClosesAs(rows, k, s, Rejected)
  }

  ghost function Opening(rows: seq<Row>, s: Series): nat -> bool {
    (k: nat) => OpensAt(rows, k, s)
  }

  ghost function Closing(rows: seq<Row>, s: Series): nat -> bool {
    (k: nat) => ClosesAt(rows, k, s)
  }

  ghost function ClosingAs(rows: seq<Row>, s: Series, outcome: Outcome): nat -> bool {
    (k: nat) => ClosesAs(rows, k, s, outcome)
  }

  ghost function Touching(rows: seq<Row>, s: Series): nat -> bool {
    (k: nat) => OpensAt(rows, k, s) || ClosesAt(rows, k, s)
  }

  ghost predicate OpenedBy(rows: seq<Row>, k: nat, s: Series, j: nat) {
    && j < k < |rows| && OpensAt(rows, j, s) && !rows[k].event.Finalize?
    && rows[j].event.request == rows[k].event.request
  }

  /** The row that opened what row k closes. */
  ghost function OpeningOf(rows: seq<Row>, k: nat, s: Series): nat {
    if exists j: nat :: OpenedBy(rows, k, s, j) then (var j: nat :| OpenedBy(rows, k, s, j); j) else k
  }

  /** How long after its opening row an observation ended. */
  ghost function Latency(rows: seq<Row>, s: Series): nat -> int {
    (k: nat) => ReadingAt(rows, k) - ReadingAt(rows, OpeningOf(rows, k, s))
  }

  /** Observations of the series opened and not closed by the rows before position k. */
  ghost function OpenAt(rows: seq<Row>, k: nat, s: Series): int {
    Number(k, Opening(rows, s)) - Number(k, Closing(rows, s))
  }

  ghost function Level(rows: seq<Row>, s: Series): nat -> int {
    (k: nat) => OpenAt(rows, k, s)
  }

  ghost function GroupAt(rows: seq<Row>, n: nat, s: Series): Group {
    Group(Number(n, Opening(rows, s)), Number(n, Closing(rows, s)),
          Number(n, ClosingAs(rows, s, Succeeded)), Number(n, ClosingAs(rows, s, Rejected)),
          OpenAt(rows, n, s), Highest(0, n, Level(rows, s)))
  }

  ghost function RecordedSeries(rows: seq<Row>, s: Series): SeriesReport {
    var n := |rows|;
    var group := GroupAt(rows, n, s);
    SeriesReport(
      group.entered == 0, Extent(n, Touching(rows, s), Reading(rows)), group,
      if group.settled == 0 then None else Some((group.rejected, group.settled)),
      Summarize(Values(n, Closing(rows, s), Latency(rows, s))),
      Summarize(Values(n, ClosingAs(rows, s, Succeeded), Latency(rows, s))))
  }

  /** Requests that no row before position k has taken out of the queue. */
  ghost function QueueAt(rows: seq<Row>, k: nat): int {
    Number(k, Are(rows, IsRequest())) - Number(k, Are(rows, IsLeave()))
  }

  ghost function QueueLevel(rows: seq<Row>): nat -> int {
    (k: nat) => QueueAt(rows, k)
  }

  /** Every lane made all its calls. */
  ghost predicate AllCallsMade(plan: Plan, rows: seq<Row>) {
    forall lane :: 0 <= lane < plan.lanes ==> Number(|rows|, RequestsOf(rows, lane)) == plan.measurementCallsPerLane
  }

  /** The report of a well-formed log; how many timers were started is for the timer log to say. */
  ghost function Recorded(plan: Plan, rows: seq<Row>, timers: int): Report {
    var n := |rows|;
    Report(Number(n, Are(rows, IsRequest())), Number(n, Are(rows, IsDispatch())), Number(n, Are(rows, IsWithdraw())),
           Highest(0, n, QueueLevel(rows)), timers, AllCallsMade(plan, rows),
           RecordedSeries(rows, Wait), RecordedSeries(rows, Source))
  }
}
