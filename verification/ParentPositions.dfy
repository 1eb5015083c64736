/** A parent log read by its row positions alone: which logs are well formed, and what they record. No figure
    here is carried from row to row. */
module ParentPositions {
  import opened Wrappers
  import opened Clock
  import opened Percentiles
  import opened ParentTrace
  import opened Positions

  // ---- kinds of rows ---------------------------------------------------------------------

  ghost predicate At(rows: seq<Row>, k: nat, kind: Event -> bool) {
    k < |rows| && kind(rows[k].event)
  }

  ghost predicate Before(rows: seq<Row>, k: nat, kind: Event -> bool) {
    exists j: nat :: j < k && At(rows, j, kind)
  }

  ghost function Are(rows: seq<Row>, kind: Event -> bool): nat -> bool {
    (k: nat) => At(rows, k, kind)
  }

  ghost function ReadingAt(rows: seq<Row>, k: nat): int {
    if k < |rows| then rows[k].event.at else 0
  }

  ghost function Reading(rows: seq<Row>): nat -> int {
    (k: nat) => ReadingAt(rows, k)
  }

  /** Row f ends the observation that row b begins. */
  ghost predicate Ends(rows: seq<Row>, b: nat, f: nat) {
    && b < f < |rows| && rows[b].event.Begin? && rows[f].event.Finish?
    && rows[b].event.observation == rows[f].event.observation
  }

  /** The BEGIN row that row f ends. */
  ghost function BeginOf(rows: seq<Row>, f: nat): nat {
    if exists b: nat :: Ends(rows, b, f) then (var b: nat :| Ends(rows, b, f); b) else f
  }

  ghost predicate BeginsIn(rows: seq<Row>, k: nat, c: Cohort, p: Phase) {
    k < |rows| && rows[k].event.Begin? && rows[k].event.cohort == c && rows[k].event.phase == p
  }

  /** The row ends an observation whose BEGIN row names the cohort and the phase. */
  ghost predicate EndsIn(rows: seq<Row>, k: nat, c: Cohort, p: Phase) {
    exists b: nat :: Ends(rows, b, k) && BeginsIn(rows, b, c, p)
  }

  ghost predicate EndsAs(rows: seq<Row>, k: nat, c: Cohort, p: Phase, outcome: Outcome) {
    EndsIn(rows, k, c, p) && rows[k].event.outcome == outcome
  }

  ghost function Begins(rows: seq<Row>, c: Cohort, p: Phase): nat -> bool {
    (k: nat) => BeginsIn(rows, k, c, p)
  }

  ghost function Terminals(rows: seq<Row>, c: Cohort, p: Phase): nat -> bool {
    (k: nat) => EndsIn(rows, k, c, p)
  }

  ghost function TerminalsAs(rows: seq<Row>, c: Cohort, p: Phase, outcome: Outcome): nat -> bool {
    (k: nat) => EndsAs(rows, k, c, p, outcome)
  }

  /** Observations of a cohort begun and not ended by the rows before position k. */
  ghost function LiveOf(rows: seq<Row>, k: nat, c: Cohort, p: Phase): int {
    Number(k, Begins(rows, c, p)) - Number(k, Terminals(rows, c, p))
  }

  ghost function Level(rows: seq<Row>, c: Cohort, p: Phase): nat -> int {
    (k: nat) => LiveOf(rows, k, c, p)
  }

  ghost function LiveIn(rows: seq<Row>, k: nat, p: Phase): int {
    LiveOf(rows, k, Warmup, p) + LiveOf(rows, k, Measurement, p)
  }

  ghost function PhaseLevel(rows: seq<Row>, p: Phase): nat -> int {
    (k: nat) => LiveIn(rows, k, p)
  }

  ghost function EnteredIn(rows: seq<Row>, k: nat, p: Phase): nat {
    Number(k, Begins(rows, Warmup, p)) + Number(k, Begins(rows, Measurement, p))
  }

  // ---- well-formed logs --------------------------------------------------------------------

  /** The cohort of an observation that begins at position k. */
  ghost function CohortAt(rows: seq<Row>, k: nat): Cohort {
    if Before(rows, k, IsStart()) then Measurement else Warmup
  }

  /** What its own kind demands of the row at position k. */
  ghost predicate EventSound(limits: Limits, rows: seq<Row>, k: nat)
    requires k < |rows|
  {
    match rows[k].event
    case StartWarmup(_) => k == 0
    case StartMeasurement(_) => !Before(rows, k, IsStart())
    case StopMeasurement(at) =>
      !Before(rows, k, IsStop()) && exists s: nat :: s < k && rows[s].event.StartMeasurement? && rows[s].event.at < at
    case Begin(o, p, c, _) =>
      && 0 < k && !Before(rows, k, IsStop()) && c == CohortAt(rows, k)
      && o == Number(k, Are(rows, IsBegin())) + 1
      && EnteredIn(rows, k, p) < limits.maxSamplesPerPhase && LiveIn(rows, k, p) < limits.maxInFlightPerPhase
    case Finish(_, _, _) =>
      exists b: nat :: Ends(rows, b, k) && forall f: nat :: f < k ==> !Ends(rows, b, f)
    case BalanceCheck(matches, _) =>
      0 < k && matches && Number(k, Are(rows, IsBalance())) < limits.maxSamplesPerPhase
    case Finalize(_) =>
      && k == |rows| - 1 && Before(rows, k, IsStop())
      && forall b: nat :: b < k && rows[b].event.Begin? ==> exists f: nat :: f < k && Ends(rows, b, f)
  }

  ghost predicate RowSound(limits: Limits, rows: seq<Row>, k: nat)
    requires k < |rows|
  {
    && rows[k].sequence == k + 1
    && (forall j: nat :: j < k ==> rows[j].event.at <= rows[k].event.at)
    && EventSound(limits, rows, k)
  }

  ghost predicate SoundBelow(limits: Limits, rows: seq<Row>, n: nat)
    requires n <= |rows|
  {
    forall k: nat :: k < n ==> RowSound(limits, rows, k)
  }

  /** Every row is in its place and the last one is FINALIZE. */
  ghost predicate WellFormed(limits: Limits, rows: seq<Row>) {
    |rows| > 0 && rows[|rows| - 1].event.Finalize? && SoundBelow(limits, rows, |rows|)
  }

  // ---- what a well-formed log records --------------------------------------------------------

  ghost predicate OnlyAt(rows: seq<Row>, k: nat, kind: Event -> bool) {
    At(rows, k, kind) && forall j: nat :: At(rows, j, kind) ==> j == k
  }

  /** The position of the only row of a kind. */
  ghost function Place(rows: seq<Row>, kind: Event -> bool): nat {
    if exists k: nat :: OnlyAt(rows, k, kind) then (var k: nat :| OnlyAt(rows, k, kind); k) else 0
  }

  ghost function StartOf(rows: seq<Row>): nat { Place(rows, IsStart()) }

  ghost function StopOf(rows: seq<Row>): nat { Place(rows, IsStop()) }

  /** Those of the rows after position `from` and before position `upto`. */
  ghost function Between(when: nat -> bool, from: int, upto: int): nat -> bool {
    (k: nat) => from < k < upto && when(k)
  }

  ghost function TallyBetween(rows: seq<Row>, c: Cohort, p: Phase, from: int, upto: int): Tally {
    Tally(Number(|rows|, Between(Terminals(rows, c, p), from, upto)),
          Number(|rows|, Between(TerminalsAs(rows, c, p, Succeeded), from, upto)),
          Number(|rows|, Between(TerminalsAs(rows, c, p, Rejected), from, upto)))
  }

  /** How long after its BEGIN row an observation ended. */
  ghost function Latency(rows: seq<Row>): nat -> int {
    (k: nat) => ReadingAt(rows, k) - ReadingAt(rows, BeginOf(rows, k))
  }

  /** The BEGIN and FINISH rows of a cohort. */
  ghost predicate Touches(rows: seq<Row>, k: nat, c: Cohort) {
    exists p: Phase :: BeginsIn(rows, k, c, p) || EndsIn(rows, k, c, p)
  }

  ghost function TouchesOf(rows: seq<Row>, c: Cohort): nat -> bool {
    (k: nat) => Touches(rows, k, c)
  }

  ghost predicate NothingBegun(rows: seq<Row>, c: Cohort, p: Phase) {
    forall k: nat :: !BeginsIn(rows, k, c, p)
  }

  ghost function RecordedGroup(rows: seq<Row>, c: Cohort, p: Phase): GroupSummary {
    var n := |rows|;
    var settled := Number(n, Terminals(rows, c, p));
    var rejected := Number(n, TerminalsAs(rows, c, p, Rejected));
    GroupSummary(
      Number(n, Begins(rows, c, p)), settled, Number(n, TerminalsAs(rows, c, p, Succeeded)), rejected,
      Highest(0, n, Level(rows, c, p)),
      if settled == 0 then None else Some((rejected, settled)),
      Summarize(Values(n, Terminals(rows, c, p), Latency(rows))),
      Summarize(Values(n, TerminalsAs(rows, c, p, Succeeded), Latency(rows))))
  }

  ghost function RecordedCohort(rows: seq<Row>, c: Cohort, start: nat): CohortSummary {
    var n := |rows|;
    CohortSummary(
      forall p: Phase :: NothingBegun(rows, c, p),
      Extent(n, TouchesOf(rows, c), Reading(rows)),
      map[Funding := RecordedGroup(rows, c, Funding), FundedCall := RecordedGroup(rows, c, FundedCall),
          LedgerTransaction := RecordedGroup(rows, c, LedgerTransaction)],
      if c == Warmup then ChecksBetween(rows, -1, start) else ChecksBetween(rows, start, n))
  }

  /** So many in so many nanoseconds, as a fraction per second. */
  ghost function PerSecond(count: int, duration: int): Option<(int, int)> {
    Some((count * 1_000_000_000, duration))
  }

  ghost function RecordedPhase(rows: seq<Row>, p: Phase, start: nat, stop: nat, duration: int): PhaseSummary {
    var n, inside := |rows|, TallyBetween(rows, Measurement, p, start, stop);
    PhaseSummary(
      EnteredIn(rows, n, p), Highest(0, n, PhaseLevel(rows, p)), Highest(start + 1, stop, PhaseLevel(rows, p)),
      LiveOf(rows, start, Warmup, p), LiveOf(rows, stop, Warmup, p), LiveOf(rows, stop, Measurement, p),
      TallyBetween(rows, Warmup, p, start, stop), inside,
      TallyBetween(rows, Warmup, p, stop, n), TallyBetween(rows, Measurement, p, stop, n),
      if NothingBegun(rows, Measurement, p) then None else
        PerSecond(inside.succeeded, duration))
  }

  ghost function RecordedPhases(rows: seq<Row>, start: nat, stop: nat, duration: int): map<Phase, PhaseSummary> {
    map[Funding := RecordedPhase(rows, Funding, start, stop, duration),
        FundedCall := RecordedPhase(rows, FundedCall, start, stop, duration),
        LedgerTransaction := RecordedPhase(rows, LedgerTransaction, start, stop, duration)]
  }

  ghost predicate NoObservations(rows: seq<Row>) {
    forall k: nat :: !At(rows, k, IsBegin())
  }

  /** Balance checks of the rows after position `from` and before position `upto`. */
  ghost function ChecksBetween(rows: seq<Row>, from: int, upto: int): nat {
    Number(|rows|, Between(Are(rows, IsBalance()), from, upto))
  }

  /** The nanoseconds from row i to row j. */
  ghost function Elapsed(rows: seq<Row>, i: nat, j: nat): int {
    ReadingAt(rows, j) - ReadingAt(rows, i)
  }

  /** The recording of a log whose window opens and closes at these positions. */
  ghost function RecordedWithin(limits: Limits, rows: seq<Row>, start: nat, stop: nat): Recording
    requires |rows| > 0
  {
    var n, window := |rows|, Elapsed(rows, start, stop);
    Recording(
      limits, NoObservations(rows), if At(rows, 0, IsWarmupStart()) then Some(Elapsed(rows, 0, start)) else None,
      window, Elapsed(rows, stop, n - 1), Elapsed(rows, 0, n - 1),
      RecordedPhases(rows, start, stop, window),
      map[Warmup := RecordedCohort(rows, Warmup, start), Measurement := RecordedCohort(rows, Measurement, start)],
      Number(n, Are(rows, IsBalance())),
      map[Warming := ChecksBetween(rows, -1, start), Measuring := ChecksBetween(rows, start, stop),
          Draining := ChecksBetween(rows, stop, n)])
  }

  /** The recording of a well-formed log. */
  ghost function Recorded(limits: Limits, rows: seq<Row>): Recording
    requires |rows| > 0
  {
    RecordedWithin(limits, rows, StartOf(rows), StopOf(rows))
  }
}
