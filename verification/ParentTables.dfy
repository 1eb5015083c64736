/** The tables that the parent checker updates in place, after each prefix of the rows. */
module ParentTables {
  import opened Wrappers
  import opened Clock
  import opened Recorder
  import opened ParentTrace
  import L = ParentLaws

  /** One value per phase. */
  datatype PerPhase<T> = PerPhase(funding: T, call: T, ledger: T) {
    function Get(p: Phase): T {
      match p case Funding => funding case FundedCall => call case LedgerTransaction => ledger
    }

    function Set(p: Phase, value: T): PerPhase<T> {
      match p
      case Funding => this.(funding := value)
      case FundedCall => this.(call := value)
      case LedgerTransaction => this.(ledger := value)
    }
  }

  /** One value per cohort. */
  datatype PerCohort<T> = PerCohort(warmup: T, measurement: T) {
    function Get(c: Cohort): T {
      match c case Warmup => warmup case Measurement => measurement
    }

    function Set(c: Cohort, value: T): PerCohort<T> {
      match c case Warmup => this.(warmup := value) case Measurement => this.(measurement := value)
    }
  }

  type Table<T> = PerCohort<PerPhase<T>>

  function Cell<T>(table: Table<T>, c: Cohort, p: Phase): T {
    table.Get(c).Get(p)
  }

  function Write<T>(table: Table<T>, c: Cohort, p: Phase, value: T): Table<T> {
    table.Set(c, table.Get(c).Set(p, value))
  }

  function Same<T>(value: T): PerPhase<T> {
    PerPhase(value, value, value)
  }

  function Blank<T>(value: T): Table<T> {
    PerCohort(Same(value), Same(value))
  }

  // ---- the tables after a prefix of the rows -----------------------------------------------------

  /** The readings of the boundaries, and the stage they lead to. */
  datatype Bounds = Bounds(
    stage: Stage, runStart: Option<int>, warmupStart: Option<int>, start: Option<int>, stop: Option<int>,
    ended: Option<int>, previous: Option<int>)

  /** Counters by phase and cohort. */
  datatype Counters = Counters(flows: PerPhase<Flow>, groups: Table<Group>, samples: Table<Samples>, lives: Table<int>)

  /** Live counts at the two boundaries, and terminals between and after them. */
  datatype Window = Window(atStart: Table<int>, atStop: Table<int>, inside: Table<Tally>, after: Table<Tally>)

  /** Clock spans and balance checks. */
  datatype Checks = Checks(metas: PerCohort<Meta>, balances: int, warming: int, measuring: int, draining: int)

  const NO_BOUNDS := Bounds(Created, None, None, None, None, None, None)
  const NO_COUNTERS := Counters(Same(NO_FLOW), Blank(NO_GROUP), Blank(NO_SAMPLES), Blank(0))
  const NO_WINDOW := Window(Blank(0), Blank(0), Blank(NO_TALLY), Blank(NO_TALLY))
  const NO_CHECKS := Checks(PerCohort(NO_META, NO_META), 0, 0, 0, 0)

  function BoundsAfter(b: Bounds, event: Event): Bounds {
    var at := event.at;
    var now := b.(previous := Some(at));
    match event
    case StartWarmup(_) => now.(stage := Warming, warmupStart := Some(at), runStart := Some(at))
    case StartMeasurement(_) => now.(stage := Measuring, start := Some(at), runStart := if b.runStart.None?
      then Some(at) else b.runStart)
    case StopMeasurement(_) => now.(stage := Draining, stop := Some(at))
    case Finalize(_) => now.(ended := Some(at))
    case _ => now
  }

  ghost function BoundsOf(rows: seq<Row>): Bounds {
    if |rows| == 0 then NO_BOUNDS else BoundsAfter(BoundsOf(rows[..|rows| - 1]), rows[|rows| - 1].event)
  }

  function CountersAfter(n: Counters, stage: Stage, open: map<int, Begun>, event: Event): Counters {
    match event
    case StartMeasurement(_) =>
      n.(flows := PerPhase(n.flows.funding.OpenWindow(), n.flows.call.OpenWindow(), n.flows.ledger.OpenWindow()))
    case Begin(_, p, c, _) =>
      Counters(n.flows.Set(p, n.flows.Get(p).Enter(stage)), Write(n.groups, c, p, Cell(n.groups, c, p).Enter()),
               n.samples, Write(n.lives, c, p, Cell(n.lives, c, p) + 1))
    case Finish(o, outcome, at) =>
      if o !in open then n else
        var p, c := open[o].phase, open[o].cohort;
        Counters(n.flows.Set(p, n.flows.Get(p).Leave()), Write(n.groups, c, p, Cell(n.groups, c, p).Leave(outcome)),
                 Write(n.samples, c, p, Cell(n.samples, c, p).Add(at - open[o].at, outcome)),
                 Write(n.lives, c, p, Cell(n.lives, c, p) - 1))
    case _ => n
  }

  ghost function CountersOf(rows: seq<Row>): Counters {
    if |rows| == 0 then NO_COUNTERS else
      var init := rows[..|rows| - 1];
      CountersAfter(CountersOf(init), StageOf(init), Open(init), rows[|rows| - 1].event)
  }

  function WindowAfter(w: Window, lives: Table<int>, stage: Stage, open: map<int, Begun>, event: Event): Window {
    match event
    case StartMeasurement(_) => w.(atStart := lives)
    case StopMeasurement(_) => w.(atStop := lives)
    case Finish(o, outcome, _) =>
      if o in open && stage == Measuring then
        w.(inside := Write(w.inside, open[o].cohort, open[o].phase,
          Cell(w.inside, open[o].cohort, open[o].phase).Add(outcome)))
      else if o in open && stage == Draining then
        w.(after := Write(w.after, open[o].cohort, open[o].phase,
          Cell(w.after, open[o].cohort, open[o].phase).Add(outcome)))
      else w
    case _ => w
  }

  ghost function WindowOf(rows: seq<Row>): Window {
    if |rows| == 0 then NO_WINDOW else
      var init := rows[..|rows| - 1];
      WindowAfter(WindowOf(init), CountersOf(init).lives, StageOf(init), Open(init), rows[|rows| - 1].event)
  }

  /** The row ticks the span of the cohort. */
  function Ticked(metas: PerCohort<Meta>, c: Cohort, at: int): PerCohort<Meta> {
    metas.Set(c, metas.Get(c).(span := metas.Get(c).span.Tick(at)))
  }

  function ChecksAfter(k: Checks, stage: Stage, open: map<int, Begun>, event: Event): Checks {
    match event
    case Begin(_, _, c, at) => k.(metas := Ticked(k.metas, c, at))
    case Finish(o, _, at) => if o in open then k.(metas := Ticked(k.metas, open[o].cohort, at)) else k
    case BalanceCheck(_, _) =>
      var meta := k.metas.Get(CohortOf(stage));
      Checks(k.metas.Set(CohortOf(stage), meta.(balances := meta.balances + 1)), k.balances + 1,
             if stage == Warming then k.warming + 1 else k.warming,
             if stage == Measuring then k.measuring + 1 else k.measuring,
             if stage == Draining then k.draining + 1 else k.draining)
    case _ => k
  }

  ghost function ChecksOf(rows: seq<Row>): Checks {
    if |rows| == 0 then NO_CHECKS else
      var init := rows[..|rows| - 1];
      ChecksAfter(ChecksOf(init), StageOf(init), Open(init), rows[|rows| - 1].event)
  }

  // ---- each cell is the counter of its own phase and cohort ----------------------------------------

  lemma {:induction false} BoundsCell(limits: Limits, rows: seq<Row>, total: nat)
    requires L.Admitted(limits, rows, total)
    ensures var b := BoundsOf(rows);
            && b.stage == StageOf(rows) && b.warmupStart == Latest(rows, IsWarmupStart())
               && b.start == Latest(rows, IsStart())
            && b.stop == Latest(rows, IsStop()) && b.ended == Latest(rows, IsFinalize())
            && b.previous == (if |rows| == 0 then None else Some(rows[|rows| - 1].event.at))
            && b.runStart == L.RunStart(rows)
  {
    if |rows| > 0 {
      BoundsCell(limits, rows[..|rows| - 1], total);
      if |rows| > 1 {
        L.BoundaryOrder(limits, rows[..|rows| - 1], total);
      }
    }
  }

  lemma {:induction false} FlowCell(rows: seq<Row>, p: Phase)
    ensures CountersOf(rows).flows.Get(p) == FlowOf(rows, p)
  {
    if |rows| > 0 {
      FlowCell(rows[..|rows| - 1], p);
    }
  }

  lemma {:induction false} GroupCell(rows: seq<Row>, c: Cohort, p: Phase)
    ensures Cell(CountersOf(rows).groups, c, p) == GroupOf(rows, c, p)
  {
    if |rows| > 0 {
      GroupCell(rows[..|rows| - 1], c, p);
    }
  }

  lemma {:induction false} LivesMove(n: Counters, stage: Stage, open: map<int, Begun>, event: Event, c: Cohort,
                                     p: Phase, group: Group)
    requires Cell(n.lives, c, p) == group.active
    ensures Cell(CountersAfter(n, stage, open, event).lives, c, p) == GroupAfter(group, open, event, c, p).active
  {
  }

  lemma {:induction false} LiveCell(rows: seq<Row>, c: Cohort, p: Phase)
    ensures Cell(CountersOf(rows).lives, c, p) == GroupOf(rows, c, p).active
  {
    if |rows| > 0 {
      var init := rows[..|rows| - 1];
      LiveCell(init, c, p);
      LivesMove(CountersOf(init), StageOf(init), Open(init), rows[|rows| - 1].event, c, p, GroupOf(init, c, p));
    }
  }

  lemma {:induction false} SamplesCell(rows: seq<Row>, c: Cohort, p: Phase)
    ensures Cell(CountersOf(rows).samples, c, p) == SamplesOf(rows, c, p)
  {
    if |rows| > 0 {
      SamplesCell(rows[..|rows| - 1], c, p);
    }
  }

  lemma {:induction false} WindowCell(rows: seq<Row>, c: Cohort, p: Phase)
    ensures Cell(WindowOf(rows).atStart, c, p) == LiveAt(rows, c, p, IsStart())
    ensures Cell(WindowOf(rows).atStop, c, p) == LiveAt(rows, c, p, IsStop())
  {
    if |rows| > 0 {
      LiveCell(rows[..|rows| - 1], c, p);
      WindowCell(rows[..|rows| - 1], c, p);
    }
  }

  lemma {:induction false} InsideCell(rows: seq<Row>, c: Cohort, p: Phase)
    ensures Cell(WindowOf(rows).inside, c, p) == TallyOf(rows, c, p, Measuring)
  {
    if |rows| > 0 {
      InsideCell(rows[..|rows| - 1], c, p);
    }
  }

  lemma {:induction false} AfterCell(rows: seq<Row>, c: Cohort, p: Phase)
    ensures Cell(WindowOf(rows).after, c, p) == TallyOf(rows, c, p, Draining)
  {
    if |rows| > 0 {
      AfterCell(rows[..|rows| - 1], c, p);
    }
  }

  lemma {:induction false} ChecksCell(rows: seq<Row>, c: Cohort)
    ensures var k := ChecksOf(rows);
            && k.metas.Get(c) == MetaOf(rows, c) && k.balances == Count(rows, IsBalance())
            && k.warming == ChecksIn(rows, Warming) && k.measuring == ChecksIn(rows, Measuring)
               && k.draining == ChecksIn(rows, Draining)
  {
    if |rows| > 0 {
      ChecksCell(rows[..|rows| - 1], c);
    }
  }
}
