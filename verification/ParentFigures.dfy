/** Every figure that the parent replay carries is the one that the row positions determine. */
module ParentFigures {
  import opened Wrappers
  import opened Clock
  import opened Recorder
  import opened ParentTrace
  import opened ParentPositions
  import opened ParentPlaces
  import opened Positions

  // ---- groups --------------------------------------------------------------------------------

  ghost function GroupAt(rows: seq<Row>, n: nat, c: Cohort, p: Phase): Group {
    Group(Number(n, Begins(rows, c, p)), Number(n, Terminals(rows, c, p)),
          Number(n, TerminalsAs(rows, c, p, Succeeded)), Number(n, TerminalsAs(rows, c, p, Rejected)),
          LiveOf(rows, n, c, p), Highest(0, n, Level(rows, c, p)))
  }

  lemma {:induction false} GroupNone(rows: seq<Row>, c: Cohort, p: Phase)
    ensures GroupAt(rows, 0, c, p) == NO_GROUP
  {
    NumberNone(Begins(rows, c, p));
    NumberNone(Terminals(rows, c, p));
    NumberNone(TerminalsAs(rows, c, p, Succeeded));
    NumberNone(TerminalsAs(rows, c, p, Rejected));
  }

  lemma {:induction false} LevelNext(rows: seq<Row>, k: nat, c: Cohort, p: Phase)
    ensures LiveOf(rows, k + 1, c, p) ==
              LiveOf(rows, k, c, p) + One(BeginsIn(rows, k, c, p)) - One(EndsIn(rows, k, c, p))
  {
    NumberNext(k, Begins(rows, c, p));
    NumberNext(k, Terminals(rows, c, p));
  }

  lemma {:induction false} GroupNext(rows: seq<Row>, k: nat, c: Cohort, p: Phase)
    requires k < |rows|
    ensures var now := GroupAt(rows, k, c, p);
            GroupAt(rows, k + 1, c, p) ==
              if BeginsIn(rows, k, c, p) then now.Enter()
              else if EndsIn(rows, k, c, p) then now.Leave(rows[k].event.outcome) else now
  {
    LevelNext(rows, k, c, p);
    HighestNext(k, Level(rows, c, p));
    NumberNext(k, Begins(rows, c, p));
    NumberNext(k, Terminals(rows, c, p));
    NumberNext(k, TerminalsAs(rows, c, p, Succeeded));
    NumberNext(k, TerminalsAs(rows, c, p, Rejected));
  }

  lemma {:induction false} GroupIs(limits: Limits, rows: seq<Row>, n: nat, c: Cohort, p: Phase)
    requires n <= |rows| && SoundBelow(limits, rows, n)
    ensures GroupOf(rows[..n], c, p) == GroupAt(rows, n, c, p)
  {
    if n == 0 {
      GroupNone(rows, c, p);
    } else {
      var k: nat := n - 1;
      assert k + 1 == n;
      PrefixNext(rows, k);
      GroupIs(limits, rows, k, c, p);
      SettlesIs(limits, rows, k, c, p);
      GroupNext(rows, k, c, p);
    }
  }

  // ---- phases --------------------------------------------------------------------------------

  ghost predicate EndsPhase(rows: seq<Row>, k: nat, p: Phase) {
    EndsIn(rows, k, Warmup, p) || EndsIn(rows, k, Measurement, p)
  }

  ghost predicate BeginsPhase(rows: seq<Row>, k: nat, p: Phase) {
    BeginsIn(rows, k, Warmup, p) || BeginsIn(rows, k, Measurement, p)
  }

  lemma {:induction false} CohortEnds(limits: Limits, rows: seq<Row>, k: nat, p: Phase)
    requires k < |rows| && SoundBelow(limits, rows, k + 1)
    ensures !(EndsIn(rows, k, Warmup, p) && EndsIn(rows, k, Measurement, p))
    ensures Settles(Open(rows[..k]), rows[k].event, p) <==> EndsPhase(rows, k, p)
  {
    SettlesIs(limits, rows, k, Warmup, p);
    SettlesIs(limits, rows, k, Measurement, p);
  }

  lemma {:induction false} PhaseNext(limits: Limits, rows: seq<Row>, k: nat, p: Phase)
    requires k < |rows| && SoundBelow(limits, rows, k + 1)
    ensures EnteredIn(rows, k + 1, p) == EnteredIn(rows, k, p) + One(BeginsPhase(rows, k, p))
    ensures LiveIn(rows, k + 1, p) == LiveIn(rows, k, p) + One(BeginsPhase(rows, k, p)) - One(EndsPhase(rows, k, p))
  {
    CohortEnds(limits, rows, k, p);
    LevelNext(rows, k, Warmup, p);
    LevelNext(rows, k, Measurement, p);
    NumberNext(k, Begins(rows, Warmup, p));
    NumberNext(k, Begins(rows, Measurement, p));
  }

  ghost predicate FlowTold(rows: seq<Row>, n: nat, p: Phase) {
    && n <= |rows|
    && var flow := FlowOf(rows[..n], p);
       && flow.entered == EnteredIn(rows, n, p) && flow.active == LiveIn(rows, n, p)
       && flow.peak == Highest(0, n, PhaseLevel(rows, p))
  }

  lemma {:induction false} FlowStart(rows: seq<Row>, p: Phase)
    ensures FlowTold(rows, 0, p)
  {
    GroupNone(rows, Warmup, p);
    GroupNone(rows, Measurement, p);
  }

  lemma {:induction false} FlowNext(limits: Limits, rows: seq<Row>, k: nat, p: Phase)
    requires k < |rows| && SoundBelow(limits, rows, k + 1) && FlowTold(rows, k, p)
    ensures FlowTold(rows, k + 1, p)
  {
    PrefixNext(rows, k);
    CohortEnds(limits, rows, k, p);
    PhaseNext(limits, rows, k, p);
    HighestNext(k, PhaseLevel(rows, p));
  }

  /** Entries, live observations and the peak of a phase. */
  lemma {:induction false} FlowIs(limits: Limits, rows: seq<Row>, n: nat, p: Phase)
    requires n <= |rows| && SoundBelow(limits, rows, n)
    ensures FlowTold(rows, n, p)
  {
    if n == 0 {
      FlowStart(rows, p);
    } else {
      var k: nat := n - 1;
      assert k + 1 == n;
      FlowIs(limits, rows, k, p);
      FlowNext(limits, rows, k, p);
    }
  }

  lemma {:induction false} WindowHighestNext(s: nat, k: nat, level: nat -> int)
    requires s < k
    ensures Highest(s + 1, k + 1, level) == Max(Highest(s + 1, k, level), level(k + 1))
    ensures level(k) <= Highest(s + 1, k, level)
  {
    HighestMeaning(s + 1, k, level);
  }

  /** How one row moves the window peak. */
  lemma {:induction false} WindowPeakNext(limits: Limits, rows: seq<Row>, k: nat, p: Phase)
    requires k < |rows| && SoundBelow(limits, rows, k + 1)
    ensures FlowOf(rows[..k + 1], p).windowPeak ==
              if At(rows, k, IsStart()) then LiveIn(rows, k, p)
              else if BeginsPhase(rows, k, p) && StageAt(rows, k) == Measuring
                then Max(FlowOf(rows[..k], p).windowPeak, LiveIn(rows, k, p) + 1)
              else FlowOf(rows[..k], p).windowPeak
  {
    PrefixNext(rows, k);
    FlowIs(limits, rows, k, p);
    StageIs(limits, rows, k);
  }

  lemma {:induction false} PeakMoves(before: int, live: int, begins: bool, ends: bool)
    requires live <= before && !(begins && ends)
    ensures (if begins then Max(before, live + 1) else before) == Max(before, live + One(begins) - One(ends))
  {
  }

  /** The window peak after n rows. */
  ghost function WindowPeak(rows: seq<Row>, n: nat, p: Phase): int
    requires n <= |rows|
  {
    FlowOf(rows[..n], p).windowPeak
  }

  lemma {:induction false} WindowPeakMeasures(limits: Limits, rows: seq<Row>, s: nat, k: nat, p: Phase)
    requires s < k < |rows| && SoundBelow(limits, rows, k + 1) && StageAt(rows, k) == Measuring
    requires !At(rows, k, IsStart()) && WindowPeak(rows, k, p) == Highest(s + 1, k, PhaseLevel(rows, p))
    ensures WindowPeak(rows, k + 1, p) == Highest(s + 1, k + 1, PhaseLevel(rows, p))
  {
    var before := Highest(s + 1, k, PhaseLevel(rows, p));
    WindowPeakNext(limits, rows, k, p);
    PhaseNext(limits, rows, k, p);
    CohortEnds(limits, rows, k, p);
    WindowHighestNext(s, k, PhaseLevel(rows, p));
    PeakMoves(before, LiveIn(rows, k, p), BeginsPhase(rows, k, p), EndsPhase(rows, k, p));
  }

  /** While measuring, the window peak is the highest level since the window opened. */
  lemma {:induction false} WindowPeakIs(limits: Limits, rows: seq<Row>, s: nat, n: nat, p: Phase)
    requires n <= |rows| && SoundBelow(limits, rows, n) && s < n && OnlyAt(rows, s, IsStart())
    requires !Before(rows, n, IsStop())
    ensures FlowOf(rows[..n], p).windowPeak == Highest(s + 1, n, PhaseLevel(rows, p))
  {
    var k: nat := n - 1;
    assert k + 1 == n;
    if s < k {
      BeforeNext(rows, k, IsStop());
      WindowPeakIs(limits, rows, s, k, p);
      assert At(rows, s, IsStart()) && !At(rows, k, IsStart());
      WindowPeakMeasures(limits, rows, s, k, p);
    } else {
      WindowPeakNext(limits, rows, k, p);
      PhaseNext(limits, rows, k, p);
    }
  }

  /** After the stop it stays. */
  lemma {:induction false} WindowPeakStays(limits: Limits, rows: seq<Row>, s: nat, t: nat, n: nat, p: Phase)
    requires n <= |rows| && SoundBelow(limits, rows, n) && s < t < n
    requires OnlyAt(rows, s, IsStart()) && OnlyAt(rows, t, IsStop())
    ensures FlowOf(rows[..n], p).windowPeak == Highest(s + 1, t, PhaseLevel(rows, p))
  {
    var k: nat := n - 1;
    assert k + 1 == n;
    WindowPeakNext(limits, rows, k, p);
    assert !At(rows, k, IsStart());
    if t < k {
      WindowPeakStays(limits, rows, s, t, k, p);
      assert At(rows, t, IsStop());
    } else {
      assert !BeginsPhase(rows, k, p);
      WindowPeakIs(limits, rows, s, t, p);
    }
  }

  // ---- snapshots and tallies -------------------------------------------------------------------

  lemma {:induction false} LiveAtIs(limits: Limits, rows: seq<Row>, s: nat, n: nat, c: Cohort, p: Phase,
                                    kind: Event -> bool)
    requires n <= |rows| && SoundBelow(limits, rows, n) && s < n && OnlyAt(rows, s, kind)
    ensures LiveAt(rows[..n], c, p, kind) == LiveOf(rows, s, c, p)
  {
    var k: nat := n - 1;
    assert k + 1 == n;
    PrefixNext(rows, k);
    if s < k {
      LiveAtIs(limits, rows, s, k, c, p, kind);
      assert !At(rows, k, kind);
    } else {
      GroupIs(limits, rows, k, c, p);
    }
  }

  /** Those of the rows that stand in the given stage. */
  ghost function InStage(rows: seq<Row>, when: nat -> bool, stage: Stage): nat -> bool {
    (k: nat) => StageAt(rows, k) == stage && when(k)
  }

  ghost function TallyAt(rows: seq<Row>, n: nat, c: Cohort, p: Phase, stage: Stage): Tally {
    Tally(Number(n, InStage(rows, Terminals(rows, c, p), stage)),
          Number(n, InStage(rows, TerminalsAs(rows, c, p, Succeeded), stage)),
          Number(n, InStage(rows, TerminalsAs(rows, c, p, Rejected), stage)))
  }

  lemma {:induction false} TallyStart(rows: seq<Row>, c: Cohort, p: Phase, stage: Stage)
    ensures TallyOf(rows[..0], c, p, stage) == TallyAt(rows, 0, c, p, stage)
  {
    NumberNone(InStage(rows, Terminals(rows, c, p), stage));
    NumberNone(InStage(rows, TerminalsAs(rows, c, p, Succeeded), stage));
    NumberNone(InStage(rows, TerminalsAs(rows, c, p, Rejected), stage));
  }

  lemma {:induction false} TallyNext(limits: Limits, rows: seq<Row>, k: nat, c: Cohort, p: Phase, stage: Stage)
    requires k < |rows| && SoundBelow(limits, rows, k + 1)
    requires TallyOf(rows[..k], c, p, stage) == TallyAt(rows, k, c, p, stage)
    ensures TallyOf(rows[..k + 1], c, p, stage) == TallyAt(rows, k + 1, c, p, stage)
  {
    PrefixNext(rows, k);
    SettlesIs(limits, rows, k, c, p);
    StageIs(limits, rows, k);
    NumberNext(k, InStage(rows, Terminals(rows, c, p), stage));
    NumberNext(k, InStage(rows, TerminalsAs(rows, c, p, Succeeded), stage));
    NumberNext(k, InStage(rows, TerminalsAs(rows, c, p, Rejected), stage));
  }

  lemma {:induction false} TallyIs(limits: Limits, rows: seq<Row>, n: nat, c: Cohort, p: Phase, stage: Stage)
    requires n <= |rows| && SoundBelow(limits, rows, n)
    ensures TallyOf(rows[..n], c, p, stage) == TallyAt(rows, n, c, p, stage)
  {
    if n == 0 {
      TallyStart(rows, c, p, stage);
    } else {
      var k: nat := n - 1;
      assert k + 1 == n;
      TallyIs(limits, rows, k, c, p, stage);
      TallyNext(limits, rows, k, c, p, stage);
    }
  }

  lemma {:induction false} ChecksIs(limits: Limits, rows: seq<Row>, n: nat, stage: Stage)
    requires n <= |rows| && SoundBelow(limits, rows, n)
    ensures ChecksIn(rows[..n], stage) == Number(n, InStage(rows, Are(rows, IsBalance()), stage))
  {
    var checks := InStage(rows, Are(rows, IsBalance()), stage);
    if n == 0 {
      NumberNone(checks);
    } else {
      var k: nat := n - 1;
      assert k + 1 == n;
      PrefixNext(rows, k);
      ChecksIs(limits, rows, k, stage);
      StageIs(limits, rows, k);
      NumberNext(k, checks);
    }
  }

  // ---- latencies, spans and balances -------------------------------------------------------------

  lemma {:induction false} SamplesIs(limits: Limits, rows: seq<Row>, n: nat, c: Cohort, p: Phase)
    requires n <= |rows| && SoundBelow(limits, rows, n)
    ensures SamplesOf(rows[..n], c, p).all == Values(n, Terminals(rows, c, p), Latency(rows))
    ensures SamplesOf(rows[..n], c, p).success == Values(n, TerminalsAs(rows, c, p, Succeeded), Latency(rows))
  {
    if n > 0 {
      var k: nat := n - 1;
      assert k + 1 == n;
      PrefixNext(rows, k);
      SamplesIs(limits, rows, k, c, p);
      SettlesIs(limits, rows, k, c, p);
    }
  }

  /** A row ticks the span of a cohort exactly when it begins or ends one of its observations. */
  lemma {:induction false} TouchesIs(limits: Limits, rows: seq<Row>, k: nat, c: Cohort)
    requires k < |rows| && SoundBelow(limits, rows, k + 1)
    ensures var event, open := rows[k].event, Open(rows[..k]);
            Touches(rows, k, c) <==>
              (event.Begin? && event.cohort == c)
              || (event.Finish? && event.observation in open && open[event.observation].cohort == c)
  {
    var event, open := rows[k].event, Open(rows[..k]);
    forall p: Phase {
      SettlesIs(limits, rows, k, c, p);
    }
    if event.Begin? && event.cohort == c {
      assert BeginsIn(rows, k, c, event.phase);
    }
    if event.Finish? && event.observation in open && open[event.observation].cohort == c {
      assert SettlesIn(open, event, c, open[event.observation].phase);
      assert EndsIn(rows, k, c, open[event.observation].phase);
    }
  }

  lemma {:induction false} SpanIs(limits: Limits, rows: seq<Row>, n: nat, c: Cohort)
    requires n <= |rows| && SoundBelow(limits, rows, n)
    ensures SpanSound(MetaOf(rows[..n], c).span, n, TouchesOf(rows, c), Reading(rows))
  {
    if n > 0 {
      var k: nat := n - 1;
      assert k + 1 == n;
      PrefixNext(rows, k);
      SpanIs(limits, rows, k, c);
      TouchesIs(limits, rows, k, c);
      SpanTicks(MetaOf(rows[..k], c).span, k, TouchesOf(rows, c), Reading(rows));
    }
  }

  ghost predicate ChecksFor(rows: seq<Row>, k: nat, c: Cohort) {
    At(rows, k, IsBalance()) && CohortOf(StageAt(rows, k)) == c
  }

  ghost function ChecksOf(rows: seq<Row>, c: Cohort): nat -> bool {
    (k: nat) => ChecksFor(rows, k, c)
  }

  lemma {:induction false} BalancesIs(limits: Limits, rows: seq<Row>, n: nat, c: Cohort)
    requires n <= |rows| && SoundBelow(limits, rows, n)
    ensures MetaOf(rows[..n], c).balances == Number(n, ChecksOf(rows, c))
  {
    if n == 0 {
      NumberNone(ChecksOf(rows, c));
    } else {
      var k: nat := n - 1;
      assert k + 1 == n;
      PrefixNext(rows, k);
      BalancesIs(limits, rows, k, c);
      StageIs(limits, rows, k);
      NumberNext(k, ChecksOf(rows, c));
    }
  }
}
