/** The parent checker accepts exactly the well-formed logs, each with the one recording that the positions of
    its rows determine. */
module ParentExact {
  import opened Wrappers
  import opened Clock
  import opened Counting
  import opened Recorder
  import opened Percentiles
  import opened ParentTrace
  import opened ParentPositions
  import opened ParentPlaces
  import opened ParentFigures
  import opened Positions
  import L = ParentLaws

  // ---- acceptance ------------------------------------------------------------------------------

  lemma {:induction false} SoundNext(limits: Limits, rows: seq<Row>, k: nat)
    requires k < |rows|
    ensures SoundBelow(limits, rows, k + 1) <==> SoundBelow(limits, rows, k) && RowSound(limits, rows, k)
  {
  }

  lemma {:induction false} ClockIs(limits: Limits, rows: seq<Row>, k: nat)
    requires k < |rows| && SoundBelow(limits, rows, k)
    ensures (forall j: nat :: j < k ==> rows[j].event.at <= rows[k].event.at)
            <==> (k > 0 ==> rows[k - 1].event.at <= rows[k].event.at)
  {
    if k > 0 {
      var last: nat := k - 1;
      assert RowSound(limits, rows, last);
    }
  }

  /** No row before the last one is FINALIZE. */
  lemma {:induction false} NotFinalized(limits: Limits, rows: seq<Row>, k: nat)
    requires k < |rows| && SoundBelow(limits, rows, k)
    ensures Latest(rows[..k], IsFinalize()).None?
  {
    LatestIs(rows, k, IsFinalize());
    forall j: nat | j < k ensures !At(rows, j, IsFinalize()) {
      assert RowSound(limits, rows, j);
    }
  }

  ghost predicate EventMet(limits: Limits, rows: seq<Row>, k: nat)
    requires k < |rows|
  {
    AdmitEvent(limits, rows[..k], rows[k].event, k + 1 == |rows|).Met?
  }

  lemma {:induction false} StopMet(limits: Limits, rows: seq<Row>, k: nat)
    requires k < |rows| && SoundBelow(limits, rows, k) && rows[k].event.StopMeasurement?
    ensures EventMet(limits, rows, k) <==> EventSound(limits, rows, k)
  {
    StageIs(limits, rows, k);
    LatestIs(rows, k, IsStart());
    if Before(rows, k, IsStart()) {
      var j: nat :| IsLatest(rows, k, IsStart(), j) && Latest(rows[..k], IsStart()).value == rows[j].event.at;
      forall s: nat | s < k && rows[s].event.StartMeasurement? ensures s == j {
        assert At(rows, s, IsStart()) && RowSound(limits, rows, j) && RowSound(limits, rows, s);
      }
    } else {
      forall s: nat | s < k ensures !rows[s].event.StartMeasurement? {
        assert !At(rows, s, IsStart());
      }
    }
  }

  lemma {:induction false} StartMet(limits: Limits, rows: seq<Row>, k: nat)
    requires k < |rows| && SoundBelow(limits, rows, k)
    requires rows[k].event.StartWarmup? || rows[k].event.StartMeasurement?
    ensures EventMet(limits, rows, k) <==> EventSound(limits, rows, k)
  {
    StageIs(limits, rows, k);
    if Before(rows, k, IsStop()) {
      StopAfterStart(limits, rows, k);
    }
  }

  lemma {:induction false} BeginMet(limits: Limits, rows: seq<Row>, k: nat)
    requires k < |rows| && SoundBelow(limits, rows, k) && rows[k].event.Begin?
    ensures EventMet(limits, rows, k) <==> EventSound(limits, rows, k)
  {
    StageIs(limits, rows, k);
    CountIs(rows, k, IsBegin());
    FlowIs(limits, rows, k, rows[k].event.phase);
  }

  lemma {:induction false} FinishMet(limits: Limits, rows: seq<Row>, k: nat)
    requires k < |rows| && SoundBelow(limits, rows, k) && rows[k].event.Finish?
    requires L.Admitted(limits, rows[..k], |rows|) && 0 <= limits.maxSamplesPerPhase
    ensures EventMet(limits, rows, k) <==> EventSound(limits, rows, k)
  {
    var o := rows[k].event.observation;
    OpenIs(limits, rows, k);
    if o in Open(rows[..k]) {
      L.FinishOrdinalNeverRefuses(limits, rows[..k], |rows|, o);
      var b: nat :| Unended(rows, k, b) && rows[b].event.observation == o;
      assert Ends(rows, b, k);
    }
    if EventSound(limits, rows, k) {
      var b: nat :| Ends(rows, b, k) && forall f: nat :: f < k ==> !Ends(rows, b, f);
      assert Unended(rows, k, b) && Holds(rows, b, Open(rows[..k]));
    }
  }

  lemma {:induction false} BalanceMet(limits: Limits, rows: seq<Row>, k: nat)
    requires k < |rows| && SoundBelow(limits, rows, k) && rows[k].event.BalanceCheck?
    ensures EventMet(limits, rows, k) <==> EventSound(limits, rows, k)
  {
    StageIs(limits, rows, k);
    CountIs(rows, k, IsBalance());
    if k == 0 {
      assert !Before(rows, k, IsStart()) && !Before(rows, k, IsStop());
    }
  }

  /** Everything begun is ended when nothing is live. */
  lemma {:induction false} DrainedIs(limits: Limits, rows: seq<Row>, k: nat)
    requires k <= |rows| && SoundBelow(limits, rows, k)
    ensures Open(rows[..k]) == map[] <==>
              forall b: nat :: b < k && rows[b].event.Begin? ==> exists f: nat :: f < k && Ends(rows, b, f)
  {
    OpenIs(limits, rows, k);
    var open := Open(rows[..k]);
    if open == map[] {
      forall b: nat | b < k && rows[b].event.Begin? ensures exists f: nat :: f < k && Ends(rows, b, f) {
        assert Unended(rows, k, b) ==> Holds(rows, b, open);
      }
    } else {
      var o := SomeKey(open);
      var b: nat :| Unended(rows, k, b) && rows[b].event.observation == o;
    }
  }

  lemma {:induction false} FinalizeMet(limits: Limits, rows: seq<Row>, k: nat)
    requires k < |rows| && SoundBelow(limits, rows, k) && rows[k].event.Finalize?
    ensures EventMet(limits, rows, k) <==> EventSound(limits, rows, k)
  {
    StageIs(limits, rows, k);
    DrainedIs(limits, rows, k);
  }

  /** After a sound beginning, a row is admitted exactly when it is sound. */
  lemma {:induction false} AdmitIs(limits: Limits, rows: seq<Row>, k: nat)
    requires k < |rows| && SoundBelow(limits, rows, k)
    requires L.Admitted(limits, rows[..k], |rows|) && 0 <= limits.maxSamplesPerPhase
    ensures Admit(limits, rows[..k], rows[k], |rows|).Met? <==> RowSound(limits, rows, k)
  {
    NotFinalized(limits, rows, k);
    ClockIs(limits, rows, k);
    match rows[k].event {
      case StartWarmup(_) => StartMet(limits, rows, k);
      case StartMeasurement(_) => StartMet(limits, rows, k);
      case StopMeasurement(_) => StopMet(limits, rows, k);
      case Begin(_, _, _, _) => BeginMet(limits, rows, k);
      case Finish(_, _, _) => FinishMet(limits, rows, k);
      case BalanceCheck(_, _) => BalanceMet(limits, rows, k);
      case Finalize(_) => FinalizeMet(limits, rows, k);
    }
  }

  lemma {:induction false} AdmitAllIs(limits: Limits, rows: seq<Row>, n: nat)
    requires n <= |rows| && 0 <= limits.maxSamplesPerPhase
    ensures L.Admitted(limits, rows[..n], |rows|) <==> SoundBelow(limits, rows, n)
  {
    if n > 0 {
      var k: nat := n - 1;
      assert k + 1 == n;
      PrefixNext(rows, k);
      AdmitAllIs(limits, rows, k);
      SoundNext(limits, rows, k);
      if SoundBelow(limits, rows, k) {
        AdmitIs(limits, rows, k);
      }
    }
  }

  /** The rows are admitted and the window is complete exactly when the log is well formed. */
  lemma {:induction false} AdmittedExactly(limits: Limits, rows: seq<Row>)
    requires 0 <= limits.maxSamplesPerPhase
    ensures L.Admitted(limits, rows, |rows|) && CompleteWindowRows(rows) <==> WellFormed(limits, rows)
  {
    var n := |rows|;
    assert rows[..n] == rows;
    AdmitAllIs(limits, rows, n);
    LatestIs(rows, n, IsFinalize());
    LatestIs(rows, n, IsStart());
    LatestIs(rows, n, IsStop());
    if SoundBelow(limits, rows, n) && Before(rows, n, IsFinalize()) {
      var j: nat :| j < n && At(rows, j, IsFinalize());
      assert RowSound(limits, rows, j);
    }
    if WellFormed(limits, rows) {
      var k: nat := n - 1;
      assert RowSound(limits, rows, k) && At(rows, k, IsFinalize());
      var t: nat :| t < k && At(rows, t, IsStop());
      assert Before(rows, n, IsStop());
      StopAfterStart(limits, rows, n);
    }
  }

  // ---- the recording ---------------------------------------------------------------------------

  lemma {:induction false} PlaceIs(rows: seq<Row>, kind: Event -> bool, k: nat)
    requires OnlyAt(rows, k, kind)
    ensures Place(rows, kind) == k
  {
  }

  /** Where the boundaries of a well-formed log are. */
  ghost predicate Boundaries(rows: seq<Row>, s: nat, t: nat) {
    && s < t < |rows| - 1 && OnlyAt(rows, s, IsStart()) && OnlyAt(rows, t, IsStop())
    && s == StartOf(rows) && t == StopOf(rows)
  }

  lemma {:induction false} BoundariesAre(limits: Limits, rows: seq<Row>) returns (s: nat, t: nat)
    requires WellFormed(limits, rows)
    ensures Boundaries(rows, s, t)
  {
    var n := |rows|;
    var k: nat := n - 1;
    assert RowSound(limits, rows, k);
    t :| t < k && At(rows, t, IsStop());
    assert RowSound(limits, rows, t);
    s :| s < t && rows[s].event.StartMeasurement? && rows[s].event.at < rows[t].event.at;
    assert At(rows, s, IsStart());
    forall j: nat | At(rows, j, IsStart()) ensures j == s {
      assert RowSound(limits, rows, j) && RowSound(limits, rows, s);
    }
    forall j: nat | At(rows, j, IsStop()) ensures j == t {
      assert RowSound(limits, rows, j);
    }
    PlaceIs(rows, IsStart(), s);
    PlaceIs(rows, IsStop(), t);
  }

  lemma {:induction false} LatestOnly(rows: seq<Row>, k: nat, kind: Event -> bool)
    requires OnlyAt(rows, k, kind)
    ensures Latest(rows, kind) == Some(rows[k].event.at)
  {
    assert rows[..|rows|] == rows;
    LatestIs(rows, |rows|, kind);
    assert Before(rows, |rows|, kind);
    var j: nat :| IsLatest(rows, |rows|, kind, j) && Latest(rows[..|rows|], kind).value == rows[j].event.at;
  }

  lemma {:induction false} StageBetween(rows: seq<Row>, s: nat, t: nat, k: nat)
    requires Boundaries(rows, s, t)
    ensures StageAt(rows, k) == Measuring <==> s < k <= t
    ensures StageAt(rows, k) == Draining <==> t < k
    ensures StageAt(rows, k) == Created <==> k == 0
  {
    assert At(rows, s, IsStart()) && At(rows, t, IsStop());
  }

  lemma {:induction false} TallyBetweenIs(rows: seq<Row>, s: nat, t: nat, c: Cohort, p: Phase)
    requires Boundaries(rows, s, t)
    ensures TallyAt(rows, |rows|, c, p, Measuring) == TallyBetween(rows, c, p, s, t)
    ensures TallyAt(rows, |rows|, c, p, Draining) == TallyBetween(rows, c, p, t, |rows|)
  {
    InStageIs(rows, s, t, Terminals(rows, c, p));
    InStageIs(rows, s, t, TerminalsAs(rows, c, p, Succeeded));
    InStageIs(rows, s, t, TerminalsAs(rows, c, p, Rejected));
  }

  lemma {:induction false} InStageIs(rows: seq<Row>, s: nat, t: nat, when: nat -> bool)
    requires Boundaries(rows, s, t) && !when(t)
    ensures Number(|rows|, InStage(rows, when, Measuring)) == Number(|rows|, Between(when, s, t))
    ensures Number(|rows|, InStage(rows, when, Draining)) == Number(|rows|, Between(when, t, |rows|))
  {
    forall k: nat {
      StageBetween(rows, s, t, k);
    }
    NumberSame(|rows|, InStage(rows, when, Measuring), Between(when, s, t));
    NumberSame(|rows|, InStage(rows, when, Draining), Between(when, t, |rows|));
  }

  /** Balance checks of each stage. */
  lemma {:induction false} StageChecksAre(limits: Limits, rows: seq<Row>, s: nat, t: nat)
    requires WellFormed(limits, rows) && Boundaries(rows, s, t)
    ensures ChecksIn(rows, Warming) == ChecksBetween(rows, -1, s)
    ensures ChecksIn(rows, Measuring) == ChecksBetween(rows, s, t)
    ensures ChecksIn(rows, Draining) == ChecksBetween(rows, t, |rows|)
  {
    var n, checks := |rows|, Are(rows, IsBalance());
    assert rows[..n] == rows;
    ChecksIs(limits, rows, n, Warming);
    ChecksIs(limits, rows, n, Measuring);
    ChecksIs(limits, rows, n, Draining);
    InStageIs(rows, s, t, checks);
    forall k: nat {
      StageBetween(rows, s, t, k);
    }
    assert RowSound(limits, rows, 0);
    NumberSame(n, InStage(rows, checks, Warming), Between(checks, -1, s));
  }

  /** Balance checks of each cohort. */
  lemma {:induction false} CohortChecksAre(limits: Limits, rows: seq<Row>, s: nat, t: nat)
    requires WellFormed(limits, rows) && Boundaries(rows, s, t)
    ensures MetaOf(rows, Warmup).balances == ChecksBetween(rows, -1, s)
    ensures MetaOf(rows, Measurement).balances == ChecksBetween(rows, s, |rows|)
  {
    var n, checks := |rows|, Are(rows, IsBalance());
    assert rows[..n] == rows;
    BalancesIs(limits, rows, n, Warmup);
    BalancesIs(limits, rows, n, Measurement);
    forall k: nat {
      StageBetween(rows, s, t, k);
    }
    assert RowSound(limits, rows, 0);
    NumberSame(n, ChecksOf(rows, Warmup), Between(checks, -1, s));
    NumberSame(n, ChecksOf(rows, Measurement), Between(checks, s, n));
  }

  lemma {:induction false} ChecksAre(limits: Limits, rows: seq<Row>, s: nat, t: nat)
    requires WellFormed(limits, rows) && Boundaries(rows, s, t)
    ensures ChecksIn(rows, Warming) == MetaOf(rows, Warmup).balances == ChecksBetween(rows, -1, s)
    ensures ChecksIn(rows, Measuring) == ChecksBetween(rows, s, t)
    ensures ChecksIn(rows, Draining) == ChecksBetween(rows, t, |rows|)
    ensures MetaOf(rows, Measurement).balances == ChecksBetween(rows, s, |rows|)
  {
    StageChecksAre(limits, rows, s, t);
    CohortChecksAre(limits, rows, s, t);
  }

  lemma {:induction false} GroupRecorded(limits: Limits, rows: seq<Row>, c: Cohort, p: Phase)
    requires WellFormed(limits, rows)
    ensures SummarizeGroup(GroupOf(rows, c, p), SamplesOf(rows, c, p)) == RecordedGroup(rows, c, p)
  {
    assert rows[..|rows|] == rows;
    GroupIs(limits, rows, |rows|, c, p);
    SamplesIs(limits, rows, |rows|, c, p);
  }

  lemma {:induction false} NoneBegun(limits: Limits, rows: seq<Row>, c: Cohort, p: Phase)
    requires WellFormed(limits, rows)
    ensures 0 <= GroupOf(rows, c, p).entered
    ensures GroupOf(rows, c, p).entered == 0 <==> NothingBegun(rows, c, p)
  {
    assert rows[..|rows|] == rows;
    GroupIs(limits, rows, |rows|, c, p);
    NumberZero(|rows|, Begins(rows, c, p));
    if GroupOf(rows, c, p).entered == 0 {
      forall k: nat ensures !BeginsIn(rows, k, c, p) {
        assert k < |rows| ==> !Begins(rows, c, p)(k);
      }
    }
  }

  /** A cohort is empty when it began nothing. */
  lemma {:induction false} EmptyIs(limits: Limits, rows: seq<Row>, c: Cohort)
    requires WellFormed(limits, rows)
    ensures var entries := GroupOf(rows, c, Funding).entered + GroupOf(rows, c, FundedCall).entered
                           + GroupOf(rows, c, LedgerTransaction).entered;
            entries == 0 <==> forall p: Phase :: NothingBegun(rows, c, p)
  {
    NoneBegun(limits, rows, c, Funding);
    NoneBegun(limits, rows, c, FundedCall);
    NoneBegun(limits, rows, c, LedgerTransaction);
  }

  lemma {:induction false} CohortRecorded(limits: Limits, rows: seq<Row>, c: Cohort, s: nat, t: nat)
    requires WellFormed(limits, rows) && Boundaries(rows, s, t)
    ensures SummarizeCohort(rows, c) == RecordedCohort(rows, c, s)
  {
    assert rows[..|rows|] == rows;
    forall p: Phase {
      GroupRecorded(limits, rows, c, p);
    }
    EmptyIs(limits, rows, c);
    SpanIs(limits, rows, |rows|, c);
    SpanExtent(MetaOf(rows, c).span, |rows|, TouchesOf(rows, c), Reading(rows));
    ChecksAre(limits, rows, s, t);
  }

  lemma {:induction false} TallyRecorded(limits: Limits, rows: seq<Row>, c: Cohort, p: Phase, s: nat, t: nat)
    requires WellFormed(limits, rows) && Boundaries(rows, s, t)
    ensures TallyHolds(rows, c, p, s, t)
  {
    assert rows[..|rows|] == rows;
    TallyIs(limits, rows, |rows|, c, p, Measuring);
    TallyIs(limits, rows, |rows|, c, p, Draining);
    TallyBetweenIs(rows, s, t, c, p);
  }

  ghost predicate LevelsHold(rows: seq<Row>, p: Phase, s: nat, t: nat) {
    var flow, n := FlowOf(rows, p), |rows|;
    && flow.entered == EnteredIn(rows, n, p) && flow.peak == Highest(0, n, PhaseLevel(rows, p))
    && flow.windowPeak == Highest(s + 1, t, PhaseLevel(rows, p))
    && LiveAt(rows, Warmup, p, IsStart()) == LiveOf(rows, s, Warmup, p)
    && LiveAt(rows, Warmup, p, IsStop()) == LiveOf(rows, t, Warmup, p)
    && LiveAt(rows, Measurement, p, IsStop()) == LiveOf(rows, t, Measurement, p)
  }

  lemma {:induction false} LevelsRecorded(limits: Limits, rows: seq<Row>, p: Phase, s: nat, t: nat)
    requires WellFormed(limits, rows) && Boundaries(rows, s, t)
    ensures LevelsHold(rows, p, s, t)
  {
    var n := |rows|;
    assert rows[..n] == rows;
    FlowIs(limits, rows, n, p);
    WindowPeakStays(limits, rows, s, t, n, p);
    LiveAtIs(limits, rows, s, n, Warmup, p, IsStart());
    LiveAtIs(limits, rows, t, n, Warmup, p, IsStop());
    LiveAtIs(limits, rows, t, n, Measurement, p, IsStop());
  }

  ghost predicate TallyHolds(rows: seq<Row>, c: Cohort, p: Phase, s: nat, t: nat) {
    && TallyOf(rows, c, p, Measuring) == TallyBetween(rows, c, p, s, t)
    && TallyOf(rows, c, p, Draining) == TallyBetween(rows, c, p, t, |rows|)
  }

  lemma {:induction false} RatioIs(rows: seq<Row>, p: Phase, s: nat, t: nat, duration: int)
    requires TallyOf(rows, Measurement, p, Measuring) == TallyBetween(rows, Measurement, p, s, t)
    requires GroupOf(rows, Measurement, p).entered == 0 <==> NothingBegun(rows, Measurement, p)
    ensures SummarizePhase(rows, p, duration).completionRatio == RecordedPhase(rows, p, s, t, duration).completionRatio
  {
  }

  /** Figure by figure, the summary of a phase. */
  lemma {:induction false} PhaseFrom(rows: seq<Row>, p: Phase, s: nat, t: nat, duration: int)
    requires LevelsHold(rows, p, s, t) && TallyHolds(rows, Warmup, p, s, t) && TallyHolds(rows, Measurement, p, s, t)
    requires SummarizePhase(rows, p, duration).completionRatio == RecordedPhase(rows, p, s, t, duration).completionRatio
    ensures SummarizePhase(rows, p, duration) == RecordedPhase(rows, p, s, t, duration)
  {
  }

  lemma {:induction false} PhaseRecorded(limits: Limits, rows: seq<Row>, p: Phase, s: nat, t: nat, duration: int)
    requires WellFormed(limits, rows) && Boundaries(rows, s, t)
    ensures SummarizePhase(rows, p, duration) == RecordedPhase(rows, p, s, t, duration)
  {
    LevelsRecorded(limits, rows, p, s, t);
    TallyRecorded(limits, rows, Warmup, p, s, t);
    TallyRecorded(limits, rows, Measurement, p, s, t);
    NoneBegun(limits, rows, Measurement, p);
    RatioIs(rows, p, s, t, duration);
    PhaseFrom(rows, p, s, t, duration);
  }

  /** The boundary readings. */
  lemma {:induction false} ReadingsRecorded(limits: Limits, rows: seq<Row>, s: nat, t: nat)
    requires WellFormed(limits, rows) && Boundaries(rows, s, t)
    ensures Latest(rows, IsStart()) == Some(rows[s].event.at) && Latest(rows, IsStop()) == Some(rows[t].event.at)
    ensures Latest(rows, IsFinalize()) == Some(rows[|rows| - 1].event.at)
    ensures Latest(rows, IsWarmupStart()) == if At(rows, 0, IsWarmupStart()) then Some(rows[0].event.at) else None
    ensures !At(rows, 0, IsWarmupStart()) ==> s == 0
  {
    LatestOnly(rows, s, IsStart());
    LatestOnly(rows, t, IsStop());
    var last: nat := |rows| - 1;
    forall j: nat | At(rows, j, IsFinalize()) ensures j == last {
      assert RowSound(limits, rows, j);
    }
    assert At(rows, last, IsFinalize());
    LatestOnly(rows, last, IsFinalize());
    forall j: nat | At(rows, j, IsWarmupStart()) ensures j == 0 {
      assert RowSound(limits, rows, j);
    }
    if At(rows, 0, IsWarmupStart()) {
      LatestOnly(rows, 0, IsWarmupStart());
    } else {
      assert rows[..|rows|] == rows;
      LatestIs(rows, |rows|, IsWarmupStart());
      assert RowSound(limits, rows, 0);
      assert At(rows, 0, IsStart());
    }
  }

  lemma {:induction false} TotalsRecorded(rows: seq<Row>)
    ensures Count(rows, IsBegin()) == Number(|rows|, Are(rows, IsBegin()))
    ensures Count(rows, IsBalance()) == Number(|rows|, Are(rows, IsBalance()))
    ensures Count(rows, IsBegin()) == 0 <==> NoObservations(rows)
  {
    var n := |rows|;
    assert rows[..n] == rows;
    CountIs(rows, n, IsBegin());
    CountIs(rows, n, IsBalance());
    NumberZero(n, Are(rows, IsBegin()));
    if Count(rows, IsBegin()) == 0 {
      forall k: nat ensures !At(rows, k, IsBegin()) {
        assert k < n ==> !Are(rows, IsBegin())(k);
      }
    }
  }

  ghost predicate ReadingsHold(rows: seq<Row>, s: nat, t: nat) {
    && |rows| > 0 && Latest(rows, IsStart()) == Some(ReadingAt(rows, s))
    && Latest(rows, IsStop()) == Some(ReadingAt(rows, t))
    && Latest(rows, IsFinalize()) == Some(ReadingAt(rows, |rows| - 1))
    && Latest(rows, IsWarmupStart()) == (if At(rows, 0, IsWarmupStart()) then Some(ReadingAt(rows, 0)) else None)
    && (At(rows, 0, IsWarmupStart()) || s == 0)
  }

  ghost function RebuiltPhases(rows: seq<Row>, duration: int): map<Phase, PhaseSummary> {
    map[Funding := SummarizePhase(rows, Funding, duration), FundedCall := SummarizePhase(rows, FundedCall, duration),
        LedgerTransaction := SummarizePhase(rows, LedgerTransaction, duration)]
  }

  lemma {:induction false} PhasesRecorded(limits: Limits, rows: seq<Row>, s: nat, t: nat, duration: int)
    requires WellFormed(limits, rows) && Boundaries(rows, s, t)
    ensures RebuiltPhases(rows, duration) == RecordedPhases(rows, s, t, duration)
  {
    PhaseRecorded(limits, rows, Funding, s, t, duration);
    PhaseRecorded(limits, rows, FundedCall, s, t, duration);
    PhaseRecorded(limits, rows, LedgerTransaction, s, t, duration);
  }

  /** The durations of a recording, told from the positions. */
  ghost predicate Timed(recording: Recording, rows: seq<Row>, s: nat, t: nat) {
    && |rows| > 0
    && recording.warmupNanoseconds == (if At(rows, 0, IsWarmupStart()) then Some(Elapsed(rows, 0, s)) else None)
    && recording.measurementNanoseconds == Elapsed(rows, s, t)
    && recording.drainNanoseconds == Elapsed(rows, t, |rows| - 1)
    && recording.runNanoseconds == Elapsed(rows, 0, |rows| - 1)
  }

  /** The durations of a recording, told from the latest boundaries. */
  ghost predicate TimedByLatest(recording: Recording, rows: seq<Row>)
    requires CompleteWindowRows(rows)
  {
    var start, stop, ended := Latest(rows, IsStart()).value, Latest(rows, IsStop()).value,
      Latest(rows, IsFinalize()).value;
    var warmupStart := Latest(rows, IsWarmupStart());
    && recording.warmupNanoseconds == (if warmupStart.None? then None else Some(start - warmupStart.value))
    && recording.measurementNanoseconds == stop - start && recording.drainNanoseconds == ended - stop
    && recording.runNanoseconds == ended - (if warmupStart.None? then start else warmupStart.value)
  }

  lemma {:induction false} RebuiltByLatest(limits: Limits, rows: seq<Row>)
    requires CompleteWindowRows(rows)
    ensures TimedByLatest(Rebuild(limits, rows), rows)
  {
  }

  lemma {:induction false} TimesAre(recording: Recording, rows: seq<Row>, s: nat, t: nat)
    requires ReadingsHold(rows, s, t) && CompleteWindowRows(rows) && TimedByLatest(recording, rows)
    ensures Timed(recording, rows, s, t)
  {
  }

  lemma {:induction false} RebuiltTimes(limits: Limits, rows: seq<Row>, s: nat, t: nat)
    requires ReadingsHold(rows, s, t)
    ensures CompleteWindowRows(rows) && Timed(Rebuild(limits, rows), rows, s, t)
  {
    RebuiltByLatest(limits, rows);
    TimesAre(Rebuild(limits, rows), rows, s, t);
  }

  lemma {:induction false} RecordedTimes(limits: Limits, rows: seq<Row>, s: nat, t: nat)
    requires |rows| > 0
    ensures Timed(RecordedWithin(limits, rows, s, t), rows, s, t)
  {
  }

  lemma {:induction false} RebuiltEmpty(limits: Limits, rows: seq<Row>)
    requires CompleteWindowRows(rows) && (Count(rows, IsBegin()) == 0 <==> NoObservations(rows))
    ensures Rebuild(limits, rows).limits == limits && (Rebuild(limits, rows).empty <==> NoObservations(rows))
  {
  }

  lemma {:induction false} RebuiltPhasesAre(limits: Limits, rows: seq<Row>)
    requires CompleteWindowRows(rows)
    ensures var recording := Rebuild(limits, rows);
            recording.phases == RebuiltPhases(rows, recording.measurementNanoseconds)
  {
  }

  lemma {:induction false} RecordedPhasesAre(limits: Limits, rows: seq<Row>, s: nat, t: nat)
    requires |rows| > 0
    ensures var recording := RecordedWithin(limits, rows, s, t);
            recording.phases == RecordedPhases(rows, s, t, recording.measurementNanoseconds)
  {
  }

  lemma {:induction false} CohortsRecorded(limits: Limits, rows: seq<Row>, s: nat, t: nat)
    requires WellFormed(limits, rows) && Boundaries(rows, s, t) && CompleteWindowRows(rows)
    ensures Rebuild(limits, rows).cohorts == RecordedWithin(limits, rows, s, t).cohorts
  {
    CohortRecorded(limits, rows, Warmup, s, t);
    CohortRecorded(limits, rows, Measurement, s, t);
  }

  lemma {:induction false} ChecksRecorded(limits: Limits, rows: seq<Row>, s: nat, t: nat)
    requires WellFormed(limits, rows) && Boundaries(rows, s, t) && CompleteWindowRows(rows)
    ensures Rebuild(limits, rows).stageSamples == RecordedWithin(limits, rows, s, t).stageSamples
    ensures Rebuild(limits, rows).balanceSamples == RecordedWithin(limits, rows, s, t).balanceSamples
  {
    ChecksAre(limits, rows, s, t);
    TotalsRecorded(rows);
  }

  lemma {:induction false} RebuildWithin(limits: Limits, rows: seq<Row>, s: nat, t: nat)
    requires WellFormed(limits, rows) && Boundaries(rows, s, t)
    ensures CompleteWindowRows(rows) && Rebuild(limits, rows) == RecordedWithin(limits, rows, s, t)
  {
    ReadingsRecorded(limits, rows, s, t);
    TotalsRecorded(rows);
    RebuiltTimes(limits, rows, s, t);
    RecordedTimes(limits, rows, s, t);
    RebuiltEmpty(limits, rows);
    PhasesRecorded(limits, rows, s, t, Rebuild(limits, rows).measurementNanoseconds);
    RebuiltPhasesAre(limits, rows);
    RecordedPhasesAre(limits, rows, s, t);
    CohortsRecorded(limits, rows, s, t);
    ChecksRecorded(limits, rows, s, t);
  }

  /** The recording that a replay rebuilds is the one the positions determine. */
  lemma {:induction false} RebuildIs(limits: Limits, rows: seq<Row>)
    requires WellFormed(limits, rows)
    ensures CompleteWindowRows(rows) && Rebuild(limits, rows) == Recorded(limits, rows)
  {
    var s, t := BoundariesAre(limits, rows);
    RebuildWithin(limits, rows, s, t);
  }

  // ---- the verdict -----------------------------------------------------------------------------

  ghost predicate LimitsSound(trace: Trace, expected: Limits) {
    && trace.limits == expected && trace.maximumEvents == 7 * expected.maxSamplesPerPhase + 4
    && 1 <= expected.maxInFlightPerPhase <= 64 && expected.maxInFlightPerPhase <= expected.maxSamplesPerPhase <= 4096
  }

  ghost function CheckOf(rows: seq<Row>): Check {
    Check(|rows|, Number(|rows|, Are(rows, IsBegin())), ReadingAt(rows, StopOf(rows)) - ReadingAt(rows, StartOf(rows)))
  }

  lemma {:induction false} LimitsAre(trace: Trace, expected: Limits)
    ensures AdmitLimits(trace, expected).Met? <==>
              LimitsSound(trace, expected) && 1 <= |trace.rows| <= trace.maximumEvents
  {
  }

  /** The verdict in two parts: what is checked, and the check that is answered. */
  lemma {:induction false} VerdictSplits(trace: Trace, recording: Recording, expected: Limits, check: Check)
    ensures Verdict(trace, recording, expected) == Success(check) <==>
              AdmitLimits(trace, expected).Met? && L.Admitted(trace.limits, trace.rows, |trace.rows|)
              && CompleteWindowRows(trace.rows) && Rebuilt(trace.limits, trace.rows, recording, check)
  {
  }

  /** Recording and check are what the replay rebuilds. */
  ghost predicate Rebuilt(limits: Limits, rows: seq<Row>, recording: Recording, check: Check)
    requires CompleteWindowRows(rows)
  {
    && recording == Rebuild(limits, rows)
    && check == Counted(rows)
  }

  ghost function Counted(rows: seq<Row>): Check
    requires CompleteWindowRows(rows)
  {
    Check(|rows|, Count(rows, IsBegin()), Latest(rows, IsStop()).value - Latest(rows, IsStart()).value)
  }

  lemma {:induction false} AnswersAlike(recording: Recording, check: Check, a: Recording, b: Recording, x: Check,
                                        y: Check)
    requires a == b && x == y
    ensures recording == a && check == x <==> recording == b && check == y
  {
  }

  lemma {:induction false} BoundsImplied(trace: Trace, expected: Limits)
    requires LimitsSound(trace, expected) && WellFormed(trace.limits, trace.rows)
    ensures AdmitLimits(trace, expected).Met?
  {
    LimitsAre(trace, expected);
    AdmittedExactly(trace.limits, trace.rows);
    L.RowCeiling(trace.limits, trace.rows);
  }

  lemma {:induction false} CheckIs(limits: Limits, rows: seq<Row>)
    requires WellFormed(limits, rows)
    ensures CompleteWindowRows(rows) && Counted(rows) == CheckOf(rows)
  {
    var s, t := BoundariesAre(limits, rows);
    ReadingsRecorded(limits, rows, s, t);
    TotalsRecorded(rows);
  }

  /** A trace is accepted exactly when its limits are those of the plan, its log is well formed and the supplied
      recording is the one its positions determine. */
  lemma {:induction false} AcceptedExactly(trace: Trace, recording: Recording, expected: Limits, check: Check)
    ensures Verdict(trace, recording, expected) == Success(check) <==>
              LimitsSound(trace, expected) && WellFormed(trace.limits, trace.rows)
              && recording == Recorded(trace.limits, trace.rows) && check == CheckOf(trace.rows)
  {
    var limits, rows := trace.limits, trace.rows;
    VerdictSplits(trace, recording, expected, check);
    LimitsAre(trace, expected);
    if LimitsSound(trace, expected) {
      AdmittedExactly(limits, rows);
      if WellFormed(limits, rows) {
        BoundsImplied(trace, expected);
        RebuildIs(limits, rows);
        CheckIs(limits, rows);
        AnswersAlike(recording, check, Rebuild(limits, rows), Recorded(limits, rows), Counted(rows), CheckOf(rows));
      }
    }
  }
}
