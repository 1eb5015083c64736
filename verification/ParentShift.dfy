/** The parent verdict depends on clock differences only: moving every reading by the same amount changes nothing. */
module ParentShift {
  import opened Wrappers
  import opened Clock
  import opened Counting
  import opened Recorder
  import opened ParentTrace

  /** The same event, read `delta` later. */
  ghost predicate EventMoved(e: Event, f: Event, delta: int) {
    && f.at == e.at + delta
    && match e
       case StartWarmup(_) => f.StartWarmup?
       case StartMeasurement(_) => f.StartMeasurement?
       case StopMeasurement(_) => f.StopMeasurement?
       case Begin(o, p, c, _) => f.Begin? && f.observation == o && f.phase == p && f.cohort == c
       case Finish(o, outcome, _) => f.Finish? && f.observation == o && f.outcome == outcome
       case BalanceCheck(matches, _) => f.BalanceCheck? && f.matches == matches
       case Finalize(_) => f.Finalize?
  }

  /** The same rows, every reading `delta` later. */
  ghost predicate Moved(rows: seq<Row>, moved: seq<Row>, delta: int) {
    |rows| == |moved|
    && forall i :: 0 <= i < |rows| ==>
       moved[i].sequence == rows[i].sequence
       && EventMoved(rows[i].event, moved[i].event, delta)
  }

  lemma {:induction false} MovedInit(rows: seq<Row>, moved: seq<Row>, delta: int)
    requires Moved(rows, moved, delta) && |rows| > 0
    ensures Moved(rows[..|rows| - 1], moved[..|rows| - 1], delta)
    ensures EventMoved(rows[|rows| - 1].event, moved[|rows| - 1].event, delta)
            && rows[|rows| - 1].sequence == moved[|rows| - 1].sequence
  {
  }

  ghost function Later(t: Option<int>, delta: int): Option<int> {
    if t.None? then None else Some(t.value + delta)
  }

  ghost predicate OpenMoved(open: map<int, Begun>, moved: map<int, Begun>, delta: int) {
    && (forall o :: o in open <==> o in moved)
    && forall o :: o in open ==>
       moved[o].at == open[o].at + delta && moved[o].phase == open[o].phase
       && moved[o].cohort == open[o].cohort
  }

  lemma {:induction false} StageMoved(rows: seq<Row>, moved: seq<Row>, delta: int)
    requires Moved(rows, moved, delta)
    ensures StageOf(moved) == StageOf(rows)
  {
    if |rows| > 0 {
      MovedInit(rows, moved, delta);
      StageMoved(rows[..|rows| - 1], moved[..|rows| - 1], delta);
    }
  }

  lemma {:induction false} OpenStep(open: map<int, Begun>, moved: map<int, Begun>, e: Event, f: Event, delta: int)
    requires OpenMoved(open, moved, delta) && EventMoved(e, f, delta)
    ensures OpenMoved(OpenAfter(open, e), OpenAfter(moved, f), delta)
  {
  }

  lemma {:induction false} OpensMoved(rows: seq<Row>, moved: seq<Row>, delta: int)
    requires Moved(rows, moved, delta)
    ensures OpenMoved(Open(rows), Open(moved), delta)
  {
    if |rows| > 0 {
      MovedInit(rows, moved, delta);
      OpensMoved(rows[..|rows| - 1], moved[..|rows| - 1], delta);
      OpenStep(Open(rows[..|rows| - 1]), Open(moved[..|rows| - 1]), rows[|rows| - 1].event, moved[|rows| - 1].event,
        delta);
    }
  }

  /** The two logs agree on which events are of the kind. */
  ghost predicate Alike(kind: Event -> bool, rows: seq<Row>, moved: seq<Row>) {
    |rows| == |moved| && forall i :: 0 <= i < |rows| ==> kind(rows[i].event) == kind(moved[i].event)
  }

  lemma {:induction false} AllAlike(rows: seq<Row>, moved: seq<Row>, delta: int)
    requires Moved(rows, moved, delta)
    ensures Alike(IsBegin(), rows, moved) && Alike(IsBalance(), rows, moved) && Alike(IsWarmupStart(), rows, moved)
    ensures Alike(IsStart(), rows, moved) && Alike(IsStop(), rows, moved) && Alike(IsFinalize(), rows, moved)
  {
  }

  lemma {:induction false} CountMoved(rows: seq<Row>, moved: seq<Row>, kind: Event -> bool)
    requires Alike(kind, rows, moved)
    ensures Count(moved, kind) == Count(rows, kind)
  {
    if |rows| > 0 {
      CountMoved(rows[..|rows| - 1], moved[..|rows| - 1], kind);
    }
  }

  lemma {:induction false} LatestMoved(rows: seq<Row>, moved: seq<Row>, delta: int, kind: Event -> bool)
    requires Moved(rows, moved, delta) && Alike(kind, rows, moved)
    ensures Latest(moved, kind) == Later(Latest(rows, kind), delta)
  {
    if |rows| > 0 {
      MovedInit(rows, moved, delta);
      LatestMoved(rows[..|rows| - 1], moved[..|rows| - 1], delta, kind);
    }
  }

  lemma {:induction false} FlowMoved(rows: seq<Row>, moved: seq<Row>, delta: int, p: Phase)
    requires Moved(rows, moved, delta)
    ensures FlowOf(moved, p) == FlowOf(rows, p)
  {
    if |rows| > 0 {
      var init, later := rows[..|rows| - 1], moved[..|rows| - 1];
      MovedInit(rows, moved, delta);
      FlowMoved(init, later, delta, p);
      StageMoved(init, later, delta);
      OpensMoved(init, later, delta);
    }
  }

  lemma {:induction false} GroupMoved(rows: seq<Row>, moved: seq<Row>, delta: int, c: Cohort, p: Phase)
    requires Moved(rows, moved, delta)
    ensures GroupOf(moved, c, p) == GroupOf(rows, c, p)
  {
    if |rows| > 0 {
      MovedInit(rows, moved, delta);
      GroupMoved(rows[..|rows| - 1], moved[..|rows| - 1], delta, c, p);
      OpensMoved(rows[..|rows| - 1], moved[..|rows| - 1], delta);
    }
  }

  lemma {:induction false} LiveMoved(rows: seq<Row>, moved: seq<Row>, delta: int, c: Cohort, p: Phase,
                                     kind: Event -> bool)
    requires Moved(rows, moved, delta) && Alike(kind, rows, moved)
    ensures LiveAt(moved, c, p, kind) == LiveAt(rows, c, p, kind)
  {
    if |rows| > 0 {
      MovedInit(rows, moved, delta);
      LiveMoved(rows[..|rows| - 1], moved[..|rows| - 1], delta, c, p, kind);
      GroupMoved(rows[..|rows| - 1], moved[..|rows| - 1], delta, c, p);
    }
  }

  lemma {:induction false} TallyMoved(rows: seq<Row>, moved: seq<Row>, delta: int, c: Cohort, p: Phase, stage: Stage)
    requires Moved(rows, moved, delta)
    ensures TallyOf(moved, c, p, stage) == TallyOf(rows, c, p, stage)
  {
    if |rows| > 0 {
      var init, later := rows[..|rows| - 1], moved[..|rows| - 1];
      MovedInit(rows, moved, delta);
      TallyMoved(init, later, delta, c, p, stage);
      StageMoved(init, later, delta);
      OpensMoved(init, later, delta);
    }
  }

  /** Latencies are differences. */
  lemma {:induction false} SamplesMoved(rows: seq<Row>, moved: seq<Row>, delta: int, c: Cohort, p: Phase)
    requires Moved(rows, moved, delta)
    ensures SamplesOf(moved, c, p) == SamplesOf(rows, c, p)
  {
    if |rows| > 0 {
      MovedInit(rows, moved, delta);
      SamplesMoved(rows[..|rows| - 1], moved[..|rows| - 1], delta, c, p);
      OpensMoved(rows[..|rows| - 1], moved[..|rows| - 1], delta);
    }
  }

  ghost function MetaLater(m: Meta, delta: int): Meta {
    Meta(Span(Later(m.span.first, delta), Later(m.span.last, delta)), m.balances)
  }

  lemma {:induction false} MetaMoved(rows: seq<Row>, moved: seq<Row>, delta: int, c: Cohort)
    requires Moved(rows, moved, delta)
    ensures MetaOf(moved, c) == MetaLater(MetaOf(rows, c), delta)
  {
    if |rows| > 0 {
      var init, later := rows[..|rows| - 1], moved[..|rows| - 1];
      MovedInit(rows, moved, delta);
      MetaMoved(init, later, delta, c);
      StageMoved(init, later, delta);
      OpensMoved(init, later, delta);
    }
  }

  lemma {:induction false} ChecksMoved(rows: seq<Row>, moved: seq<Row>, delta: int, s: Stage)
    requires Moved(rows, moved, delta)
    ensures ChecksIn(moved, s) == ChecksIn(rows, s)
  {
    if |rows| > 0 {
      MovedInit(rows, moved, delta);
      ChecksMoved(rows[..|rows| - 1], moved[..|rows| - 1], delta, s);
      StageMoved(rows[..|rows| - 1], moved[..|rows| - 1], delta);
    }
  }

  // ---- admission ------------------------------------------------------------------------------------------

  lemma {:induction false} SameKeys(open: map<int, Begun>, moved: map<int, Begun>)
    requires forall o :: o in open <==> o in moved
    ensures open == map[] <==> moved == map[]
  {
    if open != map[] {
      var o := SomeKey(open);
      assert o in moved;
    }
    if moved != map[] {
      var o := SomeKey(moved);
      assert o in open;
    }
  }

  lemma {:induction false} AdmitEventMoved(limits: Limits, rows: seq<Row>, moved: seq<Row>, delta: int, e: Event,
                                           f: Event, last: bool)
    requires Moved(rows, moved, delta) && EventMoved(e, f, delta)
    ensures AdmitEvent(limits, moved, f, last) == AdmitEvent(limits, rows, e, last)
  {
    StageMoved(rows, moved, delta);
    AllAlike(rows, moved, delta);
    if e.Begin? {
      CountMoved(rows, moved, IsBegin());
      FlowMoved(rows, moved, delta, e.phase);
    } else if e.StopMeasurement? {
      LatestMoved(rows, moved, delta, IsStart());
    } else if e.BalanceCheck? {
      CountMoved(rows, moved, IsBalance());
    } else {
      OpensMoved(rows, moved, delta);
      SameKeys(Open(rows), Open(moved));
    }
  }

  lemma {:induction false} AdmitMoved(limits: Limits, rows: seq<Row>, moved: seq<Row>, delta: int, total: nat)
    requires Moved(rows, moved, delta)
    ensures AdmitAll(limits, moved, total) == AdmitAll(limits, rows, total)
  {
    if |rows| > 0 {
      var init, later := rows[..|rows| - 1], moved[..|rows| - 1];
      MovedInit(rows, moved, delta);
      AdmitMoved(limits, init, later, delta, total);
      AllAlike(init, later, delta);
      LatestMoved(init, later, delta, IsFinalize());
      AdmitEventMoved(limits, init, later, delta, rows[|rows| - 1].event, moved[|rows| - 1].event, |rows| == total);
    }
  }

  // ---- the report -----------------------------------------------------------------------------------------

  lemma {:induction false} PhaseMoved(rows: seq<Row>, moved: seq<Row>, delta: int, p: Phase, duration: int)
    requires Moved(rows, moved, delta)
    ensures SummarizePhase(moved, p, duration) == SummarizePhase(rows, p, duration)
  {
    AllAlike(rows, moved, delta);
    FlowMoved(rows, moved, delta, p);
    GroupMoved(rows, moved, delta, Measurement, p);
    LiveMoved(rows, moved, delta, Warmup, p, IsStart());
    LiveMoved(rows, moved, delta, Warmup, p, IsStop());
    LiveMoved(rows, moved, delta, Measurement, p, IsStop());
    TallyMoved(rows, moved, delta, Warmup, p, Measuring);
    TallyMoved(rows, moved, delta, Measurement, p, Measuring);
    TallyMoved(rows, moved, delta, Warmup, p, Draining);
    TallyMoved(rows, moved, delta, Measurement, p, Draining);
  }

  lemma {:induction false} CohortMoved(rows: seq<Row>, moved: seq<Row>, delta: int, c: Cohort)
    requires Moved(rows, moved, delta)
    ensures SummarizeCohort(moved, c) == SummarizeCohort(rows, c)
  {
    GroupMoved(rows, moved, delta, c, Funding);
    GroupMoved(rows, moved, delta, c, FundedCall);
    GroupMoved(rows, moved, delta, c, LedgerTransaction);
    SamplesMoved(rows, moved, delta, c, Funding);
    SamplesMoved(rows, moved, delta, c, FundedCall);
    SamplesMoved(rows, moved, delta, c, LedgerTransaction);
    MetaMoved(rows, moved, delta, c);
  }

  lemma {:induction false} BoundariesMoved(rows: seq<Row>, moved: seq<Row>, delta: int)
    requires Moved(rows, moved, delta)
    ensures Latest(moved, IsWarmupStart()) == Later(Latest(rows, IsWarmupStart()), delta)
    ensures Latest(moved, IsStart()) == Later(Latest(rows, IsStart()), delta)
    ensures Latest(moved, IsStop()) == Later(Latest(rows, IsStop()), delta)
    ensures Latest(moved, IsFinalize()) == Later(Latest(rows, IsFinalize()), delta)
    ensures Count(moved, IsBegin()) == Count(rows, IsBegin()) && Count(moved, IsBalance()) == Count(rows, IsBalance())
  {
    AllAlike(rows, moved, delta);
    LatestMoved(rows, moved, delta, IsWarmupStart());
    LatestMoved(rows, moved, delta, IsStart());
    LatestMoved(rows, moved, delta, IsStop());
    LatestMoved(rows, moved, delta, IsFinalize());
    CountMoved(rows, moved, IsBegin());
    CountMoved(rows, moved, IsBalance());
  }

  lemma {:induction false} WindowMoved(limits: Limits, rows: seq<Row>, moved: seq<Row>, delta: int)
    requires Moved(rows, moved, delta) && CompleteWindowRows(rows)
    ensures CompleteWindowRows(moved)
    ensures Rebuild(limits, moved).measurementNanoseconds == Rebuild(limits, rows).measurementNanoseconds
  {
    BoundariesMoved(rows, moved, delta);
  }

  lemma {:induction false} ReportedPhasesMoved(limits: Limits, rows: seq<Row>, moved: seq<Row>, delta: int)
    requires Moved(rows, moved, delta) && CompleteWindowRows(rows) && CompleteWindowRows(moved)
    requires Rebuild(limits, moved).measurementNanoseconds == Rebuild(limits, rows).measurementNanoseconds
    ensures Rebuild(limits, moved).phases == Rebuild(limits, rows).phases
  {
    var duration := Rebuild(limits, rows).measurementNanoseconds;
    PhaseMoved(rows, moved, delta, Funding, duration);
    PhaseMoved(rows, moved, delta, FundedCall, duration);
    PhaseMoved(rows, moved, delta, LedgerTransaction, duration);
  }

  lemma {:induction false} ReportedCohortsMoved(limits: Limits, rows: seq<Row>, moved: seq<Row>, delta: int)
    requires Moved(rows, moved, delta) && CompleteWindowRows(rows) && CompleteWindowRows(moved)
    ensures Rebuild(limits, moved).cohorts == Rebuild(limits, rows).cohorts
  {
    CohortMoved(rows, moved, delta, Warmup);
    CohortMoved(rows, moved, delta, Measurement);
  }

  lemma {:induction false} ReportedChecksMoved(limits: Limits, rows: seq<Row>, moved: seq<Row>, delta: int)
    requires Moved(rows, moved, delta) && CompleteWindowRows(rows) && CompleteWindowRows(moved)
    ensures Rebuild(limits, moved).stageSamples == Rebuild(limits, rows).stageSamples
  {
    ChecksMoved(rows, moved, delta, Warming);
    ChecksMoved(rows, moved, delta, Measuring);
    ChecksMoved(rows, moved, delta, Draining);
  }

  lemma {:induction false} RebuildMoved(limits: Limits, rows: seq<Row>, moved: seq<Row>, delta: int)
    requires Moved(rows, moved, delta) && CompleteWindowRows(rows)
    ensures CompleteWindowRows(moved) && Rebuild(limits, moved) == Rebuild(limits, rows)
  {
    WindowMoved(limits, rows, moved, delta);
    ReportedPhasesMoved(limits, rows, moved, delta);
    ReportedCohortsMoved(limits, rows, moved, delta);
    ReportedChecksMoved(limits, rows, moved, delta);
    BoundariesMoved(rows, moved, delta);
  }

  /** Moving the whole parent clock leaves the verdict, its check and the recording it demands unchanged. */
  lemma {:induction false} VerdictMoved(trace: Trace, moved: Trace, recording: Recording, expected: Limits, delta: int)
    requires Moved(trace.rows, moved.rows, delta) && trace.limits == moved.limits
             && trace.maximumEvents == moved.maximumEvents
    ensures Verdict(moved, recording, expected) == Verdict(trace, recording, expected)
  {
    var rows, later := trace.rows, moved.rows;
    assert AdmitLimits(moved, expected) == AdmitLimits(trace, expected);
    AdmitMoved(trace.limits, rows, later, delta, |rows|);
    BoundariesMoved(rows, later, delta);
    assert CompleteWindowRows(later) == CompleteWindowRows(rows);
    if CompleteWindowRows(rows) {
      RebuildMoved(trace.limits, rows, later, delta);
    }
  }
}
