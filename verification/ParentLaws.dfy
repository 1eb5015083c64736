/** What an admitted parent trace says as a whole. */
module ParentLaws {
  import opened Wrappers
  import opened Clock
  import opened Counting
  import opened Recorder
  import opened ParentTrace

  ghost predicate Admitted(limits: Limits, rows: seq<Row>, total: nat) {
    AdmitAll(limits, rows, total).Met?
  }

  ghost function InPhase(m: map<int, Begun>, p: Phase): set<int> {
    set o | o in m && m[o].phase == p
  }

  /** How many observations of the phase are in flight after these rows. */
  ghost function InFlight(rows: seq<Row>, p: Phase): nat {
    |InPhase(Open(rows), p)|
  }

  // ---- the live observations -----------------------------------------------------------

  /** Live observations were counted, and begun no later than the last row. */
  lemma {:induction false} OpenKeys(limits: Limits, rows: seq<Row>, total: nat)
    requires Admitted(limits, rows, total)
    ensures forall o :: o in Open(rows) ==> 1 <= o <= Count(rows, IsBegin())
    ensures forall o :: o in Open(rows) ==> |rows| > 0 && Open(rows)[o].at <= rows[|rows| - 1].event.at
  {
    if |rows| > 0 {
      OpenKeys(limits, rows[..|rows| - 1], total);
    }
  }

  lemma {:induction false} InPhaseInsert(open: map<int, Begun>, o: int, begun: Begun, p: Phase)
    requires o !in open
    ensures |InPhase(open[o := begun], p)| == |InPhase(open, p)| + (if begun.phase == p then 1 else 0)
  {
    var more := open[o := begun];
    if begun.phase == p {
      assert InPhase(more, p) == InPhase(open, p) + {o};
    } else {
      assert InPhase(more, p) == InPhase(open, p);
    }
  }

  lemma {:induction false} OpenAfterCount(open: map<int, Begun>, event: Event, p: Phase)
    requires event.Begin? ==> event.observation !in open
    requires event.Finish? ==> event.observation in open
    ensures |InPhase(OpenAfter(open, event), p)| == |InPhase(open, p)|
              + (if event.Begin? && event.phase == p then 1 else 0)
              - (if event.Finish? && open[event.observation].phase == p then 1 else 0)
  {
    match event {
      case Begin(o, q, c, at) =>
        InPhaseInsert(open, o, Begun(at, q, c), p);
      case Finish(o, _, _) =>
        InPhaseInsert(open - {o}, o, open[o], p);
        assert (open - {o})[o := open[o]] == open;
      case _ =>
    }
  }

  /** The `active` counter of a phase is its number of live observations. */
  lemma {:induction false} ActiveIsInFlight(limits: Limits, rows: seq<Row>, total: nat, p: Phase)
    requires Admitted(limits, rows, total)
    ensures FlowOf(rows, p).active == InFlight(rows, p)
  {
    if |rows| > 0 {
      var init := rows[..|rows| - 1];
      ActiveIsInFlight(limits, init, total, p);
      OpenKeys(limits, init, total);
      OpenAfterCount(Open(init), rows[|rows| - 1].event, p);
    }
  }

  // ---- Little's law --------------------------------------------------------------------

  /** `count` observations in flight between two readings. */
  ghost function Slab(count: int, from: int, to: int): int {
    count * (to - from)
  }

  /** The latest reading, if any. */
  ghost function Now(rows: seq<Row>): int {
    if |rows| == 0 then 0 else rows[|rows| - 1].event.at
  }

  /** The in-flight count integrated over the time between consecutive rows. */
  ghost function Area(rows: seq<Row>, p: Phase): int {
    if |rows| == 0 then 0 else
      var init := rows[..|rows| - 1];
      Area(init, p) + Slab(InFlight(init, p), Now(init), Now(rows))
  }

  ghost function Age(begun: Begun, now: int, p: Phase): int {
    if begun.phase == p then now - begun.at else 0
  }

  /** The ages of the live observations of the phase. */
  ghost function Ages(open: map<int, Begun>, now: int, p: Phase): int
    decreases |open|
  {
    if open == map[] then 0 else
      var o := SomeKey(open);
      Age(open[o], now, p) + Ages(open - {o}, now, p)
  }

  /** Any live observation may be counted first. */
  lemma {:induction false} AgesRemove(open: map<int, Begun>, now: int, p: Phase, o: int)
    requires o in open
    ensures Ages(open, now, p) == Age(open[o], now, p) + Ages(open - {o}, now, p)
    decreases |open|
  {
    var first := SomeKey(open);
    if first != o {
      AgesRemove(open - {first}, now, p, o);
      AgesRemove(open - {o}, now, p, first);
      assert open - {first} - {o} == open - {o} - {first};
    }
  }

  lemma {:induction false} OneMore(n: int, from: int, to: int)
    ensures Slab(n + 1, from, to) == Slab(n, from, to) + to - from
  {
  }

  lemma {:induction false} AgesGrow(open: map<int, Begun>, p: Phase, now: int, later: int)
    ensures Ages(open, later, p) == Ages(open, now, p) + Slab(|InPhase(open, p)|, now, later)
    decreases |open|
  {
    if open == map[] {
      assert InPhase(open, p) == {};
    } else {
      var o := SomeKey(open);
      var rest := open - {o};
      AgesGrow(rest, p, now, later);
      AgesRemove(open, later, p, o);
      OneMore(|InPhase(rest, p)|, now, later);
      InPhaseInsert(rest, o, open[o], p);
      assert rest[o := open[o]] == open;
    }
  }

  /** All latencies of the phase recorded so far, both cohorts. */
  ghost function Settled(rows: seq<Row>, p: Phase): int {
    Sum(SamplesOf(rows, Warmup, p).all) + Sum(SamplesOf(rows, Measurement, p).all)
  }

  lemma {:induction false} SettledStep(rows: seq<Row>, p: Phase)
    requires |rows| > 0
    ensures var init, event := rows[..|rows| - 1], rows[|rows| - 1].event;
            Settled(rows, p) == Settled(init, p) +
              (if event.Finish? && event.observation in Open(init) && Open(init)[event.observation].phase == p
               then event.at - Open(init)[event.observation].at else 0)
  {
    var init, event := rows[..|rows| - 1], rows[|rows| - 1].event;
    if event.Finish? && event.observation in Open(init) {
      var begun := Open(init)[event.observation];
      SumAppend(SamplesOf(init, begun.cohort, p).all, event.at - begun.at);
    }
  }

  lemma {:induction false} AgesStep(open: map<int, Begun>, event: Event, p: Phase)
    requires event.Begin? ==> event.observation !in open
    requires event.Finish? ==> event.observation in open
    ensures Ages(OpenAfter(open, event), event.at, p) == Ages(open, event.at, p) -
              (if event.Finish? && open[event.observation].phase == p then event.at - open[event.observation].at else 0)
  {
    match event {
      case Begin(o, q, c, at) =>
        var more := open[o := Begun(at, q, c)];
        AgesRemove(more, at, p, o);
        assert more - {o} == open;
      case Finish(o, _, at) => AgesRemove(open, at, p, o);
      case _ =>
    }
  }

  lemma {:induction false} LiveStep(limits: Limits, rows: seq<Row>, total: nat)
    requires Admitted(limits, rows, total) && |rows| > 0
    ensures var init, event := rows[..|rows| - 1], rows[|rows| - 1].event;
            && Admitted(limits, init, total)
            && (event.Begin? ==> event.observation !in Open(init))
            && (event.Finish? ==> event.observation in Open(init))
  {
    OpenKeys(limits, rows[..|rows| - 1], total);
  }

  /** One row adds to latencies and ages exactly the time that the live observations aged. */
  lemma {:induction false} LatencyStep(limits: Limits, rows: seq<Row>, total: nat, p: Phase)
    requires Admitted(limits, rows, total) && |rows| > 0
    ensures var init, now := rows[..|rows| - 1], Now(rows);
            Settled(rows, p) + Ages(Open(rows), now, p) == Settled(init, p) + Ages(Open(init), now, p)
  {
    LiveStep(limits, rows, total);
    SettledStep(rows, p);
    AgesStep(Open(rows[..|rows| - 1]), rows[|rows| - 1].event, p);
  }

  /** Settled latencies plus the ages of the live observations make up the area. */
  lemma {:induction false} SettledPlusAges(limits: Limits, rows: seq<Row>, total: nat, p: Phase)
    requires Admitted(limits, rows, total)
    ensures Settled(rows, p) + Ages(Open(rows), Now(rows), p) == Area(rows, p)
  {
    if |rows| > 0 {
      var init := rows[..|rows| - 1];
      LatencyStep(limits, rows, total, p);
      SettledPlusAges(limits, init, total, p);
      AgesGrow(Open(init), p, Now(init), Now(rows));
      assert Area(rows, p) == Area(init, p) + Slab(InFlight(init, p), Now(init), Now(rows));
    }
  }

  // ---- peaks ---------------------------------------------------------------------------

  lemma {:induction false} ActiveBelowPeaks(limits: Limits, rows: seq<Row>, total: nat, p: Phase)
    requires Admitted(limits, rows, total)
    ensures 0 <= FlowOf(rows, p).active <= FlowOf(rows, p).peak
    ensures IsMeasuring(rows) ==> FlowOf(rows, p).active <= FlowOf(rows, p).windowPeak
  {
    ActiveIsInFlight(limits, rows, total, p);
    if |rows| > 0 {
      ActiveBelowPeaks(limits, rows[..|rows| - 1], total, p);
    }
  }

  lemma {:induction false} PeakStep(limits: Limits, rows: seq<Row>, total: nat, p: Phase)
    requires Admitted(limits, rows, total) && |rows| > 0
    ensures FlowOf(rows, p).peak == Max(FlowOf(rows[..|rows| - 1], p).peak, InFlight(rows, p))
  {
    ActiveIsInFlight(limits, rows, total, p);
    ActiveBelowPeaks(limits, rows, total, p);
    ActiveBelowPeaks(limits, rows[..|rows| - 1], total, p);
  }

  /** The reported peak is the largest in-flight count after any prefix of the rows. */
  lemma {:induction false} PeakIsMaximum(limits: Limits, rows: seq<Row>, total: nat, p: Phase)
    requires Admitted(limits, rows, total)
    ensures forall k :: 0 <= k <= |rows| ==> InFlight(rows[..k], p) <= FlowOf(rows, p).peak
    ensures exists k :: 0 <= k <= |rows| && InFlight(rows[..k], p) == FlowOf(rows, p).peak
  {
    if |rows| == 0 {
      assert InPhase(Open(rows), p) == {};
      assert InFlight(rows[..0], p) == 0;
    } else {
      var init := rows[..|rows| - 1];
      PeakIsMaximum(limits, init, total, p);
      PeakStep(limits, rows, total, p);
      ExtendMaximum(rows, (r: seq<Row>) => InFlight(r, p), (r: seq<Row>) => true, FlowOf(init, p).peak,
                    FlowOf(rows, p).peak);
    }
  }

  ghost predicate IsMeasuring(rows: seq<Row>) {
    StageOf(rows) == Measuring
  }

  lemma {:induction false} WindowPeakStep(limits: Limits, rows: seq<Row>, total: nat, p: Phase)
    requires Admitted(limits, rows, total) && |rows| > 0
    ensures var init := rows[..|rows| - 1];
            if StageOf(init) == Measuring || StageOf(init) == Draining then
              FlowOf(rows, p).windowPeak ==
                (if IsMeasuring(rows) then Max(FlowOf(init, p).windowPeak, InFlight(rows, p))
                  else FlowOf(init, p).windowPeak)
            else IsMeasuring(rows) ==> FlowOf(rows, p).windowPeak == InFlight(rows, p)
  {
    ActiveIsInFlight(limits, rows, total, p);
    ActiveBelowPeaks(limits, rows, total, p);
    ActiveBelowPeaks(limits, rows[..|rows| - 1], total, p);
  }

  /** The reported window peak is the largest in-flight count while measuring. */
  lemma {:induction false} WindowPeakIsMaximum(limits: Limits, rows: seq<Row>, total: nat, p: Phase)
    requires Admitted(limits, rows, total) && (StageOf(rows) == Measuring || StageOf(rows) == Draining)
    ensures forall k :: 0 <= k <= |rows| && IsMeasuring(rows[..k]) ==>
            InFlight(rows[..k], p) <= FlowOf(rows, p).windowPeak
    ensures exists k ::
            0 <= k <= |rows| && IsMeasuring(rows[..k])
            && InFlight(rows[..k], p) == FlowOf(rows, p).windowPeak
  {
    var init := rows[..|rows| - 1];
    WindowPeakStep(limits, rows, total, p);
    if StageOf(init) == Measuring || StageOf(init) == Draining {
      WindowPeakIsMaximum(limits, init, total, p);
      ExtendMaximum(rows, (r: seq<Row>) => InFlight(r, p), IsMeasuring, FlowOf(init, p).windowPeak,
                    FlowOf(rows, p).windowPeak);
    } else {
      EarlierStages(limits, init, total);
      assert rows[..|rows|] == rows;
      assert forall k :: 0 <= k <= |init| ==> init[..k] == rows[..k];
      assert InFlight(rows[..|rows|], p) == FlowOf(rows, p).windowPeak;
    }
  }

  /** Before the window opens no prefix was measuring. */
  lemma {:induction false} EarlierStages(limits: Limits, rows: seq<Row>, total: nat)
    requires Admitted(limits, rows, total) && (StageOf(rows) == Created || StageOf(rows) == Warming)
    ensures forall k :: 0 <= k <= |rows| ==> StageOf(rows[..k]) == Created || StageOf(rows[..k]) == Warming
  {
    assert rows[..|rows|] == rows;
    if |rows| > 0 {
      var init := rows[..|rows| - 1];
      EarlierStages(limits, init, total);
      assert forall k :: 0 <= k <= |init| ==> init[..k] == rows[..k];
    }
  }

  // ---- boundaries ----------------------------------------------------------------------

  /** A finalized log ends there, drained. */
  lemma {:induction false} FinalizedIsDrained(limits: Limits, rows: seq<Row>, total: nat)
    requires Admitted(limits, rows, total) && Latest(rows, IsFinalize()).Some?
    ensures |rows| > 0 && |rows| == total && rows[|rows| - 1].event.Finalize?
    ensures Open(rows) == map[] && StageOf(rows) == Draining
    ensures Latest(rows, IsFinalize()).value == rows[|rows| - 1].event.at
  {
  }

  /** The reading a run is timed from. */
  ghost function RunStart(rows: seq<Row>): Option<int> {
    if Latest(rows, IsWarmupStart()).Some? then Latest(rows, IsWarmupStart()) else Latest(rows, IsStart())
  }

  /** Each boundary occurs once, in order; the first row opens the run. */
  lemma {:induction false} BoundaryOrder(limits: Limits, rows: seq<Row>, total: nat)
    requires Admitted(limits, rows, total) && |rows| > 0
    ensures StageOf(rows) != Created
    ensures RunStart(rows) == Some(rows[0].event.at)
    ensures StageOf(rows) == Warming ==> Latest(rows, IsWarmupStart()).Some?
    ensures StageOf(rows) == Warming <==> Latest(rows, IsStart()).None?
    ensures StageOf(rows) == Draining <==> Latest(rows, IsStop()).Some?
    ensures Latest(rows, IsStop()).Some? ==>
            Latest(rows, IsStart()).Some?
            && Latest(rows, IsStart()).value < Latest(rows, IsStop()).value
  {
    if |rows| > 1 {
      BoundaryOrder(limits, rows[..|rows| - 1], total);
      assert rows[..|rows| - 1][0] == rows[0];
    } else {
      assert Latest(rows[..0], IsWarmupStart()).None?;
    }
  }

  lemma {:induction false} ClockOrdered(limits: Limits, rows: seq<Row>, total: nat)
    requires Admitted(limits, rows, total)
    ensures forall i, j :: 0 <= i <= j < |rows| ==> rows[i].event.at <= rows[j].event.at
  {
    if |rows| > 1 {
      ClockOrdered(limits, rows[..|rows| - 1], total);
    }
  }

  // ---- the area is bounded by peak times duration --------------------------------------

  lemma {:induction false} SlabBound(a: int, bound: int, first: int, from: int, to: int)
    requires a <= bound && from <= to
    ensures Slab(bound, first, from) + Slab(a, from, to) <= Slab(bound, first, to)
  {
    assert a * (to - from) <= bound * (to - from);
    assert bound * (from - first) + bound * (to - from) == bound * (to - first);
  }

  lemma {:induction false} AreaBound(limits: Limits, rows: seq<Row>, total: nat, p: Phase, bound: int)
    requires Admitted(limits, rows, total) && |rows| > 0
    requires forall k :: 0 <= k <= |rows| ==> InFlight(rows[..k], p) <= bound
    ensures Area(rows, p) <= Slab(bound, rows[0].event.at, rows[|rows| - 1].event.at)
  {
    var n := |rows|;
    if n > 1 {
      var init := rows[..n - 1];
      assert forall k :: 0 <= k <= |init| ==> init[..k] == rows[..k];
      AreaBound(limits, init, total, p, bound);
      ClockOrdered(limits, rows, total);
      SlabBound(InFlight(init, p), bound, rows[0].event.at, rows[n - 2].event.at, rows[n - 1].event.at);
    }
  }

  lemma {:induction false} RowsLittlesLaw(limits: Limits, rows: seq<Row>, p: Phase)
    requires Admitted(limits, rows, |rows|) && Latest(rows, IsFinalize()).Some?
    ensures Settled(rows, p) == Area(rows, p)
    ensures RunStart(rows).Some?
    ensures Settled(rows, p) <= Slab(FlowOf(rows, p).peak, RunStart(rows).value, Latest(rows, IsFinalize()).value)
  {
    FinalizedIsDrained(limits, rows, |rows|);
    SettledPlusAges(limits, rows, |rows|, p);
    BoundaryOrder(limits, rows, |rows|);
    PeakIsMaximum(limits, rows, |rows|, p);
    AreaBound(limits, rows, |rows|, p, FlowOf(rows, p).peak);
  }

  /** What an accepted trace has passed. */
  lemma {:induction false} VerdictParts(trace: Trace, recording: Recording, expected: Limits)
    requires Verdict(trace, recording, expected).Success?
    ensures Admitted(trace.limits, trace.rows, |trace.rows|) && CompleteWindowRows(trace.rows)
    ensures recording == Rebuild(trace.limits, trace.rows) && trace.limits == expected
  {
  }

  /** Two figures of the rebuilt recording. */
  lemma {:induction false} RebuiltFigures(limits: Limits, rows: seq<Row>, p: Phase)
    requires CompleteWindowRows(rows)
    ensures var r := Rebuild(limits, rows);
            && p in r.phases && r.phases[p].peakInFlight == FlowOf(rows, p).peak
            && RunStart(rows).Some? && r.runNanoseconds == Latest(rows, IsFinalize()).value - RunStart(rows).value
  {
  }

  /** Little's law on a complete log: the recorded latencies of a phase sum to its in-flight area,
      so they are at most its reported peak times the reported run duration. */
  lemma {:induction false} LittlesLaw(trace: Trace, recording: Recording, expected: Limits, p: Phase)
    requires Verdict(trace, recording, expected).Success?
    ensures Settled(trace.rows, p) == Area(trace.rows, p)
    ensures p in recording.phases
    ensures Settled(trace.rows, p) <= recording.phases[p].peakInFlight * recording.runNanoseconds
  {
    VerdictParts(trace, recording, expected);
    RebuiltFigures(trace.limits, trace.rows, p);
    RowsLittlesLaw(trace.limits, trace.rows, p);
  }

  // ---- conservation across the measurement window --------------------------------------

  ghost function InCohort(m: map<int, Begun>, p: Phase, c: Cohort): set<int> {
    set o | o in m && m[o].phase == p && m[o].cohort == c
  }

  lemma {:induction false} InCohortInsert(open: map<int, Begun>, o: int, begun: Begun, p: Phase, c: Cohort)
    requires o !in open
    ensures |InCohort(open[o := begun], p, c)| == |InCohort(open, p, c)|
            + (if begun.phase == p && begun.cohort == c then 1 else 0)
  {
    if begun.phase == p && begun.cohort == c {
      assert InCohort(open[o := begun], p, c) == InCohort(open, p, c) + {o};
    } else {
      assert InCohort(open[o := begun], p, c) == InCohort(open, p, c);
    }
  }

  lemma {:induction false} CohortCount(open: map<int, Begun>, event: Event, p: Phase, c: Cohort)
    requires event.Begin? ==> event.observation !in open
    requires event.Finish? ==> event.observation in open
    ensures |InCohort(OpenAfter(open, event), p, c)| == |InCohort(open, p, c)|
              + (if event.Begin? && event.phase == p && event.cohort == c then 1 else 0)
              - (if event.Finish? && open[event.observation].phase == p
                && open[event.observation].cohort == c then 1 else 0)
  {
    match event {
      case Begin(o, q, d, at) => InCohortInsert(open, o, Begun(at, q, d), p, c);
      case Finish(o, _, _) =>
        InCohortInsert(open - {o}, o, open[o], p, c);
        assert (open - {o})[o := open[o]] == open;
      case _ =>
    }
  }

  /** The live count of a cohort is its number of live observations. */
  lemma {:induction false} LiveOfCohort(limits: Limits, rows: seq<Row>, total: nat, c: Cohort, p: Phase)
    requires Admitted(limits, rows, total)
    ensures GroupOf(rows, c, p).active == |InCohort(Open(rows), p, c)|
  {
    if |rows| > 0 {
      var init := rows[..|rows| - 1];
      LiveOfCohort(limits, init, total, c, p);
      LiveStep(limits, rows, total);
      CohortCount(Open(init), rows[|rows| - 1].event, p, c);
    }
  }

  lemma {:induction false} CohortPeakStep(limits: Limits, rows: seq<Row>, total: nat, c: Cohort, p: Phase)
    requires Admitted(limits, rows, total) && |rows| > 0
             && |InCohort(Open(rows[..|rows| - 1]), p, c)| <= GroupOf(rows[..|rows| - 1], c, p).peak
    ensures GroupOf(rows, c, p).peak == Max(GroupOf(rows[..|rows| - 1], c, p).peak, |InCohort(Open(rows), p, c)|)
  {
    LiveOfCohort(limits, rows, total, c, p);
    LiveOfCohort(limits, rows[..|rows| - 1], total, c, p);
  }

  /** The reported peak of a cohort is the largest number of its observations live after any prefix of the rows. */
  lemma {:induction false} CohortPeakIsMaximum(limits: Limits, rows: seq<Row>, total: nat, c: Cohort, p: Phase)
    requires Admitted(limits, rows, total)
    ensures forall k :: 0 <= k <= |rows| ==> |InCohort(Open(rows[..k]), p, c)| <= GroupOf(rows, c, p).peak
    ensures exists k :: 0 <= k <= |rows| && |InCohort(Open(rows[..k]), p, c)| == GroupOf(rows, c, p).peak
  {
    if |rows| == 0 {
      assert InCohort(Open(rows[..0]), p, c) == {};
    } else {
      var init := rows[..|rows| - 1];
      CohortPeakIsMaximum(limits, init, total, c, p);
      assert init[..|init|] == init;
      CohortPeakStep(limits, rows, total, c, p);
      ExtendMaximum(rows, (r: seq<Row>) => |InCohort(Open(r), p, c)|, (r: seq<Row>) => true, GroupOf(init, c, p).peak,
                    GroupOf(rows, c, p).peak);
    }
  }

  /** Every entry of a cohort is settled or live; a terminal is a success or a rejection. */
  lemma {:induction false} EntriesConserved(rows: seq<Row>, c: Cohort, p: Phase)
    ensures var g := GroupOf(rows, c, p);
            g.entered == g.settled + g.active && g.settled == g.succeeded + g.rejected
    ensures |SamplesOf(rows, c, p).all| == GroupOf(rows, c, p).settled
    ensures |SamplesOf(rows, c, p).success| == GroupOf(rows, c, p).succeeded
  {
    if |rows| > 0 {
      EntriesConserved(rows[..|rows| - 1], c, p);
    }
  }

  /** The two cohorts of a phase add up to the phase. */
  lemma {:induction false} CohortsAddUp(limits: Limits, rows: seq<Row>, total: nat, p: Phase)
    requires Admitted(limits, rows, total)
    ensures FlowOf(rows, p).entered == GroupOf(rows, Warmup, p).entered + GroupOf(rows, Measurement, p).entered
    ensures FlowOf(rows, p).active == GroupOf(rows, Warmup, p).active + GroupOf(rows, Measurement, p).active
  {
    if |rows| > 0 {
      CohortsAddUp(limits, rows[..|rows| - 1], total, p);
    }
  }

  ghost predicate Consistent(t: Tally) {
    0 <= t.succeeded && 0 <= t.rejected && t.settled == t.succeeded + t.rejected
  }

  lemma {:induction false} TallyConsistent(rows: seq<Row>, c: Cohort, p: Phase, stage: Stage)
    ensures Consistent(TallyOf(rows, c, p, stage))
  {
    if |rows| > 0 {
      TallyConsistent(rows[..|rows| - 1], c, p, stage);
    }
  }

  /** Stages run forward, so a stage not reached yet has no terminals. */
  lemma {:induction false} NoTerminalsAhead(limits: Limits, rows: seq<Row>, total: nat, c: Cohort, p: Phase)
    requires Admitted(limits, rows, total)
    ensures StageOf(rows) != Draining ==> TallyOf(rows, c, p, Draining) == NO_TALLY
    ensures StageOf(rows) == Created || StageOf(rows) == Warming ==> TallyOf(rows, c, p, Measuring) == NO_TALLY
  {
    if |rows| > 0 {
      NoTerminalsAhead(limits, rows[..|rows| - 1], total, c, p);
      LiveStep(limits, rows, total);
    }
  }

  /** Measured observations begin only inside the window. */
  lemma {:induction false} MeasuredBeginInside(limits: Limits, rows: seq<Row>, total: nat, p: Phase)
    requires Admitted(limits, rows, total) && (StageOf(rows) == Created || StageOf(rows) == Warming)
    ensures GroupOf(rows, Measurement, p) == NO_GROUP
    ensures forall o :: o in Open(rows) ==> Open(rows)[o].cohort == Warmup
  {
    if |rows| > 0 {
      MeasuredBeginInside(limits, rows[..|rows| - 1], total, p);
    }
  }

  /** From the window's opening on, live warmup is what was live then, less its terminals inside;
      and measured entries are inside terminals or live. */
  lemma {:induction false} InsideBalance(limits: Limits, rows: seq<Row>, total: nat, p: Phase)
    requires Admitted(limits, rows, total) && StageOf(rows) == Measuring
    ensures LiveAt(rows, Warmup, p, IsStart()) == TallyOf(rows, Warmup, p, Measuring).settled
            + GroupOf(rows, Warmup, p).active
    ensures GroupOf(rows, Measurement, p).entered == TallyOf(rows, Measurement, p, Measuring).settled
            + GroupOf(rows, Measurement, p).active
  {
    var init := rows[..|rows| - 1];
    if rows[|rows| - 1].event.StartMeasurement? {
      NoTerminalsAhead(limits, init, total, Warmup, p);
      NoTerminalsAhead(limits, init, total, Measurement, p);
      MeasuredBeginInside(limits, init, total, p);
    } else {
      InsideBalance(limits, init, total, p);
    }
  }

  /** From the window's closing on, the counts at the two boundaries are settled against each other. */
  lemma {:induction false} DrainBalance(limits: Limits, rows: seq<Row>, total: nat, c: Cohort, p: Phase)
    requires Admitted(limits, rows, total) && StageOf(rows) == Draining
    ensures LiveAt(rows, c, p, IsStop()) == TallyOf(rows, c, p, Draining).settled + GroupOf(rows, c, p).active
  {
    var init := rows[..|rows| - 1];
    if rows[|rows| - 1].event.StopMeasurement? {
      NoTerminalsAhead(limits, init, total, c, p);
    } else {
      DrainBalance(limits, init, total, c, p);
    }
  }

  /** What was measured at the stop stays as it was. */
  lemma {:induction false} AcrossTheStop(limits: Limits, rows: seq<Row>, total: nat, p: Phase)
    requires Admitted(limits, rows, total) && StageOf(rows) == Draining
    ensures LiveAt(rows, Warmup, p, IsStart()) == TallyOf(rows, Warmup, p, Measuring).settled
            + LiveAt(rows, Warmup, p, IsStop())
    ensures GroupOf(rows, Measurement, p).entered == TallyOf(rows, Measurement, p, Measuring).settled
            + LiveAt(rows, Measurement, p, IsStop())
  {
    var init := rows[..|rows| - 1];
    if rows[|rows| - 1].event.StopMeasurement? {
      InsideBalance(limits, init, total, p);
    } else {
      AcrossTheStop(limits, init, total, p);
    }
  }

  lemma {:induction false} DrainedCohort(limits: Limits, rows: seq<Row>, total: nat, c: Cohort, p: Phase)
    requires Admitted(limits, rows, total) && StageOf(rows) == Draining && Open(rows) == map[]
    ensures var g := GroupOf(rows, c, p);
            g.active == 0 && g.entered == g.settled
            && g.settled == g.succeeded + g.rejected
    ensures LiveAt(rows, c, p, IsStop()) == TallyOf(rows, c, p, Draining).settled
  {
    LiveOfCohort(limits, rows, total, c, p);
    assert InCohort(Open(rows), p, c) == {};
    EntriesConserved(rows, c, p);
    DrainBalance(limits, rows, total, c, p);
  }

  /** Conservation in the figures of one phase of a recording. */
  ghost predicate Conserves(r: PhaseSummary, warm: GroupSummary, measured: GroupSummary) {
    && r.entered == warm.entered + measured.entered
    && warm.entered == warm.settled && warm.settled == warm.succeeded + warm.rejected
    && measured.entered == measured.settled && measured.settled == measured.succeeded + measured.rejected
    && measured.entered == r.measurementInside.settled + r.measurementAtStop
    && r.measurementAfter.settled == r.measurementAtStop
    && r.warmupAfter.settled == r.warmupAtStop
    && r.warmupAtStart == r.warmupInside.settled + r.warmupAtStop
    && Consistent(r.warmupInside) && Consistent(r.measurementInside)
    && Consistent(r.warmupAfter) && Consistent(r.measurementAfter)
  }

  lemma {:induction false} RowsConserve(limits: Limits, rows: seq<Row>, total: nat, p: Phase, duration: int)
    requires Admitted(limits, rows, total) && StageOf(rows) == Draining && Open(rows) == map[]
    ensures Conserves(SummarizePhase(rows, p, duration),
                      SummarizeGroup(GroupOf(rows, Warmup, p), SamplesOf(rows, Warmup, p)),
                      SummarizeGroup(GroupOf(rows, Measurement, p), SamplesOf(rows, Measurement, p)))
  {
    CohortsAddUp(limits, rows, total, p);
    AcrossTheStop(limits, rows, total, p);
    DrainedCohort(limits, rows, total, Warmup, p);
    DrainedCohort(limits, rows, total, Measurement, p);
    TallyConsistent(rows, Warmup, p, Measuring);
    TallyConsistent(rows, Measurement, p, Measuring);
    TallyConsistent(rows, Warmup, p, Draining);
    TallyConsistent(rows, Measurement, p, Draining);
  }

  /** Every accepted recording conserves its observations across the window. */
  lemma {:induction false} WindowConservation(trace: Trace, recording: Recording, expected: Limits, p: Phase)
    requires Verdict(trace, recording, expected).Success?
    ensures p in recording.phases && Warmup in recording.cohorts && Measurement in recording.cohorts
    ensures p in recording.cohorts[Warmup].phases && p in recording.cohorts[Measurement].phases
    ensures Conserves(recording.phases[p], recording.cohorts[Warmup].phases[p],
            recording.cohorts[Measurement].phases[p])
  {
    FinalizedIsDrained(trace.limits, trace.rows, |trace.rows|);
    RowsConserve(trace.limits, trace.rows, |trace.rows|, p,
                 Latest(trace.rows, IsStop()).value - Latest(trace.rows, IsStart()).value);
  }

  // ---- how many rows a log can have ----------------------------------------------------

  lemma {:induction false} EveryRowHasAKind(rows: seq<Row>)
    ensures |rows| == Count(rows, IsBegin()) + Count(rows, IsFinish()) + Count(rows, IsBalance())
                      + Count(rows, IsWarmupStart()) + Count(rows, IsStart()) + Count(rows, IsStop())
                        + Count(rows, IsFinalize())
  {
    if |rows| > 0 {
      EveryRowHasAKind(rows[..|rows| - 1]);
    }
  }

  lemma {:induction false} BoundariesOnce(limits: Limits, rows: seq<Row>, total: nat)
    requires Admitted(limits, rows, total)
    ensures Count(rows, IsWarmupStart()) == (if Latest(rows, IsWarmupStart()).Some? then 1 else 0)
    ensures Count(rows, IsStart()) == (if Latest(rows, IsStart()).Some? then 1 else 0)
    ensures Count(rows, IsStop()) == (if Latest(rows, IsStop()).Some? then 1 else 0)
    ensures Count(rows, IsFinalize()) == (if Latest(rows, IsFinalize()).Some? then 1 else 0)
    ensures Latest(rows, IsWarmupStart()).Some? ==> StageOf(rows) != Created
  {
    if |rows| > 0 {
      BoundariesOnce(limits, rows[..|rows| - 1], total);
      if |rows| > 1 {
        BoundaryOrder(limits, rows[..|rows| - 1], total);
      }
    }
  }

  lemma {:induction false} LiveCount(limits: Limits, rows: seq<Row>, total: nat)
    requires Admitted(limits, rows, total)
    ensures Count(rows, IsBegin()) == Count(rows, IsFinish()) + |Open(rows)|
  {
    if |rows| > 0 {
      var init, event := rows[..|rows| - 1], rows[|rows| - 1].event;
      LiveCount(limits, init, total);
      LiveStep(limits, rows, total);
      if event.Begin? {
        assert Open(rows).Keys == Open(init).Keys + {event.observation};
      } else if event.Finish? {
        assert Open(rows).Keys == Open(init).Keys - {event.observation};
      }
    }
  }

  lemma {:induction false} CapacityKept(limits: Limits, rows: seq<Row>, total: nat)
    requires Admitted(limits, rows, total) && 0 <= limits.maxSamplesPerPhase
    ensures forall p: Phase :: 0 <= FlowOf(rows, p).entered <= limits.maxSamplesPerPhase
    ensures Count(rows, IsBalance()) <= limits.maxSamplesPerPhase
    ensures Count(rows, IsBegin()) == FlowOf(rows, Funding).entered + FlowOf(rows, FundedCall).entered
            + FlowOf(rows, LedgerTransaction).entered
  {
    if |rows| > 0 {
      CapacityKept(limits, rows[..|rows| - 1], total);
    }
  }

  /** A complete log has exactly two rows per observation, its balance checks and its boundaries;
      so the declared ceiling of seven rows per sample and four more can never be what refuses it. */
  lemma {:induction false} RowCeiling(limits: Limits, rows: seq<Row>)
    requires Admitted(limits, rows, |rows|) && CompleteWindowRows(rows) && 0 <= limits.maxSamplesPerPhase
    ensures |rows| == 2 * Count(rows, IsBegin()) + Count(rows, IsBalance()) + 3
                      + (if Latest(rows, IsWarmupStart()).Some? then 1 else 0)
    ensures 1 <= |rows| <= 7 * limits.maxSamplesPerPhase + 4
  {
    FinalizedIsDrained(limits, rows, |rows|);
    EveryRowHasAKind(rows);
    BoundariesOnce(limits, rows, |rows|);
    LiveCount(limits, rows, |rows|);
    CapacityKept(limits, rows, |rows|);
  }

  /** A live observation always passes the ordinal bound of FINISH. */
  lemma {:induction false} FinishOrdinalNeverRefuses(limits: Limits, rows: seq<Row>, total: nat, observation: int)
    requires Admitted(limits, rows, total) && 0 <= limits.maxSamplesPerPhase && observation in Open(rows)
    ensures 1 <= observation <= 3 * limits.maxSamplesPerPhase
  {
    OpenKeys(limits, rows, total);
    CapacityKept(limits, rows, total);
  }
}
