/** The ceiling on parent rows is reached: for every sample bound there is an admitted log with that many rows. */
module ParentCeiling {
  import opened Wrappers
  import opened Clock
  import opened ParentTrace
  import L = ParentLaws

  /** Observation o belongs to the first phase with room. */
  function PhaseAt(samples: nat, o: nat): Phase {
    if o <= samples then Funding else if o <= 2 * samples then FundedCall else LedgerTransaction
  }

  /** The log opens both boundaries, then begins and finishes n observations one after the other. */
  function Filled(samples: nat, n: nat): seq<Row> {
    if n == 0 then [Row(1, StartWarmup(0)), Row(2, StartMeasurement(0))]
    else Filled(samples, n - 1) + [Row(2 * n + 1, Begin(n, PhaseAt(samples, n), Measurement, 0)),
      Row(2 * n + 2, Finish(n, Succeeded, 0))]
  }

  /** Then n balance checks. */
  function Checked(samples: nat, n: nat): seq<Row> {
    if n == 0 then Filled(samples, 3 * samples)
    else Checked(samples, n - 1) + [Row(6 * samples + 2 + n, BalanceCheck(true, 0))]
  }

  /** Then the window closes and the log ends. */
  function Fullest(samples: nat): seq<Row> {
    Checked(samples, samples) + [Row(7 * samples + 3, StopMeasurement(1)), Row(7 * samples + 4, Finalize(1))]
  }

  /** What the recorder knows in the middle of such a log. */
  ghost predicate Midway(rows: seq<Row>, begun: nat, checks: nat) {
    && StageOf(rows) == Measuring && Open(rows) == map[] && Count(rows, IsBegin()) == begun
       && Count(rows, IsBalance()) == checks
    && Latest(rows, IsFinalize()).None? && Latest(rows, IsStart()) == Some(0)
    && |rows| > 0 && rows[|rows| - 1].event.at == 0
  }

  /** Samples taken by the phase after n observations. */
  ghost function Taken(samples: nat, p: Phase, n: nat): nat {
    var before := match p case Funding => 0 case FundedCall => samples case LedgerTransaction => 2 * samples;
    if n <= before then 0 else if n <= before + samples then n - before else samples
  }

  lemma {:induction false} Append(rows: seq<Row>, row: Row)
    ensures (rows + [row])[..|rows|] == rows && (rows + [row])[|rows|] == row
  {
  }

  /** What one more row changes. */
  lemma {:induction false} Extend(rows: seq<Row>, row: Row)
    ensures var more := rows + [row];
            && StageOf(more) == StageAfter(StageOf(rows), row.event) && Open(more) == OpenAfter(Open(rows), row.event)
            && forall p: Phase :: FlowOf(more, p) == FlowAfter(FlowOf(rows, p), StageOf(rows), Open(rows), row.event, p)
  {
    Append(rows, row);
  }

  lemma {:induction false} ExtendCounts(rows: seq<Row>, row: Row)
    ensures var more, e := rows + [row], row.event;
            && Count(more, IsBegin()) == Count(rows, IsBegin()) + (if e.Begin? then 1 else 0)
            && Count(more, IsBalance()) == Count(rows, IsBalance()) + (if e.BalanceCheck? then 1 else 0)
            && Latest(more, IsFinalize()) == (if e.Finalize? then Some(e.at) else Latest(rows, IsFinalize()))
            && Latest(more, IsStart()) == (if e.StartMeasurement? then Some(e.at) else Latest(rows, IsStart()))
  {
    Append(rows, row);
  }

  lemma {:induction false} BeginFinish(limits: Limits, rows: seq<Row>, total: nat, n: nat, p: Phase)
    requires L.Admitted(limits, rows, total) && Midway(rows, n, 0) && |rows| == 2 * n + 2
    requires FlowOf(rows, p).entered < limits.maxSamplesPerPhase && FlowOf(rows, p).active == 0
             && 1 <= limits.maxInFlightPerPhase
    requires n + 1 <= 3 * limits.maxSamplesPerPhase
    ensures var more := rows + [Row(2 * n + 3, Begin(n + 1, p, Measurement, 0)),
            Row(2 * n + 4, Finish(n + 1, Succeeded, 0))];
            && L.Admitted(limits, more, total) && Midway(more, n + 1, 0) && |more| == 2 * n + 4
            && forall q: Phase :: FlowOf(more, q).active == FlowOf(rows, q).active
                                  && FlowOf(more, q).entered == FlowOf(rows, q).entered + (if q == p then 1 else 0)
  {
    var begin, finish := Row(2 * n + 3, Begin(n + 1, p, Measurement, 0)), Row(2 * n + 4, Finish(n + 1, Succeeded, 0));
    var one := rows + [begin];
    Append(rows, begin);
    Append(one, finish);
    assert rows + [begin, finish] == one + [finish];
    assert Admit(limits, rows, begin, total).Met?;
    assert Open(one) == map[n + 1 := Begun(0, p, Measurement)];
    assert Open(one + [finish]) == map[];
  }

  lemma {:induction false} TakenStep(samples: nat, p: Phase, n: nat)
    requires 0 < n <= 3 * samples
    ensures Taken(samples, p, n) == Taken(samples, p, n - 1) + (if p == PhaseAt(samples, n) then 1 else 0)
    ensures Taken(samples, PhaseAt(samples, n), n - 1) < samples
  {
  }

  ghost predicate CountersAt(rows: seq<Row>, samples: nat, n: nat) {
    forall p: Phase :: FlowOf(rows, p).active == 0 && FlowOf(rows, p).entered == Taken(samples, p, n)
  }

  lemma {:induction false} CountersStep(rows: seq<Row>, more: seq<Row>, samples: nat, n: nat)
    requires 0 < n <= 3 * samples && CountersAt(rows, samples, n - 1)
    requires forall q: Phase :: FlowOf(more, q).active == FlowOf(rows, q).active
                                && FlowOf(more, q).entered == FlowOf(rows, q).entered
                                   + (if q == PhaseAt(samples, n) then 1 else 0)
    ensures CountersAt(more, samples, n)
  {
    forall q: Phase {
      TakenStep(samples, q, n);
    }
  }

  lemma {:induction false} JustOpened(limits: Limits, total: nat)
    requires 1 <= limits.maxSamplesPerPhase
    ensures var rows := Filled(limits.maxSamplesPerPhase, 0);
            L.Admitted(limits, rows, total) && Midway(rows, 0, 0) && |rows| == 2
              && CountersAt(rows, limits.maxSamplesPerPhase, 0)
  {
    var none, warmup, start := [], Row(1, StartWarmup(0)), Row(2, StartMeasurement(0));
    var first, rows := none + [warmup], Filled(limits.maxSamplesPerPhase, 0);
    Extend(none, warmup);
    Extend(first, start);
    assert rows == first + [start];
    ExtendCounts(none, warmup);
    ExtendCounts(first, start);
    Append(none, warmup);
    Append(first, start);
    assert L.Admitted(limits, first, total);
    forall p: Phase ensures FlowOf(rows, p).active == 0 && FlowOf(rows, p).entered
      == Taken(limits.maxSamplesPerPhase, p, 0) {
      assert FlowOf(first, p) == NO_FLOW;
    }
  }

  lemma {:induction false} FilledStep(limits: Limits, total: nat, n: nat)
    requires 1 <= limits.maxSamplesPerPhase && 1 <= limits.maxInFlightPerPhase && 0 < n <= 3 * limits.maxSamplesPerPhase
    requires var rows := Filled(limits.maxSamplesPerPhase, n - 1);
             L.Admitted(limits, rows, total) && Midway(rows, n - 1, 0) && |rows| == 2 * n
               && CountersAt(rows, limits.maxSamplesPerPhase, n - 1)
    ensures var rows := Filled(limits.maxSamplesPerPhase, n);
            L.Admitted(limits, rows, total) && Midway(rows, n, 0) && |rows| == 2 * n + 2
              && CountersAt(rows, limits.maxSamplesPerPhase, n)
  {
    var samples, k := limits.maxSamplesPerPhase, n - 1;
    assert k + 1 == n;
    var before, p := Filled(samples, k), PhaseAt(samples, n);
    TakenStep(samples, p, n);
    BeginFinish(limits, before, total, k, p);
    CountersStep(before, Filled(samples, n), samples, n);
  }

  lemma {:induction false} FilledAdmitted(limits: Limits, total: nat, n: nat)
    requires 1 <= limits.maxSamplesPerPhase && 1 <= limits.maxInFlightPerPhase && n <= 3 * limits.maxSamplesPerPhase
    ensures var rows := Filled(limits.maxSamplesPerPhase, n);
            L.Admitted(limits, rows, total) && Midway(rows, n, 0) && |rows| == 2 * n + 2
              && CountersAt(rows, limits.maxSamplesPerPhase, n)
  {
    var samples := limits.maxSamplesPerPhase;
    if n == 0 {
      JustOpened(limits, total);
    } else {
      FilledAdmitted(limits, total, n - 1);
      FilledStep(limits, total, n);
    }
  }

  lemma {:induction false} CheckedAdmitted(limits: Limits, total: nat, n: nat)
    requires 1 <= limits.maxSamplesPerPhase && 1 <= limits.maxInFlightPerPhase && n <= limits.maxSamplesPerPhase
    ensures var rows := Checked(limits.maxSamplesPerPhase, n);
            L.Admitted(limits, rows, total) && Midway(rows, 3 * limits.maxSamplesPerPhase, n)
              && |rows| == 6 * limits.maxSamplesPerPhase + 2 + n
  {
    var samples := limits.maxSamplesPerPhase;
    if n == 0 {
      FilledAdmitted(limits, total, 3 * samples);
    } else {
      CheckedAdmitted(limits, total, n - 1);
      Append(Checked(samples, n - 1), Row(6 * samples + 2 + n, BalanceCheck(true, 0)));
    }
  }

  lemma {:induction false} FullestAdmitted(limits: Limits)
    requires 1 <= limits.maxSamplesPerPhase && 1 <= limits.maxInFlightPerPhase
    ensures var rows := Fullest(limits.maxSamplesPerPhase);
            L.Admitted(limits, rows, |rows|) && CompleteWindowRows(rows) && |rows| == 7 * limits.maxSamplesPerPhase + 4
  {
    var samples := limits.maxSamplesPerPhase;
    var total := 7 * samples + 4;
    CheckedAdmitted(limits, total, samples);
    var rows, stop, end := Checked(samples, samples), Row(7 * samples + 3, StopMeasurement(1)),
      Row(7 * samples + 4, Finalize(1));
    Append(rows, stop);
    Append(rows + [stop], end);
    assert Fullest(samples) == rows + [stop] + [end];
  }

  /** Every admitted pair of limits has an accepted trace that fills the declared maximum of rows. */
  lemma {:induction false} CeilingReached(limits: Limits)
    requires 1 <= limits.maxInFlightPerPhase <= limits.maxSamplesPerPhase <= 4096 && limits.maxInFlightPerPhase <= 64
    ensures var trace := Trace(limits, 7 * limits.maxSamplesPerPhase + 4, Fullest(limits.maxSamplesPerPhase));
            && CompleteWindowRows(trace.rows) && |trace.rows| == trace.maximumEvents
            && Verdict(trace, Rebuild(limits, trace.rows), limits).Success?
  {
    FullestAdmitted(limits);
  }
}
