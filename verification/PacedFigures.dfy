/** Every figure that the paced replay carries is the one that the row positions determine. */
module PacedFigures {
  import opened Wrappers
  import opened Clock
  import opened Recorder
  import opened PacedTrace
  import opened PacedPositions
  import opened PacedPlaces
  import opened Positions
  import L = PacedLaws

  // ---- the two series ----------------------------------------------------------------------------

  lemma {:induction false} ClosesIs(rows: seq<Row>, k: nat, s: Series)
    requires k < |rows|
    ensures Opens(s, rows[k].event) <==> OpensAt(rows, k, s)
    ensures Closes(s, rows[k].event) <==> ClosesAt(rows, k, s)
    ensures ClosesAt(rows, k, s) ==> ClosesAs(rows, k, s, ClosingOutcome(rows[k].event))
    ensures ClosesAs(rows, k, s, Succeeded) ==> !ClosesAs(rows, k, s, Rejected)
    ensures !(OpensAt(rows, k, s) && ClosesAt(rows, k, s))
  {
  }

  lemma {:induction false} GroupNone(rows: seq<Row>, s: Series)
    ensures GroupAt(rows, 0, s) == NO_GROUP
  {
    NumberNone(Opening(rows, s));
    NumberNone(Closing(rows, s));
    NumberNone(ClosingAs(rows, s, Succeeded));
    NumberNone(ClosingAs(rows, s, Rejected));
  }

  lemma {:induction false} LevelNext(rows: seq<Row>, k: nat, s: Series)
    ensures OpenAt(rows, k + 1, s) == OpenAt(rows, k, s) + One(OpensAt(rows, k, s)) - One(ClosesAt(rows, k, s))
  {
    NumberNext(k, Opening(rows, s));
    NumberNext(k, Closing(rows, s));
  }

  lemma {:induction false} GroupNext(rows: seq<Row>, k: nat, s: Series)
    requires k < |rows|
    ensures var now := GroupAt(rows, k, s);
            GroupAt(rows, k + 1, s) ==
              if OpensAt(rows, k, s) then now.Enter()
              else if ClosesAt(rows, k, s) then now.Leave(ClosingOutcome(rows[k].event)) else now
  {
    ClosesIs(rows, k, s);
    LevelNext(rows, k, s);
    HighestNext(k, Level(rows, s));
    NumberNext(k, Opening(rows, s));
    NumberNext(k, Closing(rows, s));
    NumberNext(k, ClosingAs(rows, s, Succeeded));
    NumberNext(k, ClosingAs(rows, s, Rejected));
  }

  lemma {:induction false} GroupIs(rows: seq<Row>, n: nat, s: Series)
    requires n <= |rows|
    ensures SeriesGroup(s, rows[..n]) == GroupAt(rows, n, s)
  {
    if n == 0 {
      GroupNone(rows, s);
    } else {
      var k: nat := n - 1;
      assert k + 1 == n;
      PrefixNext(rows, k);
      GroupIs(rows, k, s);
      ClosesIs(rows, k, s);
      GroupNext(rows, k, s);
    }
  }

  /** What a row closes was opened at its own opening row. */
  lemma {:induction false} OpenedIs(plan: Plan, core: Core, rows: seq<Row>, k: nat, s: Series)
    requires k < |rows| && SoundBelow(plan, core, rows, k + 1) && ClosesAt(rows, k, s)
    ensures Latency(rows, s)(k) == rows[k].event.at - OpenedAt(s, Items(core, rows[..k]), rows[k].event)
  {
    var event := rows[k].event;
    var r := event.request;
    var kind := if s == Wait then IsWait() else IsDispatch();
    assert RowSound(plan, core, rows, k);
    SeenEither(rows, k, r);
    StepsAre(plan, core, rows, k, r);
    RequestsAre(plan, core, rows, k, r);
    ItemsAre(plan, core, rows, k);
    var items := Items(core, rows[..k]);
    assert ItemIs(core, rows, k, r, items[r - 1]);
    var at := if s == Wait then items[r - 1].waitAt else items[r - 1].sourceAt;
    assert Read(rows, k, kind, r, at);
    var j: nat :| j < k && Happens(rows, j, kind, r) && ReadingAt(rows, j) == at;
    assert OpenedBy(rows, k, s, j);
    var i := OpeningOf(rows, k, s);
    OpenedOnce(plan, core, rows, k, s, i, j);
    assert ReadingAt(rows, k) == event.at && ReadingAt(rows, i) == at;
  }

  lemma {:induction false} SamplesIs(plan: Plan, core: Core, rows: seq<Row>, n: nat, s: Series)
    requires n <= |rows| && SoundBelow(plan, core, rows, n)
    ensures SeriesSamples(core, s, rows[..n]).all == Values(n, Closing(rows, s), Latency(rows, s))
    ensures SeriesSamples(core, s, rows[..n]).success == Values(n, ClosingAs(rows, s, Succeeded), Latency(rows, s))
  {
    if n > 0 {
      var k: nat := n - 1;
      assert k + 1 == n;
      PrefixNext(rows, k);
      SamplesIs(plan, core, rows, k, s);
      ClosesIs(rows, k, s);
      if ClosesAt(rows, k, s) {
        OpenedIs(plan, core, rows, k, s);
      }
    }
  }

  lemma {:induction false} SpanIs(rows: seq<Row>, n: nat, s: Series)
    requires n <= |rows|
    ensures SpanSound(SeriesSpan(s, rows[..n]), n, Touching(rows, s), Reading(rows))
  {
    if n > 0 {
      var k: nat := n - 1;
      assert k + 1 == n;
      PrefixNext(rows, k);
      SpanIs(rows, k, s);
      ClosesIs(rows, k, s);
      SpanTicks(SeriesSpan(s, rows[..k]), k, Touching(rows, s), Reading(rows));
    }
  }

  /** The report of a series is the one the positions determine. */
  lemma {:induction false} SeriesRecorded(plan: Plan, core: Core, rows: seq<Row>, s: Series)
    requires SoundBelow(plan, core, rows, |rows|)
    ensures ReportOf(core, s, rows) == RecordedSeries(rows, s)
  {
    var n := |rows|;
    assert rows[..n] == rows;
    GroupIs(rows, n, s);
    SamplesIs(plan, core, rows, n, s);
    SpanIs(rows, n, s);
    SpanExtent(SeriesSpan(s, rows), n, Touching(rows, s), Reading(rows));
  }

  // ---- the queue ---------------------------------------------------------------------------------

  lemma {:induction false} QueueNext(rows: seq<Row>, k: nat)
    ensures QueueAt(rows, k + 1) ==
              QueueAt(rows, k) + One(At(rows, k, IsRequest())) - One(At(rows, k, IsLeave()))
  {
    NumberNext(k, Are(rows, IsRequest()));
    NumberNext(k, Are(rows, IsLeave()));
  }

  /** The length of the queue. */
  lemma {:induction false} QueueIs(plan: Plan, core: Core, rows: seq<Row>, n: nat)
    requires n <= |rows| && L.Admitted(plan, core, rows[..n], |rows|)
    ensures |Fifo(rows[..n])| == QueueAt(rows, n)
  {
    if n == 0 {
      NumberNone(Are(rows, IsRequest()));
      NumberNone(Are(rows, IsLeave()));
    } else {
      var k: nat := n - 1;
      assert k + 1 == n;
      PrefixNext(rows, k);
      L.AdmittedFits(plan, core, rows[..n], |rows|);
      QueueIs(plan, core, rows, k);
      QueueNext(rows, k);
    }
  }

  lemma {:induction false} PeakIs(plan: Plan, core: Core, rows: seq<Row>, n: nat)
    requires n <= |rows| && L.Admitted(plan, core, rows[..n], |rows|)
    ensures PeakQueue(rows[..n]) == Highest(0, n, QueueLevel(rows))
  {
    QueueIs(plan, core, rows, n);
    if n > 0 {
      var k: nat := n - 1;
      assert k + 1 == n;
      PrefixNext(rows, k);
      L.AdmittedFits(plan, core, rows[..n], |rows|);
      PeakIs(plan, core, rows, k);
      QueueIs(plan, core, rows, k);
      HighestNext(k, QueueLevel(rows));
      L.QueuePeakStep(rows[..n]);
    }
  }

  // ---- ordinals and starts -------------------------------------------------------------------------

  lemma {:induction false} OrdinalIs(plan: Plan, core: Core, rows: seq<Row>, n: nat, lane: int)
    requires n <= |rows| && SoundBelow(plan, core, rows, n)
    ensures NextOrdinal(rows[..n], lane) == Number(n, RequestsOf(rows, lane))
  {
    if n == 0 {
      NumberNone(RequestsOf(rows, lane));
    } else {
      var k: nat := n - 1;
      assert k + 1 == n;
      PrefixNext(rows, k);
      OrdinalIs(plan, core, rows, k, lane);
      NumberNext(k, RequestsOf(rows, lane));
      assert RowSound(plan, core, rows, k);
    }
  }

  /** The latest start before position n. */
  ghost predicate IsLastStart(rows: seq<Row>, n: nat, j: nat) {
    j < n && At(rows, j, IsDispatch()) && forall i: nat :: j < i < n ==> !At(rows, i, IsDispatch())
  }

  lemma {:induction false} StartsAre(rows: seq<Row>, n: nat)
    requires n <= |rows|
    ensures var starts := Starts(rows[..n]);
            if |starts| == 0 then forall j: nat :: j < n ==> !At(rows, j, IsDispatch())
            else exists j: nat :: IsLastStart(rows, n, j) && starts[|starts| - 1] == ReadingAt(rows, j)
  {
    if n > 0 {
      var k: nat := n - 1;
      PrefixNext(rows, k);
      StartsAre(rows, k);
      var before := Starts(rows[..k]);
      if At(rows, k, IsDispatch()) {
        assert IsLastStart(rows, n, k);
      } else if |before| > 0 {
        var j: nat :| IsLastStart(rows, k, j) && before[|before| - 1] == ReadingAt(rows, j);
        assert IsLastStart(rows, n, j);
      }
    }
  }
}
