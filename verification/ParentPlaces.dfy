/** Where a replay of the parent log stands after each of its prefixes, told from the positions of the rows. */
module ParentPlaces {
  import opened Wrappers
  import opened Clock
  import opened Recorder
  import opened Percentiles
  import opened ParentTrace
  import opened ParentPositions
  import opened Positions

  // ---- prefixes -----------------------------------------------------------------------------

  lemma {:induction false} PrefixNext(rows: seq<Row>, k: nat)
    requires k < |rows|
    ensures rows[..k + 1][..k] == rows[..k] && rows[..k + 1][k] == rows[k] && |rows[..k + 1]| == k + 1
  {
  }

  lemma {:induction false} BeforeNext(rows: seq<Row>, k: nat, kind: Event -> bool)
    ensures Before(rows, k + 1, kind) <==> Before(rows, k, kind) || At(rows, k, kind)
  {
    if Before(rows, k + 1, kind) {
      var j: nat :| j < k + 1 && At(rows, j, kind);
      assert j < k || j == k;
    }
  }

  lemma {:induction false} CountIs(rows: seq<Row>, n: nat, kind: Event -> bool)
    requires n <= |rows|
    ensures Count(rows[..n], kind) == Number(n, Are(rows, kind))
  {
    if n == 0 {
      NumberNone(Are(rows, kind));
    } else {
      var k: nat := n - 1;
      PrefixNext(rows, k);
      CountIs(rows, k, kind);
      NumberNext(k, Are(rows, kind));
    }
  }

  /** Position j holds the latest row of the kind before position n. */
  ghost predicate IsLatest(rows: seq<Row>, n: nat, kind: Event -> bool, j: nat) {
    j < n && At(rows, j, kind) && forall i: nat :: j < i < n ==> !At(rows, i, kind)
  }

  ghost predicate LatestTold(rows: seq<Row>, n: nat, kind: Event -> bool, latest: Option<int>) {
    && n <= |rows| && (latest.Some? <==> Before(rows, n, kind))
    && (latest.Some? ==> exists j: nat :: IsLatest(rows, n, kind, j) && latest.value == rows[j].event.at)
  }

  lemma {:induction false} LatestNext(rows: seq<Row>, k: nat, kind: Event -> bool, latest: Option<int>)
    requires k < |rows| && LatestTold(rows, k, kind, latest)
    ensures LatestTold(rows, k + 1, kind, if kind(rows[k].event) then Some(rows[k].event.at) else latest)
  {
    BeforeNext(rows, k, kind);
    if At(rows, k, kind) {
      assert IsLatest(rows, k + 1, kind, k);
    } else if latest.Some? {
      var j: nat :| IsLatest(rows, k, kind, j) && latest.value == rows[j].event.at;
      assert IsLatest(rows, k + 1, kind, j);
    }
  }

  lemma {:induction false} LatestIs(rows: seq<Row>, n: nat, kind: Event -> bool)
    requires n <= |rows|
    ensures LatestTold(rows, n, kind, Latest(rows[..n], kind))
  {
    if n > 0 {
      var k: nat := n - 1;
      assert k + 1 == n;
      PrefixNext(rows, k);
      LatestIs(rows, k, kind);
      LatestNext(rows, k, kind, Latest(rows[..k], kind));
    }
  }

  /** The stage that the boundary rows before position k lead to. */
  ghost function StageAt(rows: seq<Row>, k: nat): Stage {
    if Before(rows, k, IsStop()) then Draining
    else if Before(rows, k, IsStart()) then Measuring
    else if k > 0 then Warming else Created
  }

  lemma {:induction false} StopAfterStart(limits: Limits, rows: seq<Row>, n: nat)
    requires n <= |rows| && SoundBelow(limits, rows, n) && Before(rows, n, IsStop())
    ensures Before(rows, n, IsStart())
  {
    var t: nat :| t < n && At(rows, t, IsStop());
    assert RowSound(limits, rows, t);
    var s: nat :| s < t && rows[s].event.StartMeasurement? && rows[s].event.at < rows[t].event.at;
    assert At(rows, s, IsStart());
  }

  lemma {:induction false} StageIs(limits: Limits, rows: seq<Row>, n: nat)
    requires n <= |rows| && SoundBelow(limits, rows, n)
    ensures StageOf(rows[..n]) == StageAt(rows, n)
  {
    if n > 0 {
      var k: nat := n - 1;
      PrefixNext(rows, k);
      StageIs(limits, rows, k);
      BeforeNext(rows, k, IsStart());
      BeforeNext(rows, k, IsStop());
      assert RowSound(limits, rows, k);
      if Before(rows, k, IsStop()) {
        StopAfterStart(limits, rows, k);
      }
    }
  }

  // ---- observations ---------------------------------------------------------------------------

  lemma {:induction false} OrdinalsRise(limits: Limits, rows: seq<Row>, n: nat, i: nat, j: nat)
    requires n <= |rows| && SoundBelow(limits, rows, n) && i < j < n
    requires rows[i].event.Begin? && rows[j].event.Begin?
    ensures rows[i].event.observation < rows[j].event.observation
  {
    assert RowSound(limits, rows, i) && RowSound(limits, rows, j);
    NumberNext(i, Are(rows, IsBegin()));
    NumberGrows(i + 1, j, Are(rows, IsBegin()));
  }

  /** A row ends at most one observation. */
  lemma {:induction false} OneBegin(limits: Limits, rows: seq<Row>, n: nat, b: nat, d: nat, f: nat)
    requires n <= |rows| && SoundBelow(limits, rows, n) && f <= n && Ends(rows, b, f) && Ends(rows, d, f)
    ensures b == d
  {
    if b < d {
      OrdinalsRise(limits, rows, n, b, d);
    } else if d < b {
      OrdinalsRise(limits, rows, n, d, b);
    }
  }

  /** Row b begins an observation that no row before position n ends. */
  ghost predicate Unended(rows: seq<Row>, n: nat, b: nat) {
    b < n && b < |rows| && rows[b].event.Begin? && forall f: nat :: f < n ==> !Ends(rows, b, f)
  }

  ghost function BegunAt(rows: seq<Row>, b: nat): Begun
    requires b < |rows| && rows[b].event.Begin?
  {
    Begun(rows[b].event.at, rows[b].event.phase, rows[b].event.cohort)
  }

  ghost predicate Holds(rows: seq<Row>, b: nat, open: map<int, Begun>) {
    b < |rows| && rows[b].event.Begin? && rows[b].event.observation in open
    && open[rows[b].event.observation] == BegunAt(rows, b)
  }

  ghost predicate OpenAre(rows: seq<Row>, n: nat, open: map<int, Begun>) {
    && (forall b: nat :: Unended(rows, n, b) ==> Holds(rows, b, open))
    && (forall o :: o in open ==> exists b: nat :: Unended(rows, n, b) && rows[b].event.observation == o)
  }

  lemma {:induction false} UnendedNext(rows: seq<Row>, k: nat, b: nat)
    ensures Unended(rows, k + 1, b) <==>
              if b == k then k < |rows| && rows[k].event.Begin? else Unended(rows, k, b) && !Ends(rows, b, k)
  {
    if b != k && Unended(rows, k, b) && !Ends(rows, b, k) {
      forall f: nat | f < k + 1 ensures !Ends(rows, b, f) {
        assert f < k || f == k;
      }
    }
  }

  lemma {:induction false} BeginOpens(limits: Limits, rows: seq<Row>, k: nat, open: map<int, Begun>)
    requires k < |rows| && SoundBelow(limits, rows, k + 1) && OpenAre(rows, k, open) && rows[k].event.Begin?
    ensures OpenAre(rows, k + 1, OpenAfter(open, rows[k].event))
  {
    var after := OpenAfter(open, rows[k].event);
    forall b: nat | Unended(rows, k + 1, b) ensures Holds(rows, b, after) {
      UnendedNext(rows, k, b);
      if b != k {
        OrdinalsRise(limits, rows, k + 1, b, k);
      }
    }
    forall o | o in after ensures exists b: nat :: Unended(rows, k + 1, b) && rows[b].event.observation == o {
      if o == rows[k].event.observation {
        UnendedNext(rows, k, k);
      } else {
        var b: nat :| Unended(rows, k, b) && rows[b].event.observation == o;
        UnendedNext(rows, k, b);
      }
    }
  }

  lemma {:induction false} OtherOpens(rows: seq<Row>, k: nat, open: map<int, Begun>)
    requires k < |rows| && OpenAre(rows, k, open) && !rows[k].event.Begin?
    ensures OpenAre(rows, k + 1, OpenAfter(open, rows[k].event))
  {
    var after := OpenAfter(open, rows[k].event);
    forall b: nat | Unended(rows, k + 1, b) ensures Holds(rows, b, after) {
      UnendedNext(rows, k, b);
    }
    forall o | o in after ensures exists b: nat :: Unended(rows, k + 1, b) && rows[b].event.observation == o {
      var b: nat :| Unended(rows, k, b) && rows[b].event.observation == o;
      UnendedNext(rows, k, b);
    }
  }

  /** The live observations are those begun and not ended. */
  lemma {:induction false} OpenIs(limits: Limits, rows: seq<Row>, n: nat)
    requires n <= |rows| && SoundBelow(limits, rows, n)
    ensures OpenAre(rows, n, Open(rows[..n]))
  {
    if n > 0 {
      var k: nat := n - 1;
      PrefixNext(rows, k);
      OpenIs(limits, rows, k);
      if rows[k].event.Begin? {
        BeginOpens(limits, rows, k, Open(rows[..k]));
      } else {
        OtherOpens(rows, k, Open(rows[..k]));
      }
    }
  }

  /** A FINISH row settles the observation that its BEGIN row opened. */
  lemma {:induction false} SettlesIs(limits: Limits, rows: seq<Row>, k: nat, c: Cohort, p: Phase)
    requires k < |rows| && SoundBelow(limits, rows, k + 1)
    ensures SettlesIn(Open(rows[..k]), rows[k].event, c, p) <==> EndsIn(rows, k, c, p)
    ensures EndsIn(rows, k, c, p)
            ==> Latency(rows)(k) == rows[k].event.at - Open(rows[..k])[rows[k].event.observation].at
    ensures rows[k].event.Finish? ==>
              exists d: Cohort, q: Phase :: EndsIn(rows, k, d, q)
                && rows[k].event.observation in Open(rows[..k])
                && Open(rows[..k])[rows[k].event.observation].cohort == d
                && Open(rows[..k])[rows[k].event.observation].phase == q
  {
    OpenIs(limits, rows, k);
    assert RowSound(limits, rows, k);
    if rows[k].event.Finish? {
      var b: nat :| Ends(rows, b, k) && forall f: nat :: f < k ==> !Ends(rows, b, f);
      assert Unended(rows, k, b) && Holds(rows, b, Open(rows[..k]));
      var d := BeginOf(rows, k);
      OneBegin(limits, rows, k + 1, b, d, k);
      assert d == BeginOf(rows, k) == b;
      assert ReadingAt(rows, k) == rows[k].event.at;
      assert ReadingAt(rows, b) == rows[b].event.at;
      assert Latency(rows)(k) == ReadingAt(rows, k) - ReadingAt(rows, BeginOf(rows, k));
      forall d: nat | Ends(rows, d, k) ensures d == b {
        OneBegin(limits, rows, k + 1, b, d, k);
      }
      assert BeginsIn(rows, b, rows[b].event.cohort, rows[b].event.phase);
      assert EndsIn(rows, k, rows[b].event.cohort, rows[b].event.phase);
    }
  }
}
