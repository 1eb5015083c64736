/** A balance log is accepted exactly when its lanes run their scripts and its events lie as they should to the parent's
    window and checks. */
module BalanceExact {
  import opened Wrappers
  import opened Clock
  import opened Percentiles
  import opened Positions
  import opened BalanceTrace
  import opened BalancePositions
  import L = BalanceLaws
  import P = ParentTrace
  import PE = ParentExact
  import PP = ParentPositions
  import PX = ParentPlaces

  // ---- the lists by position --------------------------------------------------------------------

  /** Every value comes from a position, and its place in the list is the number of those before. */
  lemma {:induction false} ValueFrom(n: nat, when: nat -> bool, what: nat -> int, i: nat) returns (k: nat)
    requires i < |Values(n, when, what)|
    ensures k < n && when(k) && Number(k, when) == i && Values(n, when, what)[i] == what(k)
  {
    var m: nat := n - 1;
    ValuesMeaning(m, when, what);
    if i < |Values(m, when, what)| {
      k := ValueFrom(m, when, what, i);
    } else {
      k := m;
    }
  }

  lemma {:induction false} BeforeIs(n: nat, a: nat -> bool, f: nat -> int, m: nat, b: nat -> bool, g: nat -> int)
    requires Number(n, a) > 0 && Number(m, b) > 0
    ensures Before(Values(n, a, f), Values(m, b, g)) <==>
              forall k: nat, j: nat :: k < n && j < m && a(k) && b(j) ==> f(k) <= g(j)
  {
    var s, t := Values(n, a, f), Values(m, b, g);
    ValuesMeaning(n, a, f);
    ValuesMeaning(m, b, g);
    L.BeforeMeansAll(s, t);
    if Before(s, t) {
      forall k: nat, j: nat | k < n && j < m && a(k) && b(j) ensures f(k) <= g(j) {
        assert s[Number(k, a)] == f(k) && t[Number(j, b)] == g(j);
        assert f(k) in s && g(j) in t;
      }
    }
    if forall k: nat, j: nat :: k < n && j < m && a(k) && b(j) ==> f(k) <= g(j) {
      forall x, y | x in s && y in t ensures x <= y {
        var p :| 0 <= p < |s| && s[p] == x;
        var q :| 0 <= q < |t| && t[q] == y;
        var k := ValueFrom(n, a, f, p);
        var j := ValueFrom(m, b, g, q);
      }
    }
  }

  lemma {:induction false} FromOne(at: int, m: nat, b: nat -> bool, g: nat -> int)
    requires Number(m, b) > 0
    ensures Before([at], Values(m, b, g)) <==> forall j: nat :: j < m && b(j) ==> at <= g(j)
  {
    var here, read := (k: nat) => true, (k: nat) => at;
    NumberNone(here);
    NumberNext(0, here);
    assert Values(0, here, read) == [] && Values(1, here, read) == [at];
    BeforeIs(1, here, read, m, b, g);
    assert here(0) && read(0) == at;
  }

  lemma {:induction false} ToOne(n: nat, a: nat -> bool, f: nat -> int, at: int)
    requires Number(n, a) > 0
    ensures Before(Values(n, a, f), [at]) <==> forall k: nat :: k < n && a(k) ==> f(k) <= at
  {
    var here, read := (k: nat) => true, (k: nat) => at;
    NumberNone(here);
    NumberNext(0, here);
    assert Values(0, here, read) == [] && Values(1, here, read) == [at];
    BeforeIs(n, a, f, 1, here, read);
    assert here(0) && read(0) == at;
  }

  lemma {:induction false} StartsAre(events: seq<Event>, n: nat, barrier: int)
    requires n <= |events|
    ensures Starts(events[..n], barrier) == Values(n, Beginning(events, barrier), Reading(events))
  {
    if n > 0 {
      var k: nat := n - 1;
      assert k + 1 == n && events[..n][..k] == events[..k] && events[..n][k] == events[k];
      StartsAre(events, k, barrier);
    }
  }

  lemma {:induction false} EndsAre(events: seq<Event>, n: nat, barrier: int)
    requires n <= |events|
    ensures Ends(events[..n], barrier) == Values(n, Ending(events, barrier), Reading(events))
  {
    if n > 0 {
      var k: nat := n - 1;
      assert k + 1 == n && events[..n][..k] == events[..k] && events[..n][k] == events[k];
      EndsAre(events, k, barrier);
    }
  }

  lemma {:induction false} ChecksAre(rows: seq<P.Row>, n: nat)
    requires n <= |rows|
    ensures Checks(rows[..n]) == Values(n, Checking(rows), PP.Reading(rows))
  {
    if n > 0 {
      var k: nat := n - 1;
      assert k + 1 == n && rows[..n][..k] == rows[..k] && rows[..n][k] == rows[k];
      ChecksAre(rows, k);
    }
  }

  lemma {:induction false} ListsAre(events: seq<Event>, barrier: int)
    ensures Starts(events, barrier) == Values(|events|, Beginning(events, barrier), Reading(events))
    ensures Ends(events, barrier) == Values(|events|, Ending(events, barrier), Reading(events))
    ensures |Starts(events, barrier)| == Number(|events|, Beginning(events, barrier))
    ensures |Ends(events, barrier)| == Number(|events|, Ending(events, barrier))
  {
    assert events[..|events|] == events;
    StartsAre(events, |events|, barrier);
    EndsAre(events, |events|, barrier);
    ValuesMeaning(|events|, Beginning(events, barrier), Reading(events));
    ValuesMeaning(|events|, Ending(events, barrier), Reading(events));
  }

  // ---- durations ----------------------------------------------------------------------------------

  /** The open barrier of a lane was begun by its one BEGIN of that barrier. */
  ghost predicate OpenAt(events: seq<Event>, n: nat, lane: int) {
    && n <= |events|
    && (forall j: nat :: j < n && events[j].Begin? && events[j].lane == lane ==>
          events[j].barrier <= Ended(events[..n], lane)
          && (events[j].barrier == Ended(events[..n], lane) ==> Pending(events[..n], lane) == Some(events[j].at)))
    && (Pending(events[..n], lane).Some? ==>
          exists j: nat :: j < n && events[j].Begin? && events[j].lane == lane
                           && events[j].barrier == Ended(events[..n], lane))
  }

  lemma {:induction false} AdmittedNext(lanes: nat, maximum: int, events: seq<Event>, k: nat)
    requires k < |events| && L.Admitted(lanes, maximum, events[..k + 1])
    ensures L.Admitted(lanes, maximum, events[..k]) && Admit(lanes, maximum, events[..k], events[k]).Met?
    ensures events[..k + 1][..k] == events[..k] && events[..k + 1][k] == events[k]
  {
    assert events[..k + 1][..k] == events[..k] && events[..k + 1][k] == events[k];
  }

  lemma {:induction false} OpenNext(lanes: nat, maximum: int, events: seq<Event>, k: nat, lane: int)
    requires k < |events| && L.Admitted(lanes, maximum, events[..k + 1]) && OpenAt(events, k, lane)
    ensures OpenAt(events, k + 1, lane)
  {
    AdmittedNext(lanes, maximum, events, k);
    var e := events[k];
    if e.lane == lane && e.Begin? {
      assert e.barrier == Ended(events[..k + 1], lane);
    } else if e.lane != lane && Pending(events[..k], lane).Some? {
      var j: nat :| j < k && events[j].Begin? && events[j].lane == lane
                    && events[j].barrier == Ended(events[..k], lane);
      assert events[j].barrier == Ended(events[..k + 1], lane);
    }
  }

  lemma {:induction false} OpenIs(lanes: nat, maximum: int, events: seq<Event>, n: nat, lane: int)
    requires n <= |events| && L.Admitted(lanes, maximum, events[..n])
    ensures OpenAt(events, n, lane)
  {
    if n > 0 {
      var k: nat := n - 1;
      assert k + 1 == n;
      AdmittedNext(lanes, maximum, events, k);
      OpenIs(lanes, maximum, events, k, lane);
      OpenNext(lanes, maximum, events, k, lane);
    }
  }

  lemma {:induction false} ElapsedIs(lanes: nat, maximum: int, events: seq<Event>, k: nat)
    requires k < |events| && events[k].End? && L.Admitted(lanes, maximum, events[..k + 1])
    ensures Elapsed(events[..k + 1]) == DurationAt(events, k)
  {
    AdmittedNext(lanes, maximum, events, k);
    var lane := events[k].lane;
    OpenIs(lanes, maximum, events, k, lane);
    var j: nat :| j < k && events[j].Begin? && events[j].lane == lane && events[j].barrier == Ended(events[..k], lane);
    assert BegunBy(events, k, j);
    assert BegunBy(events, k, BeginOf(events, k));
  }

  lemma {:induction false} BarrierSeriesIs(lanes: nat, maximum: int, events: seq<Event>, n: nat, barrier: int)
    requires n <= |events| && L.Admitted(lanes, maximum, events[..n])
    ensures BarrierSeries(events[..n], barrier) == Values(n, Ending(events, barrier), Duration(events))
  {
    if n > 0 {
      var k: nat := n - 1;
      assert k + 1 == n;
      AdmittedNext(lanes, maximum, events, k);
      BarrierSeriesIs(lanes, maximum, events, k, barrier);
      if events[k].End? {
        ElapsedIs(lanes, maximum, events, k);
      }
    }
  }

  lemma {:induction false} LaneSeriesIs(lanes: nat, maximum: int, events: seq<Event>, n: nat, lane: int)
    requires n <= |events| && L.Admitted(lanes, maximum, events[..n])
    ensures LaneSeries(events[..n], lane) == Values(n, EndingOn(events, lane), Duration(events))
  {
    if n > 0 {
      var k: nat := n - 1;
      assert k + 1 == n;
      AdmittedNext(lanes, maximum, events, k);
      LaneSeriesIs(lanes, maximum, events, k, lane);
      if events[k].End? {
        ElapsedIs(lanes, maximum, events, k);
      }
    }
  }

  lemma {:induction false} MetricsAre(lanes: nat, maximum: int, events: seq<Event>)
    requires L.Admitted(lanes, maximum, events)
    ensures BarrierMetrics(events) == MetricsOf(events)
    ensures forall lane: nat :: Summarize(LaneSeries(events, lane)) == LaneMetric(events, lane)
  {
    assert events[..|events|] == events;
    BarrierSeriesIs(lanes, maximum, events, |events|, 0);
    BarrierSeriesIs(lanes, maximum, events, |events|, 1);
    BarrierSeriesIs(lanes, maximum, events, |events|, 2);
    forall lane: nat ensures Summarize(LaneSeries(events, lane)) == LaneMetric(events, lane) {
      LaneSeriesIs(lanes, maximum, events, |events|, lane);
    }
  }

  lemma {:induction false} LaneMetricsAre(events: seq<Event>, n: nat)
    ensures |LaneMetrics(events, n)| == n
    ensures forall lane: nat :: lane < n ==> LaneMetrics(events, n)[lane] == Summarize(LaneSeries(events, lane))
  {
    if n > 0 {
      LaneMetricsAre(events, n - 1);
    }
  }

  // ---- the window -----------------------------------------------------------------------------------

  lemma {:induction false} OnceIs(rows: seq<P.Row>, kind: P.Event -> bool)
    ensures P.Count(rows, kind) == 1 <==> exists k: nat :: PP.OnlyAt(rows, k, kind)
  {
    var n, places := |rows|, Where(|rows|, PP.Are(rows, kind));
    assert rows[..n] == rows;
    PX.CountIs(rows, n, kind);
    if P.Count(rows, kind) == 1 {
      var k :| k in places;
      assert |places - {k}| == 0;
      assert PP.OnlyAt(rows, k, kind) by {
        forall j: nat | PP.At(rows, j, kind) ensures j == k {
          assert j in places;
        }
      }
    }
    if exists k: nat :: PP.OnlyAt(rows, k, kind) {
      var k: nat :| PP.OnlyAt(rows, k, kind);
      assert places == {k};
    }
  }

  /** Every barrier is begun and ended. */
  ghost predicate Populated(events: seq<Event>, lanes: nat) {
    && lanes > 0
    && (forall b: nat :: b < BARRIERS ==> |Starts(events, b)| == |Ends(events, b)| == lanes)
  }

  lemma {:induction false} BeginAfterIs(events: seq<Event>, lanes: nat, b: nat, at: int)
    requires Populated(events, lanes) && b < BARRIERS
    ensures Before([at], Starts(events, b)) <==> BeginNotBefore(events, b, at)
  {
    ListsAre(events, b);
    FromOne(at, |events|, Beginning(events, b), Reading(events));
    if Before([at], Starts(events, b)) {
      forall k: nat | Begins(events, k, b) ensures at <= events[k].at {
        assert Beginning(events, b)(k) && at <= Reading(events)(k);
      }
    }
    if BeginNotBefore(events, b, at) {
      forall k: nat | k < |events| && Beginning(events, b)(k) ensures at <= Reading(events)(k) {
        assert Begins(events, k, b);
      }
    }
  }

  lemma {:induction false} EndBeforeIs(events: seq<Event>, lanes: nat, b: nat, at: int)
    requires Populated(events, lanes) && b < BARRIERS
    ensures Before(Ends(events, b), [at]) <==> EndNotAfter(events, b, at)
  {
    ListsAre(events, b);
    ToOne(|events|, Ending(events, b), Reading(events), at);
    if Before(Ends(events, b), [at]) {
      forall k: nat | EndsAt(events, k, b) ensures events[k].at <= at {
        assert Ending(events, b)(k) && Reading(events)(k) <= at;
      }
    }
    if EndNotAfter(events, b, at) {
      forall k: nat | k < |events| && Ending(events, b)(k) ensures Reading(events)(k) <= at {
        assert EndsAt(events, k, b);
      }
    }
  }

  lemma {:induction false} MeetingIs(events: seq<Event>, lanes: nat)
    requires Populated(events, lanes)
    ensures Before(Ends(events, 0), Starts(events, 1)) <==>
              forall i: nat, j: nat :: EndsAt(events, i, 0) && Begins(events, j, 1) ==> events[i].at <= events[j].at
  {
    var n, a, b, f := |events|, Ending(events, 0), Beginning(events, 1), Reading(events);
    ListsAre(events, 0);
    ListsAre(events, 1);
    BeforeIs(n, a, f, n, b, f);
    MeetingRead(events);
  }

  lemma {:induction false} MeetingRead(events: seq<Event>)
    ensures var n, a, b, f := |events|, Ending(events, 0), Beginning(events, 1), Reading(events);
            (forall k: nat, j: nat :: k < n && j < n && a(k) && b(j) ==> f(k) <= f(j)) <==>
              forall i: nat, j: nat :: EndsAt(events, i, 0) && Begins(events, j, 1) ==> events[i].at <= events[j].at
  {
    var n, a, b, f := |events|, Ending(events, 0), Beginning(events, 1), Reading(events);
    if forall k: nat, j: nat :: k < n && j < n && a(k) && b(j) ==> f(k) <= f(j) {
      forall i: nat, j: nat | EndsAt(events, i, 0) && Begins(events, j, 1) ensures events[i].at <= events[j].at {
        assert a(i) && b(j) && f(i) <= f(j);
      }
    }
    if forall i: nat, j: nat :: EndsAt(events, i, 0) && Begins(events, j, 1) ==> events[i].at <= events[j].at {
      forall k: nat, j: nat | k < n && j < n && a(k) && b(j) ensures f(k) <= f(j) {
        assert EndsAt(events, k, 0) && Begins(events, j, 1);
      }
    }
  }

  lemma {:induction false} AroundIs(events: seq<Event>, rows: seq<P.Row>, lanes: nat, start: nat, stop: nat)
    requires |rows| > 0 && Populated(events, lanes)
    requires PP.OnlyAt(rows, start, P.IsStart()) && PP.OnlyAt(rows, stop, P.IsStop())
    ensures PhasesOrdered(events, rows) <==> AroundWindow(events, rows, start, stop)
  {
    PE.LatestOnly(rows, start, P.IsStart());
    PE.LatestOnly(rows, stop, P.IsStop());
    BeginAfterIs(events, lanes, 0, rows[0].event.at);
    EndBeforeIs(events, lanes, 1, rows[start].event.at);
    BeginAfterIs(events, lanes, 2, rows[stop].event.at);
    EndBeforeIs(events, lanes, 2, rows[|rows| - 1].event.at);
    MeetingIs(events, lanes);
  }

  lemma {:induction false} WindowIs(events: seq<Event>, rows: seq<P.Row>, lanes: nat)
    requires |rows| > 0 && Populated(events, lanes)
    ensures P.Count(rows, P.IsStart()) == P.Count(rows, P.IsStop()) == 1 && PhasesOrdered(events, rows) <==>
              exists start: nat, stop: nat :: AroundWindow(events, rows, start, stop)
  {
    OnceIs(rows, P.IsStart());
    OnceIs(rows, P.IsStop());
    if P.Count(rows, P.IsStart()) == P.Count(rows, P.IsStop()) == 1 && PhasesOrdered(events, rows) {
      var start: nat :| PP.OnlyAt(rows, start, P.IsStart());
      var stop: nat :| PP.OnlyAt(rows, stop, P.IsStop());
      AroundIs(events, rows, lanes, start, stop);
    }
    if exists start: nat, stop: nat :: AroundWindow(events, rows, start, stop) {
      var start: nat, stop: nat :| AroundWindow(events, rows, start, stop);
      AroundIs(events, rows, lanes, start, stop);
    }
  }

  // ---- the checks ------------------------------------------------------------------------------------

  lemma {:induction false} CheckList(rows: seq<P.Row>)
    ensures Checks(rows) == Values(|rows|, Checking(rows), PP.Reading(rows))
    ensures |Checks(rows)| == Number(|rows|, Checking(rows))
  {
    assert rows[..|rows|] == rows;
    ChecksAre(rows, |rows|);
    ValuesMeaning(|rows|, Checking(rows), PP.Reading(rows));
  }

  lemma {:induction false} CheckPlaced(rows: seq<P.Row>, c: nat)
    requires IsCheckAt(rows, c)
    ensures Number(c, Checking(rows)) < |Checks(rows)|
    ensures Checks(rows)[Number(c, Checking(rows))] == rows[c].event.at
  {
    CheckList(rows);
    ValuesMeaning(|rows|, Checking(rows), PP.Reading(rows));
    assert Checking(rows)(c);
  }

  lemma {:induction false} EndPlaced(events: seq<Event>, b: nat, k: nat)
    requires EndsAt(events, k, b)
    ensures Number(k, Ending(events, b)) < |Ends(events, b)|
    ensures Ends(events, b)[Number(k, Ending(events, b))] == events[k].at
  {
    ListsAre(events, b);
    ValuesMeaning(|events|, Ending(events, b), Reading(events));
    assert Ending(events, b)(k);
  }

  lemma {:induction false} CheckAt(rows: seq<P.Row>, lanes: nat, b: nat, i: nat)
    requires b < BARRIERS && |Checks(rows)| == BARRIERS * lanes && i < lanes
    ensures |ChecksOf(rows, lanes, b)| == lanes && b * lanes + i < |Checks(rows)|
    ensures ChecksOf(rows, lanes, b)[i] == Checks(rows)[b * lanes + i]
  {
    L.ChecksLength(rows, lanes, b);
  }

  /** The i-th END and the check with the same place. */
  lemma {:induction false} PairIs(events: seq<Event>, rows: seq<P.Row>, lanes: nat, b: nat, i: nat)
    requires b < BARRIERS && |Checks(rows)| == BARRIERS * lanes && |Ends(events, b)| == lanes && i < lanes
    requires EndsMeetChecks(events, rows, lanes, b)
    ensures |ChecksOf(rows, lanes, b)| == lanes && Ends(events, b)[i] <= ChecksOf(rows, lanes, b)[i]
  {
    CheckList(rows);
    ListsAre(events, b);
    L.ChecksLength(rows, lanes, b);
    var k := ValueFrom(|events|, Ending(events, b), Reading(events), i);
    var c := ValueFrom(|rows|, Checking(rows), PP.Reading(rows), b * lanes + i);
    assert EndsAt(events, k, b) && CheckFor(events, rows, lanes, b, k, c);
  }

  lemma {:induction false} PairsMeet(events: seq<Event>, rows: seq<P.Row>, lanes: nat, b: nat, k: nat, c: nat)
    requires b < BARRIERS && |Checks(rows)| == BARRIERS * lanes && |Ends(events, b)| == lanes
    requires EndsBeforeChecks(Ends(events, b), ChecksOf(rows, lanes, b))
    requires EndsAt(events, k, b) && CheckFor(events, rows, lanes, b, k, c)
    ensures events[k].at <= rows[c].event.at
  {
    EndPlaced(events, b, k);
    CheckPlaced(rows, c);
    CheckAt(rows, lanes, b, Number(k, Ending(events, b)));
  }

  lemma {:induction false} PairsAre(events: seq<Event>, rows: seq<P.Row>, lanes: nat, b: nat)
    requires b < BARRIERS && |Checks(rows)| == BARRIERS * lanes && |Ends(events, b)| == lanes
    ensures EndsBeforeChecks(Ends(events, b), ChecksOf(rows, lanes, b)) <==> EndsMeetChecks(events, rows, lanes, b)
  {
    if EndsMeetChecks(events, rows, lanes, b) {
      forall i | 0 <= i < lanes && i < |ChecksOf(rows, lanes, b)|
        ensures Ends(events, b)[i] <= ChecksOf(rows, lanes, b)[i] {
        PairIs(events, rows, lanes, b, i);
      }
    }
    if EndsBeforeChecks(Ends(events, b), ChecksOf(rows, lanes, b)) {
      forall k: nat, c: nat | EndsAt(events, k, b) && CheckFor(events, rows, lanes, b, k, c)
        ensures events[k].at <= rows[c].event.at {
        PairsMeet(events, rows, lanes, b, k, c);
      }
    }
  }

  lemma {:induction false} CheckListed(rows: seq<P.Row>, lanes: nat, b: nat, c: nat)
    requires b < BARRIERS && |Checks(rows)| == BARRIERS * lanes && ChecksFor(rows, lanes, b, c)
    ensures rows[c].event.at in ChecksOf(rows, lanes, b)
  {
    var i := Number(c, Checking(rows)) - b * lanes;
    assert (b + 1) * lanes == b * lanes + lanes;
    CheckPlaced(rows, c);
    CheckAt(rows, lanes, b, i);
    assert ChecksOf(rows, lanes, b)[i] == rows[c].event.at;
  }

  lemma {:induction false} CheckFrom(rows: seq<P.Row>, lanes: nat, b: nat, at: int) returns (c: nat)
    requires b < BARRIERS && |Checks(rows)| == BARRIERS * lanes && at in ChecksOf(rows, lanes, b)
    ensures ChecksFor(rows, lanes, b, c) && rows[c].event.at == at
  {
    var list := ChecksOf(rows, lanes, b);
    L.ChecksLength(rows, lanes, b);
    var i: nat :| i < |list| && list[i] == at;
    CheckAt(rows, lanes, b, i);
    CheckList(rows);
    c := ValueFrom(|rows|, Checking(rows), PP.Reading(rows), b * lanes + i);
    assert (b + 1) * lanes == b * lanes + lanes;
  }

  lemma {:induction false} StartListed(events: seq<Event>, b: nat, at: int)
    ensures at in Starts(events, b) <==> exists k: nat :: Begins(events, k, b) && events[k].at == at
  {
    var n, when, what := |events|, Beginning(events, b), Reading(events);
    ListsAre(events, b);
    ValuesMeaning(n, when, what);
    if at in Starts(events, b) {
      var i :| 0 <= i < |Starts(events, b)| && Starts(events, b)[i] == at;
      var k := ValueFrom(n, when, what, i);
      assert Begins(events, k, b) && events[k].at == at;
    }
    if exists k: nat :: Begins(events, k, b) && events[k].at == at {
      var k: nat :| Begins(events, k, b) && events[k].at == at;
      assert when(k) && Starts(events, b)[Number(k, when)] == at;
    }
  }

  lemma {:induction false} NextIs(events: seq<Event>, rows: seq<P.Row>, lanes: nat, b: nat)
    requires Populated(events, lanes) && b + 1 < BARRIERS && |Checks(rows)| == BARRIERS * lanes
    ensures Before(ChecksOf(rows, lanes, b), Starts(events, b + 1)) <==> ChecksBeforeNext(events, rows, lanes, b)
  {
    var checks, starts := ChecksOf(rows, lanes, b), Starts(events, b + 1);
    L.ChecksLength(rows, lanes, b);
    L.BeforeMeansAll(checks, starts);
    if Before(checks, starts) {
      forall c: nat, k: nat | ChecksFor(rows, lanes, b, c) && Begins(events, k, b + 1)
        ensures rows[c].event.at <= events[k].at {
        CheckListed(rows, lanes, b, c);
        StartListed(events, b + 1, events[k].at);
      }
    }
    if ChecksBeforeNext(events, rows, lanes, b) {
      forall x, y | x in checks && y in starts ensures x <= y {
        StartListed(events, b + 1, y);
        var c := CheckFrom(rows, lanes, b, x);
        var k: nat :| Begins(events, k, b + 1) && events[k].at == y;
      }
    }
  }

  lemma {:induction false} BarriersAre(events: seq<Event>, rows: seq<P.Row>, lanes: nat)
    requires Populated(events, lanes) && |Checks(rows)| == BARRIERS * lanes
    ensures AdmitBarriers(events, rows, lanes, 0).Met? <==>
              && EndsMeetChecks(events, rows, lanes, 0) && EndsMeetChecks(events, rows, lanes, 1)
              && EndsMeetChecks(events, rows, lanes, 2)
              && ChecksBeforeNext(events, rows, lanes, 0) && ChecksBeforeNext(events, rows, lanes, 1)
  {
    PairsAre(events, rows, lanes, 0);
    PairsAre(events, rows, lanes, 1);
    PairsAre(events, rows, lanes, 2);
    NextIs(events, rows, lanes, 0);
    NextIs(events, rows, lanes, 1);
    assert AdmitBarriers(events, rows, lanes, 3).Met?;
    assert AdmitBarriers(events, rows, lanes, 2).Met? <==> AdmitBarrier(events, rows, lanes, 2).Met?;
    assert AdmitBarriers(events, rows, lanes, 1).Met? <==>
             AdmitBarrier(events, rows, lanes, 1).Met? && AdmitBarrier(events, rows, lanes, 2).Met?;
  }

  lemma {:induction false} ParentIs(events: seq<Event>, rows: seq<P.Row>, lanes: nat)
    requires |rows| > 0 && Populated(events, lanes)
    ensures AdmitParent(events, rows, lanes).Met? <==> Placed(events, rows, lanes)
  {
    WindowIs(events, rows, lanes);
    CheckList(rows);
    if |Checks(rows)| == BARRIERS * lanes {
      BarriersAre(events, rows, lanes);
    }
  }

  // ---- the verdict -----------------------------------------------------------------------------------

  /** In a log where every lane ran its script, every lane has ended its barriers. */
  lemma {:induction false} CompleteEnds(lanes: nat, maximum: int, events: seq<Event>)
    requires L.AllComplete(events, lanes, maximum)
    ensures AllEnded(events, lanes)
  {
    forall lane | 0 <= lane < lanes ensures Ended(events, lane) == BARRIERS && Pending(events, lane).None? {
      assert L.FollowsScript(L.LaneEvents(events, lane), maximum);
      L.LanePosition(maximum, events, lane);
    }
  }

  ghost predicate Complete(lanes: nat, maximum: int, events: seq<Event>) {
    L.Ordered(events) && L.AllComplete(events, lanes, maximum)
  }

  lemma {:induction false} CompleteIs(lanes: nat, maximum: int, events: seq<Event>)
    ensures |events| == 2 * BARRIERS * lanes && L.Admitted(lanes, maximum, events) && AllEnded(events, lanes) <==>
              Complete(lanes, maximum, events)
    ensures Complete(lanes, maximum, events) && lanes > 0 ==> Populated(events, lanes)
  {
    L.AdmittedExactly(lanes, maximum, events);
    if L.Admitted(lanes, maximum, events) && AllEnded(events, lanes) {
      L.CompleteLog(lanes, maximum, events, 0);
    }
    if Complete(lanes, maximum, events) {
      CompleteEnds(lanes, maximum, events);
      L.CompleteLog(lanes, maximum, events, 0);
      forall b: nat | b < BARRIERS ensures |Starts(events, b)| == |Ends(events, b)| == lanes {
        L.CompleteLog(lanes, maximum, events, b);
      }
    }
  }

  lemma {:induction false} VerdictSplits(lanes: nat, maximum: int, events: seq<Event>, metrics: seq<Metric>,
                                         rows: seq<P.Row>, check: Check)
    requires |rows| > 0
    ensures Verdict(lanes, maximum, events, metrics, rows) == Success(check) <==>
              && |events| == 2 * BARRIERS * lanes && L.Admitted(lanes, maximum, events) && AllEnded(events, lanes)
              && metrics == BarrierMetrics(events) && AdmitParent(events, rows, lanes).Met?
              && check == Check(LaneMetrics(events, lanes), |events|, BARRIERS * lanes)
  {
  }

  /** No log of no lanes is accepted. */
  lemma {:induction false} NoLanes(events: seq<Event>, rows: seq<P.Row>)
    requires |rows| > 0 && |events| == 0
    ensures AdmitParent(events, rows, 0).Refused?
  {
  }

  lemma {:induction false} CheckIs(check: Check, events: seq<Event>, lanes: nat)
    requires |events| == 2 * BARRIERS * lanes
    requires forall lane: nat :: Summarize(LaneSeries(events, lane)) == LaneMetric(events, lane)
    ensures check == Check(LaneMetrics(events, lanes), |events|, BARRIERS * lanes) <==> Checked(check, events, lanes)
  {
    LaneMetricsAre(events, lanes);
    if Checked(check, events, lanes) {
      assert check.laneMetrics == LaneMetrics(events, lanes);
    }
  }

  /** A balance log is accepted exactly when there is a lane, every lane runs the whole script in clock order within the
      bound, the log lies as it should to the parent's window and checks, and every summary is that of the durations
      between each END and its own BEGIN. */
  lemma {:induction false} AcceptedExactly(lanes: nat, maximum: int, events: seq<Event>, metrics: seq<Metric>,
                                           rows: seq<P.Row>, check: Check)
    requires |rows| > 0
    ensures Verdict(lanes, maximum, events, metrics, rows) == Success(check) <==>
              && lanes > 0 && Complete(lanes, maximum, events) && Placed(events, rows, lanes)
              && metrics == MetricsOf(events) && Checked(check, events, lanes)
  {
    VerdictSplits(lanes, maximum, events, metrics, rows, check);
    CompleteIs(lanes, maximum, events);
    if Complete(lanes, maximum, events) {
      MetricsAre(lanes, maximum, events);
      CheckIs(check, events, lanes);
      if lanes > 0 {
        ParentIs(events, rows, lanes);
      } else {
        NoLanes(events, rows);
      }
    }
  }
}
