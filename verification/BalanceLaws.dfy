/** What an accepted balance log says as a whole. */
module BalanceLaws {
  import opened Wrappers
  import opened Clock
  import opened Counting
  import opened Percentiles
  import opened BalanceTrace
  import P = ParentTrace

  ghost predicate Admitted(lanes: nat, maximum: int, events: seq<Event>) {
    AdmitAll(lanes, maximum, events).Met?
  }

  // ---- the exact language -----------------------------------------------------------------

  /** The events of one lane, in order. */
  ghost function LaneEvents(events: seq<Event>, lane: int): seq<Event> {
    if |events| == 0 then [] else
      var before, last := LaneEvents(events[..|events| - 1], lane), events[|events| - 1];
      if last.lane == lane then before + [last] else before
  }

  /** The k-th event of a lane: BEGIN and END of the barriers 0, 1, 2; each END succeeds within the bound. */
  ghost predicate Turn(own: seq<Event>, k: nat, maximum: int)
    requires k < |own|
  {
    && k < 2 * BARRIERS && own[k].barrier == k / 2
    && (if k % 2 == 0 then own[k].Begin? else
          && own[k].End? && own[k].outcome == Succeeded
          && own[k - 1].at <= own[k].at <= own[k - 1].at + maximum)
  }

  ghost predicate FollowsScript(own: seq<Event>, maximum: int) {
    forall k :: 0 <= k < |own| ==> Turn(own, k, maximum)
  }

  ghost predicate Ordered(events: seq<Event>) {
    forall i, j :: 0 <= i <= j < |events| ==> events[i].at <= events[j].at
  }

  ghost predicate LanesInRange(events: seq<Event>, lanes: nat) {
    forall i :: 0 <= i < |events| ==> 0 <= events[i].lane < lanes
  }

  ghost predicate AllFollow(events: seq<Event>, maximum: int) {
    forall lane :: FollowsScript(LaneEvents(events, lane), maximum)
  }

  /** The declarative description of an admitted log. */
  ghost predicate Described(lanes: nat, maximum: int, events: seq<Event>) {
    Ordered(events) && LanesInRange(events, lanes) && AllFollow(events, maximum)
  }

  lemma {:induction false} ScriptStep(own: seq<Event>, next: Event, maximum: int)
    ensures FollowsScript(own + [next], maximum) <==> FollowsScript(own, maximum) && Turn(own + [next], |own|, maximum)
  {
    var more := own + [next];
    assert forall k :: 0 <= k < |own| ==> Turn(more, k, maximum) == Turn(own, k, maximum);
  }

  /** How far a lane is: two events per ended barrier, one more while a barrier is open. */
  ghost predicate At(own: seq<Event>, ended: nat, pending: Option<int>) {
    && ended == |own| / 2
    && (if |own| % 2 == 0 then pending.None? else pending == Some(own[|own| - 1].at))
  }

  lemma {:induction false} LanePosition(maximum: int, events: seq<Event>, lane: int)
    requires FollowsScript(LaneEvents(events, lane), maximum)
    ensures At(LaneEvents(events, lane), Ended(events, lane), Pending(events, lane))
  {
    if |events| > 0 {
      var init, last := events[..|events| - 1], events[|events| - 1];
      if last.lane == lane {
        ScriptStep(LaneEvents(init, lane), last, maximum);
      }
      LanePosition(maximum, init, lane);
    }
  }

  /** The event may follow in time, and its lane exists. */
  ghost predicate InPlace(lanes: nat, init: seq<Event>, last: Event) {
    0 <= last.lane < lanes && (|init| > 0 ==> init[|init| - 1].at <= last.at)
  }

  /** What admission demands is the next turn of the lane's script. */
  lemma {:induction false} AdmitIsTurn(lanes: nat, maximum: int, init: seq<Event>, last: Event)
    requires FollowsScript(LaneEvents(init, last.lane), maximum)
    ensures var own := LaneEvents(init, last.lane);
            Admit(lanes, maximum, init, last).Met? <==> InPlace(lanes, init, last) && Turn(own + [last], |own|, maximum)
  {
    LanePosition(maximum, init, last.lane);
  }

  lemma {:induction false} LanesStep(maximum: int, events: seq<Event>)
    requires |events| > 0
    ensures var init, last := events[..|events| - 1], events[|events| - 1];
            var own := LaneEvents(init, last.lane);
            AllFollow(events, maximum) <==> AllFollow(init, maximum) && Turn(own + [last], |own|, maximum)
  {
    var init, last := events[..|events| - 1], events[|events| - 1];
    var own := LaneEvents(init, last.lane);
    ScriptStep(own, last, maximum);
    if AllFollow(events, maximum) {
      assert FollowsScript(LaneEvents(events, last.lane), maximum);
      forall lane ensures FollowsScript(LaneEvents(init, lane), maximum) {
        assert FollowsScript(LaneEvents(events, lane), maximum);
      }
    }
    if AllFollow(init, maximum) && Turn(own + [last], |own|, maximum) {
      forall lane ensures FollowsScript(LaneEvents(events, lane), maximum) {
        assert FollowsScript(LaneEvents(init, lane), maximum);
      }
    }
  }

  lemma {:induction false} OrderStep(lanes: nat, events: seq<Event>)
    requires |events| > 0
    ensures var init, last := events[..|events| - 1], events[|events| - 1];
            Ordered(events) && LanesInRange(events, lanes) <==>
              Ordered(init) && LanesInRange(init, lanes) && InPlace(lanes, init, last)
  {
    var init := events[..|events| - 1];
    assert forall i :: 0 <= i < |init| ==> init[i] == events[i];
  }

  /** A log is admitted exactly when its clock is ordered, its lanes exist and every lane follows the script. */
  lemma {:induction false} AdmittedExactly(lanes: nat, maximum: int, events: seq<Event>)
    ensures Admitted(lanes, maximum, events) <==> Described(lanes, maximum, events)
  {
    if |events| > 0 {
      var init, last := events[..|events| - 1], events[|events| - 1];
      AdmittedExactly(lanes, maximum, init);
      OrderStep(lanes, events);
      LanesStep(maximum, events);
      if Described(lanes, maximum, init) {
        assert FollowsScript(LaneEvents(init, last.lane), maximum);
        AdmitIsTurn(lanes, maximum, init, last);
      }
    } else {
      assert forall lane :: LaneEvents(events, lane) == [];
    }
  }

  // ---- a complete log -----------------------------------------------------------------------

  ghost function Tally(events: seq<Event>, kind: Event -> bool): nat {
    if |events| == 0 then 0 else
      Tally(events[..|events| - 1], kind) + (if kind(events[|events| - 1]) then 1 else 0)
  }

  ghost function Any(): Event -> bool { (e: Event) => true }

  ghost function BeginOf(barrier: int): Event -> bool { (e: Event) => e.Begin? && e.barrier == barrier }

  ghost function EndOf(barrier: int): Event -> bool { (e: Event) => e.End? && e.barrier == barrier }

  lemma {:induction false} TallyAppend(events: seq<Event>, next: Event, kind: Event -> bool)
    ensures Tally(events + [next], kind) == Tally(events, kind) + (if kind(next) then 1 else 0)
  {
    assert (events + [next])[..|events|] == events;
  }

  /** The tallies of the first n lanes together. */
  ghost function LaneTallies(events: seq<Event>, n: nat, kind: Event -> bool): nat {
    if n == 0 then 0 else LaneTallies(events, n - 1, kind) + Tally(LaneEvents(events, n - 1), kind)
  }

  lemma {:induction false} LaneTalliesStep(events: seq<Event>, n: nat, kind: Event -> bool)
    requires |events| > 0
    ensures var init, last := events[..|events| - 1], events[|events| - 1];
            LaneTallies(events, n, kind) == LaneTallies(init, n, kind)
              + (if 0 <= last.lane < n && kind(last) then 1 else 0)
  {
    if n > 0 {
      LaneTalliesStep(events, n - 1, kind);
      TallyAppend(LaneEvents(events[..|events| - 1], n - 1), events[|events| - 1], kind);
    }
  }

  lemma {:induction false} NoTallies(n: nat, kind: Event -> bool)
    ensures LaneTallies([], n, kind) == 0
  {
    if n > 0 {
      NoTallies(n - 1, kind);
    }
  }

  /** The lanes share out the events. */
  lemma {:induction false} TalliesByLane(events: seq<Event>, lanes: nat, kind: Event -> bool)
    requires LanesInRange(events, lanes)
    ensures Tally(events, kind) == LaneTallies(events, lanes, kind)
  {
    if |events| == 0 {
      assert events == [];
      NoTallies(lanes, kind);
    } else {
      TalliesByLane(events[..|events| - 1], lanes, kind);
      LaneTalliesStep(events, lanes, kind);
    }
  }

  /** How often a kind occurs so far in a lane that follows the script. */
  lemma {:induction false} ScriptTally(own: seq<Event>, maximum: int, barrier: nat)
    requires FollowsScript(own, maximum) && barrier < BARRIERS
    ensures Tally(own, Any()) == |own| <= 2 * BARRIERS
    ensures Tally(own, BeginOf(barrier)) == (if |own| > 2 * barrier then 1 else 0)
    ensures Tally(own, EndOf(barrier)) == (if |own| > 2 * barrier + 1 then 1 else 0)
  {
    if |own| > 0 {
      var init, last := own[..|own| - 1], own[|own| - 1];
      assert own == init + [last];
      ScriptStep(init, last, maximum);
      ScriptTally(init, maximum, barrier);
    }
  }

  /** Every lane runs the whole script: BEGIN and END at each of the three barriers. */
  ghost predicate AllComplete(events: seq<Event>, lanes: nat, maximum: int) {
    LanesInRange(events, lanes) && AllFollow(events, maximum)
    && forall lane :: 0 <= lane < lanes ==> |LaneEvents(events, lane)| == 2 * BARRIERS
  }

  lemma {:induction false} CompleteTallies(events: seq<Event>, lanes: nat, maximum: int, n: nat, barrier: nat)
    requires AllComplete(events, lanes, maximum) && n <= lanes && barrier < BARRIERS
    ensures LaneTallies(events, n, Any()) == 2 * BARRIERS * n
    ensures LaneTallies(events, n, BeginOf(barrier)) == LaneTallies(events, n, EndOf(barrier)) == n
  {
    if n > 0 {
      CompleteTallies(events, lanes, maximum, n - 1, barrier);
      assert FollowsScript(LaneEvents(events, n - 1), maximum);
      ScriptTally(LaneEvents(events, n - 1), maximum, barrier);
    }
  }

  lemma {:induction false} TallyIsLength(events: seq<Event>, barrier: int)
    ensures Tally(events, Any()) == |events|
    ensures Tally(events, BeginOf(barrier)) == |Starts(events, barrier)|
    ensures Tally(events, EndOf(barrier)) == |Ends(events, barrier)|
  {
    if |events| > 0 {
      TallyIsLength(events[..|events| - 1], barrier);
    }
  }

  /** An admitted log in which every lane has ended its barriers is complete: each lane is the whole
      script, each barrier is begun and ended once per lane, and there are six events per lane, so
      the declared number of events is implied. */
  lemma {:induction false} CompleteLog(lanes: nat, maximum: int, events: seq<Event>, barrier: nat)
    requires Admitted(lanes, maximum, events) && AllEnded(events, lanes) && barrier < BARRIERS
    ensures AllComplete(events, lanes, maximum)
    ensures |events| == 2 * BARRIERS * lanes
    ensures |Starts(events, barrier)| == |Ends(events, barrier)| == lanes
  {
    AdmittedExactly(lanes, maximum, events);
    forall lane | 0 <= lane < lanes ensures |LaneEvents(events, lane)| == 2 * BARRIERS {
      assert FollowsScript(LaneEvents(events, lane), maximum);
      LanePosition(maximum, events, lane);
    }
    CompleteTallies(events, lanes, maximum, lanes, barrier);
    TalliesByLane(events, lanes, Any());
    TalliesByLane(events, lanes, BeginOf(barrier));
    TalliesByLane(events, lanes, EndOf(barrier));
    TallyIsLength(events, barrier);
  }

  // ---- the series, regrouped -------------------------------------------------------------------

  ghost function BarrierParts(events: seq<Event>): nat -> multiset<int> {
    (k: nat) => multiset(BarrierSeries(events, k))
  }

  ghost function LaneParts(events: seq<Event>): nat -> multiset<int> {
    (k: nat) => multiset(LaneSeries(events, k))
  }

  /** Durations of the first n barriers together. */
  ghost function ByBarrier(events: seq<Event>, n: nat): multiset<int> {
    Merged(BarrierParts(events), n)
  }

  /** Durations of the first n lanes together. */
  ghost function ByLane(events: seq<Event>, n: nat): multiset<int> {
    Merged(LaneParts(events), n)
  }

  /** The duration of the last event, when it ends a barrier. */
  ghost function Ending(events: seq<Event>): multiset<int>
    requires |events| > 0
  {
    if events[|events| - 1].End? then multiset{Elapsed(events)} else multiset{}
  }

  lemma {:induction false} BarrierPartsStep(events: seq<Event>, k: nat)
    requires |events| > 0
    ensures var init, last := events[..|events| - 1], events[|events| - 1];
            BarrierParts(events)(k) == BarrierParts(init)(k)
              + (if k == last.barrier then Ending(events) else multiset{})
  {
    MultisetAppend(BarrierSeries(events[..|events| - 1], k), Elapsed(events));
  }

  lemma {:induction false} LanePartsStep(events: seq<Event>, k: nat)
    requires |events| > 0
    ensures var init, last := events[..|events| - 1], events[|events| - 1];
            LaneParts(events)(k) == LaneParts(init)(k) + (if k == last.lane then Ending(events) else multiset{})
  {
    MultisetAppend(LaneSeries(events[..|events| - 1], k), Elapsed(events));
  }

  lemma {:induction false} ByBarrierStep(events: seq<Event>, n: nat)
    requires |events| > 0
    ensures var last := events[|events| - 1];
            ByBarrier(events, n) == ByBarrier(events[..|events| - 1], n)
              + (if 0 <= last.barrier < n then Ending(events) else multiset{})
  {
    var init, last := events[..|events| - 1], events[|events| - 1];
    forall k: nat {
      BarrierPartsStep(events, k);
    }
    MergedGrows(BarrierParts(init), BarrierParts(events), last.barrier, Ending(events), n);
  }

  lemma {:induction false} ByLaneStep(events: seq<Event>, n: nat)
    requires |events| > 0
    ensures var last := events[|events| - 1];
            ByLane(events, n) == ByLane(events[..|events| - 1], n)
              + (if 0 <= last.lane < n then Ending(events) else multiset{})
  {
    var init, last := events[..|events| - 1], events[|events| - 1];
    forall k: nat {
      LanePartsStep(events, k);
    }
    MergedGrows(LaneParts(init), LaneParts(events), last.lane, Ending(events), n);
  }

  lemma {:induction false} NoSeries(n: nat)
    ensures ByBarrier([], n) == ByLane([], n) == multiset{}
  {
    MergedNothing(BarrierParts([]), n);
    MergedNothing(LaneParts([]), n);
  }

  /** The per-lane and the per-barrier series hold the same durations. */
  lemma {:induction false} SeriesRegrouped(lanes: nat, maximum: int, events: seq<Event>)
    requires Admitted(lanes, maximum, events)
    ensures ByBarrier(events, BARRIERS) == ByLane(events, lanes)
  {
    if |events| == 0 {
      assert events == [];
      NoSeries(BARRIERS);
      NoSeries(lanes);
    } else {
      SeriesRegrouped(lanes, maximum, events[..|events| - 1]);
      ByBarrierStep(events, BARRIERS);
      ByLaneStep(events, lanes);
    }
  }

  // ---- barriers -----------------------------------------------------------------------------------

  lemma {:induction false} GreatestIs(s: seq<int>)
    requires |s| > 0
    ensures Greatest(s) in s && forall x :: x in s ==> x <= Greatest(s)
  {
    if |s| > 1 {
      GreatestIs(s[..|s| - 1]);
      assert forall x :: x in s ==> x in s[..|s| - 1] || x == s[|s| - 1];
    }
  }

  lemma {:induction false} LeastIs(s: seq<int>)
    requires |s| > 0
    ensures Least(s) in s && forall x :: x in s ==> Least(s) <= x
  {
    if |s| > 1 {
      LeastIs(s[..|s| - 1]);
      assert forall x :: x in s ==> x in s[..|s| - 1] || x == s[|s| - 1];
    }
  }

  /** Comparing the extremes compares every reading of one side with every reading of the other. */
  lemma {:induction false} BeforeMeansAll(a: seq<int>, b: seq<int>)
    requires |a| > 0 && |b| > 0
    ensures Before(a, b) <==> forall x, y :: x in a && y in b ==> x <= y
  {
    GreatestIs(a);
    LeastIs(b);
  }

  ghost predicate NoLater(readings: seq<int>, at: int) {
    forall r :: r in readings ==> r <= at
  }

  lemma {:induction false} BeforeEach(a: seq<int>, b: seq<int>, at: int)
    requires Before(a, b) && at in b
    ensures NoLater(a, at)
  {
    BeforeMeansAll(a, b);
  }

  lemma {:induction false} ReadingsListed(events: seq<Event>, i: nat)
    requires i < |events|
    ensures events[i].Begin? ==> events[i].at in Starts(events, events[i].barrier)
    ensures events[i].End? ==> events[i].at in Ends(events, events[i].barrier)
  {
    if i < |events| - 1 {
      ReadingsListed(events[..|events| - 1], i);
    }
  }

  /** No lane begins a barrier, in time, before every lane has ended the previous one. */
  ghost predicate Rendezvous(events: seq<Event>) {
    forall i, j :: 0 <= i < |events| && 0 <= j < |events|
                   && events[i].End? && events[j].Begin? && events[i].barrier + 1 == events[j].barrier ==>
                     events[i].at <= events[j].at
  }

  /** Before a barrier begins, the parent has recorded every check of the previous one. */
  ghost predicate ChecksPrecede(events: seq<Event>, rows: seq<P.Row>, lanes: nat)
    requires |Checks(rows)| == BARRIERS * lanes
  {
    forall j, b: nat :: b + 1 < BARRIERS && 0 <= j < |events| && events[j].Begin? && events[j].barrier == b + 1 ==>
                          NoLater(ChecksOf(rows, lanes, b), events[j].at)
  }

  /** The i-th END of a barrier is no later than its i-th check; there are as many of one as of the other. */
  ghost predicate EndsPaired(events: seq<Event>, rows: seq<P.Row>, lanes: nat, barrier: nat)
    requires |Checks(rows)| == BARRIERS * lanes && barrier < BARRIERS
  {
    var ends, checks := Ends(events, barrier), ChecksOf(rows, lanes, barrier);
    |ends| == |checks| == lanes && forall i :: 0 <= i < lanes ==> ends[i] <= checks[i]
  }

  lemma {:induction false} BarrierAdmitted(lanes: nat, maximum: int, events: seq<Event>, metrics: seq<Metric>,
                                           rows: seq<P.Row>, barrier: nat)
    requires |rows| > 0 && barrier < BARRIERS && Verdict(lanes, maximum, events, metrics, rows).Success?
    ensures |Checks(rows)| == BARRIERS * lanes && PhasesOrdered(events, rows)
    ensures AdmitBarrier(events, rows, lanes, barrier).Met?
  {
    FromFirst(events, rows, lanes, barrier);
  }

  lemma {:induction false} FromFirst(events: seq<Event>, rows: seq<P.Row>, lanes: nat, barrier: nat)
    requires |Checks(rows)| == BARRIERS * lanes && barrier < BARRIERS && AdmitBarriers(events, rows, lanes, 0).Met?
    ensures AdmitBarriers(events, rows, lanes, barrier).Met? && AdmitBarrier(events, rows, lanes, barrier).Met?
  {
    if barrier > 0 {
      FromFirst(events, rows, lanes, barrier - 1);
    }
  }

  /** Across the window, the readings of barrier 1 precede the start and those of barrier 2 follow the stop. */
  lemma {:induction false} AcrossWindow(lanes: nat, maximum: int, events: seq<Event>, metrics: seq<Metric>,
                                        rows: seq<P.Row>)
    requires |rows| > 0 && Verdict(lanes, maximum, events, metrics, rows).Success?
    ensures Before(Ends(events, 1), Starts(events, 2))
  {
    BarrierAdmitted(lanes, maximum, events, metrics, rows, 0);
    var start, stop := P.Latest(rows, P.IsStart()).value, P.Latest(rows, P.IsStop()).value;
    GreatestIs([start]);
    LeastIs([start]);
    BeforeMeansAll(Ends(events, 1), [start]);
    BeforeMeansAll([stop], Starts(events, 2));
    BeforeMeansAll(Ends(events, 1), Starts(events, 2));
    assert start in [start] && stop in [stop];
  }

  /** Across each barrier, every END precedes every BEGIN of the next. */
  lemma {:induction false} EndsBeforeStarts(lanes: nat, maximum: int, events: seq<Event>, metrics: seq<Metric>,
                                            rows: seq<P.Row>, b: nat)
    requires |rows| > 0 && Verdict(lanes, maximum, events, metrics, rows).Success? && b + 1 < BARRIERS
    ensures Before(Ends(events, b), Starts(events, b + 1))
  {
    BarrierAdmitted(lanes, maximum, events, metrics, rows, b);
    AcrossWindow(lanes, maximum, events, metrics, rows);
    assert b == 0 || b == 1;
  }

  lemma {:induction false} EventsKeepOrder(events: seq<Event>, b: nat, i: nat, j: nat)
    requires Before(Ends(events, b), Starts(events, b + 1))
    requires i < |events| && j < |events| && events[i].End? && events[j].Begin? && events[i].barrier == b
             && events[j].barrier == b + 1
    ensures events[i].at <= events[j].at
  {
    ReadingsListed(events, i);
    ReadingsListed(events, j);
    BeforeEach(Ends(events, b), Starts(events, b + 1), events[j].at);
  }

  lemma {:induction false} ChecksKeepOrder(lanes: nat, events: seq<Event>, rows: seq<P.Row>, b: nat, j: nat)
    requires |Checks(rows)| == BARRIERS * lanes && b + 1 < BARRIERS && AdmitBarrier(events, rows, lanes, b).Met?
    requires j < |events| && events[j].Begin? && events[j].barrier == b + 1
    ensures NoLater(ChecksOf(rows, lanes, b), events[j].at)
  {
    ReadingsListed(events, j);
    BeforeEach(ChecksOf(rows, lanes, b), Starts(events, b + 1), events[j].at);
  }

  ghost predicate BarriersNamed(events: seq<Event>) {
    forall i :: 0 <= i < |events| ==> 0 <= events[i].barrier < BARRIERS
  }

  lemma {:induction false} AllNamed(lanes: nat, maximum: int, events: seq<Event>)
    requires Admitted(lanes, maximum, events)
    ensures BarriersNamed(events)
  {
    if |events| > 0 {
      AllNamed(lanes, maximum, events[..|events| - 1]);
    }
  }

  lemma {:induction false} ChecksLength(rows: seq<P.Row>, lanes: nat, barrier: nat)
    requires |Checks(rows)| == BARRIERS * lanes && barrier < BARRIERS
    ensures |ChecksOf(rows, lanes, barrier)| == lanes
  {
    assert (barrier + 1) * lanes - barrier * lanes == lanes;
  }

  lemma {:induction false} AdmittedPaired(events: seq<Event>, rows: seq<P.Row>, lanes: nat, barrier: nat)
    requires |Checks(rows)| == BARRIERS * lanes && barrier < BARRIERS && |Ends(events, barrier)| == lanes
             && AdmitBarrier(events, rows, lanes, barrier).Met?
    ensures EndsPaired(events, rows, lanes, barrier)
  {
    ChecksLength(rows, lanes, barrier);
  }

  lemma {:induction false} BarrierPaired(lanes: nat, maximum: int, events: seq<Event>, metrics: seq<Metric>,
                                         rows: seq<P.Row>, barrier: nat)
    requires |rows| > 0 && Verdict(lanes, maximum, events, metrics, rows).Success? && barrier < BARRIERS
    ensures |Checks(rows)| == BARRIERS * lanes && EndsPaired(events, rows, lanes, barrier)
  {
    CompleteLog(lanes, maximum, events, barrier);
    BarrierAdmitted(lanes, maximum, events, metrics, rows, barrier);
    AdmittedPaired(events, rows, lanes, barrier);
  }

  lemma {:induction false} RendezvousFrom(events: seq<Event>)
    requires BarriersNamed(events)
    requires Before(Ends(events, 0), Starts(events, 1)) && Before(Ends(events, 1), Starts(events, 2))
    ensures Rendezvous(events)
  {
    forall i, j | 0 <= i < |events| && 0 <= j < |events|
                  && events[i].End? && events[j].Begin? && events[i].barrier + 1 == events[j].barrier
      ensures events[i].at <= events[j].at {
      EventsKeepOrder(events, events[i].barrier, i, j);
    }
  }

  lemma {:induction false} AllRendezvous(lanes: nat, maximum: int, events: seq<Event>, metrics: seq<Metric>,
                                         rows: seq<P.Row>)
    requires |rows| > 0 && Verdict(lanes, maximum, events, metrics, rows).Success?
    ensures Rendezvous(events)
  {
    AllNamed(lanes, maximum, events);
    EndsBeforeStarts(lanes, maximum, events, metrics, rows, 0);
    EndsBeforeStarts(lanes, maximum, events, metrics, rows, 1);
    RendezvousFrom(events);
  }

  lemma {:induction false} AllChecksPrecede(lanes: nat, maximum: int, events: seq<Event>, metrics: seq<Metric>,
                                            rows: seq<P.Row>)
    requires |rows| > 0 && Verdict(lanes, maximum, events, metrics, rows).Success?
    ensures |Checks(rows)| == BARRIERS * lanes && ChecksPrecede(events, rows, lanes)
  {
    forall j, b: nat | b + 1 < BARRIERS && 0 <= j < |events| && events[j].Begin? && events[j].barrier == b + 1
      ensures NoLater(ChecksOf(rows, lanes, b), events[j].at) {
      BarrierAdmitted(lanes, maximum, events, metrics, rows, b);
      ChecksKeepOrder(lanes, events, rows, b, j);
    }
  }

  /** An accepted balance log: every lane runs the whole script in clock order; no lane begins a barrier
      before every lane has ended the previous one and its parent checks are recorded; ends and checks
      pair up; and the two groupings of the durations hold the same durations. */
  lemma {:induction false} AcceptedBarriers(lanes: nat, maximum: int, events: seq<Event>, metrics: seq<Metric>,
                                            rows: seq<P.Row>)
    requires |rows| > 0 && Verdict(lanes, maximum, events, metrics, rows).Success?
    ensures Ordered(events) && AllComplete(events, lanes, maximum)
    ensures Rendezvous(events)
    ensures |Checks(rows)| == BARRIERS * lanes && ChecksPrecede(events, rows, lanes)
    ensures forall b: nat :: b < BARRIERS ==> EndsPaired(events, rows, lanes, b)
    ensures ByBarrier(events, BARRIERS) == ByLane(events, lanes)
  {
    AdmittedExactly(lanes, maximum, events);
    CompleteLog(lanes, maximum, events, 0);
    AllRendezvous(lanes, maximum, events, metrics, rows);
    AllChecksPrecede(lanes, maximum, events, metrics, rows);
    forall b: nat | b < BARRIERS ensures EndsPaired(events, rows, lanes, b) {
      BarrierPaired(lanes, maximum, events, metrics, rows, b);
    }
    SeriesRegrouped(lanes, maximum, events);
  }
}
