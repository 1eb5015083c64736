/** Where a merged reading of the timer log and the paced log stands, told from the positions of both. */
module TimerPlaces {
  import opened Wrappers
  import opened Counting
  import opened TimerTrace
  import opened TimerPositions
  import Q = PacedTrace
  import PL = PacedLaws
  import PP = PacedPositions
  import PE = PacedExact
  import PF = PacedFigures
  import PW = PacedPlaces
  import TL = TimerLaws

  /** The paced log has been accepted. */
  ghost predicate Accepted(plan: Q.Plan, core: Q.Core, paced: seq<Q.Row>) {
    Q.AdmitPlan(plan).Met? && PP.WellFormed(plan, core, paced)
  }

  lemma {:induction false} AcceptedAdmitted(plan: Q.Plan, core: Q.Core, paced: seq<Q.Row>, c: nat)
    requires Accepted(plan, core, paced) && c <= |paced|
    ensures PL.Admitted(plan, core, paced[..c], |paced|) && PP.SoundBelow(plan, core, paced, c)
  {
    PE.AdmitAllIs(plan, core, paced, c);
  }

  // ---- the queue and the latest start ------------------------------------------------------------

  lemma {:induction false} LengthIs(fifo: seq<int>)
    ensures |fifo| > 0 <==> exists r :: r in fifo
  {
    if |fifo| > 0 {
      var r := fifo[0];
      assert r in fifo;
    }
  }

  lemma {:induction false} QueueIs(plan: Q.Plan, core: Q.Core, paced: seq<Q.Row>, c: nat)
    requires Accepted(plan, core, paced) && c <= |paced|
    ensures |Q.Fifo(paced[..c])| > 0 <==> SomeQueued(paced, c)
  {
    var items, fifo := Q.Items(core, paced[..c]), Q.Fifo(paced[..c]);
    AcceptedAdmitted(plan, core, paced, c);
    PL.DispatcherInvariant(plan, core, paced[..c], |paced|);
    LengthIs(fifo);
    PW.ItemsAre(plan, core, paced, c);
    forall r ensures r in fifo <==> Queuing(paced, c, r) {
      PW.RequestsAre(plan, core, paced, c, r);
      PE.StatesAre(plan, core, paced, c, r);
      if 1 <= r <= |items| {
        assert PW.ItemIs(core, paced, c, r, items[r - 1]);
      }
    }
  }

  /** The integer of the merged reading is positive exactly when a request is queued. */
  lemma {:induction false} QueuedIs(plan: Q.Plan, core: Q.Core, paced: seq<Q.Row>, steps: seq<Step>, c: nat)
    requires Accepted(plan, core, paced) && c <= |paced| && TL.PacedPart(steps) == paced[..c]
    ensures Queued(steps) > 0 <==> SomeQueued(paced, c)
  {
    AcceptedAdmitted(plan, core, paced, c);
    TL.QueuedIsLength(plan, core, steps, |paced|);
    QueueIs(plan, core, paced, c);
  }

  lemma {:induction false} LastOfPart(steps: seq<Step>)
    ensures var starts := Q.Starts(TL.PacedPart(steps));
            LastDispatch(steps) == if |starts| == 0 then None else Some(starts[|starts| - 1])
  {
    if |steps| > 0 {
      var init, last := steps[..|steps| - 1], steps[|steps| - 1];
      LastOfPart(init);
      if last.Paced? {
        var part := TL.PacedPart(steps);
        assert part[..|part| - 1] == TL.PacedPart(init) && part[|part| - 1] == last.row;
      }
    }
  }

  /** The due reading that the latest dispatch gives. */
  lemma {:induction false} DueIs(plan: Q.Plan, paced: seq<Q.Row>, steps: seq<Step>, c: nat, due: int)
    requires c <= |paced| && TL.PacedPart(steps) == paced[..c]
    ensures LastDispatch(steps).Some? && due == LastDispatch(steps).value + plan.Gap() <==> DueAt(plan, paced, c, due)
  {
    var starts := Q.Starts(paced[..c]);
    LastOfPart(steps);
    PF.StartsAre(paced, c);
    if |starts| > 0 {
      var j: nat :| PF.IsLastStart(paced, c, j) && starts[|starts| - 1] == PP.ReadingAt(paced, j);
      assert LatestStart(paced, c, j) by {
        assert Dispatches(paced, j);
        forall i: nat | j < i < c ensures !Dispatches(paced, i) {
          assert !PP.At(paced, i, Q.IsDispatch());
        }
      }
      forall d: nat | LatestStart(paced, c, d) ensures d == j {
        assert Dispatches(paced, d) && Dispatches(paced, j);
      }
    } else {
      forall d: nat | d < c ensures !Dispatches(paced, d) {
        assert !PP.At(paced, d, Q.IsDispatch());
      }
    }
  }

  // ---- the clock -----------------------------------------------------------------------------------

  /** No step reads later than `at`. */
  ghost predicate NoneLater(steps: seq<Step>, at: int) {
    forall k: nat :: k < |steps| && Reading(steps[k]).Some? ==> Reading(steps[k]).value <= at
  }

  lemma {:induction false} NoneLaterOn(steps: seq<Step>, step: Step, at: int)
    ensures NoneLater(steps + [step], at) <==>
              NoneLater(steps, at) && (Reading(step).Some? ==> Reading(step).value <= at)
  {
    var more := steps + [step];
    assert more[|steps|] == step;
    assert forall k: nat :: k < |steps| ==> more[k] == steps[k];
  }

  lemma {:induction false} LatestAttained(steps: seq<Step>)
    requires Latest(steps).Some?
    ensures exists k: nat :: k < |steps| && Reading(steps[k]) == Latest(steps)
  {
    var k: nat := |steps| - 1;
    if Reading(steps[k]).None? {
      LatestAttained(steps[..k]);
      var j: nat :| j < k && Reading(steps[..k][j]) == Latest(steps[..k]);
      assert steps[j] == steps[..k][j];
    }
  }

  lemma {:induction false} OrderIs(plan: Q.Plan, steps: seq<Step>, at: int)
    requires TL.WellStepped(plan, steps)
    ensures InClockOrder(steps, at) <==> NoneLater(steps, at)
  {
    TL.MergedClock(plan, steps);
    if Latest(steps).Some? {
      LatestAttained(steps);
    }
  }

  /** The paced rows before position c read no later than `at`. */
  ghost predicate PacedBefore(paced: seq<Q.Row>, c: nat, at: int) {
    forall j: nat :: j < c && TimedAt(paced, j) ==> PP.ReadingAt(paced, j) <= at
  }

  /** The timer rows before position n read no later than `at`. */
  ghost predicate TimersBefore(rows: seq<Row>, n: nat, at: int) {
    forall i: nat :: i < n && Reads(rows, i) ==> ReadingOf(rows, i) <= at
  }

  lemma {:induction false} PacedBeforeNext(paced: seq<Q.Row>, c: nat, at: int)
    ensures PacedBefore(paced, c + 1, at) <==>
              PacedBefore(paced, c, at) && (TimedAt(paced, c) ==> PP.ReadingAt(paced, c) <= at)
  {
  }

  lemma {:induction false} TimersBeforeNext(rows: seq<Row>, n: nat, at: int)
    ensures TimersBefore(rows, n + 1, at) <==>
              TimersBefore(rows, n, at) && (Reads(rows, n) ==> ReadingOf(rows, n) <= at)
  {
  }

  // ---- the merged steps before a timer row ------------------------------------------------------------

  /** Where the paced rows read for timer row n begin. */
  ghost function From(rows: seq<Row>, n: nat): int {
    if 0 < n <= |rows| then rows[n - 1].pacedSequence else 0
  }

  /** The merged steps before paced row c, once n timer rows are read. */
  ghost function StepsTo(rows: seq<Row>, paced: seq<Q.Row>, n: nat, c: nat): seq<Step>
    requires n <= |rows|
  {
    Merge(rows[..n], paced) + PacedSteps(Slice(paced, From(rows, n), c))
  }

  ghost predicate Rising(rows: seq<Row>, paced: seq<Q.Row>, n: nat) {
    n <= |rows| && forall i: nat :: i < n ==> 0 <= From(rows, i) <= rows[i].pacedSequence <= |paced|
  }

  lemma {:induction false} PrefixNext(rows: seq<Row>, k: nat)
    requires k < |rows|
    ensures rows[..k + 1][..k] == rows[..k] && rows[..k + 1][k] == rows[k] && |rows[..k + 1]| == k + 1
  {
  }

  lemma {:induction false} CursorIs(rows: seq<Row>, n: nat)
    requires n <= |rows|
    ensures Cursor(rows[..n]) == From(rows, n)
  {
  }

  lemma {:induction false} NothingRead(rows: seq<Row>, paced: seq<Q.Row>, n: nat)
    requires n <= |rows| && 0 <= From(rows, n) <= |paced|
    ensures StepsTo(rows, paced, n, From(rows, n)) == Merge(rows[..n], paced)
  {
    assert Slice(paced, From(rows, n), From(rows, n)) == [];
    assert Merge(rows[..n], paced) + [] == Merge(rows[..n], paced);
  }

  lemma {:induction false} ReadNext(rows: seq<Row>, paced: seq<Q.Row>, n: nat, c: nat)
    requires n <= |rows| && 0 <= From(rows, n) <= c < |paced|
    ensures StepsTo(rows, paced, n, c + 1) == StepsTo(rows, paced, n, c) + [Paced(paced[c])]
  {
    var from := From(rows, n);
    assert Slice(paced, from, c + 1)[..c - from] == Slice(paced, from, c);
    TL.AdvanceNext(Merge(rows[..n], paced), Slice(paced, from, c + 1));
  }

  /** A timer row comes after the paced rows up to its anchor. */
  lemma {:induction false} RowNext(rows: seq<Row>, paced: seq<Q.Row>, k: nat)
    requires k < |rows| && 0 <= From(rows, k) <= rows[k].pacedSequence <= |paced|
    ensures Merge(rows[..k + 1], paced) == StepsTo(rows, paced, k, rows[k].pacedSequence) + [Timer(rows[k].event)]
    ensures Advance(rows[..k + 1], paced) == Slice(paced, From(rows, k), rows[k].pacedSequence)
  {
    PrefixNext(rows, k);
    CursorIs(rows, k);
  }

  /** The steps hold the readings of the paced rows before position c and of the timer rows before position n. */
  ghost predicate Hold(rows: seq<Row>, paced: seq<Q.Row>, n: nat, c: nat, at: int) {
    n <= |rows|
    && (NoneLater(StepsTo(rows, paced, n, c), at) <==> PacedBefore(paced, c, at) && TimersBefore(rows, n, at))
  }

  lemma {:induction false} HoldRead(rows: seq<Row>, paced: seq<Q.Row>, n: nat, d: nat, at: int)
    requires Hold(rows, paced, n, d, at) && 0 <= From(rows, n) <= d < |paced|
    ensures Hold(rows, paced, n, d + 1, at)
  {
    ReadNext(rows, paced, n, d);
    NoneLaterOn(StepsTo(rows, paced, n, d), Paced(paced[d]), at);
    PacedBeforeNext(paced, d, at);
  }

  lemma {:induction false} HoldRow(rows: seq<Row>, paced: seq<Q.Row>, k: nat, c: nat, at: int)
    requires k < |rows| && 0 <= From(rows, k) <= rows[k].pacedSequence == c <= |paced| && Hold(rows, paced, k, c, at)
    ensures Hold(rows, paced, k + 1, c, at)
  {
    NothingRead(rows, paced, k + 1);
    RowNext(rows, paced, k);
    NoneLaterOn(StepsTo(rows, paced, k, c), Timer(rows[k].event), at);
    TimersBeforeNext(rows, k, at);
  }

  lemma {:induction false} HoldStart(rows: seq<Row>, paced: seq<Q.Row>, at: int)
    ensures Hold(rows, paced, 0, 0, at)
  {
    NothingRead(rows, paced, 0);
  }

  /** Which readings the steps hold. */
  lemma {:induction false} ReadingsAre(rows: seq<Row>, paced: seq<Q.Row>, n: nat, c: nat, at: int)
    requires Rising(rows, paced, n) && From(rows, n) <= c <= |paced|
    ensures Hold(rows, paced, n, c, at)
    decreases n, c
  {
    if From(rows, n) < c {
      var d: nat := c - 1;
      assert d + 1 == c;
      ReadingsAre(rows, paced, n, d, at);
      HoldRead(rows, paced, n, d, at);
    } else if n == 0 {
      HoldStart(rows, paced, at);
    } else {
      var k: nat := n - 1;
      assert k + 1 == n;
      ReadingsAre(rows, paced, k, c, at);
      HoldRow(rows, paced, k, c, at);
    }
  }

  /** The paced rows among the steps are those before position c. */
  ghost predicate Part(rows: seq<Row>, paced: seq<Q.Row>, n: nat, c: nat) {
    n <= |rows| && c <= |paced| && TL.PacedPart(StepsTo(rows, paced, n, c)) == paced[..c]
  }

  lemma {:induction false} PartReads(rows: seq<Row>, paced: seq<Q.Row>, n: nat, d: nat)
    requires Part(rows, paced, n, d) && 0 <= From(rows, n) <= d < |paced|
    ensures Part(rows, paced, n, d + 1)
  {
    ReadNext(rows, paced, n, d);
    TL.PartOn(StepsTo(rows, paced, n, d), Paced(paced[d]));
    assert paced[..d + 1] == paced[..d] + [paced[d]];
  }

  lemma {:induction false} PartRow(rows: seq<Row>, paced: seq<Q.Row>, k: nat, c: nat)
    requires k < |rows| && 0 <= From(rows, k) <= rows[k].pacedSequence == c && Part(rows, paced, k, c)
    ensures Part(rows, paced, k + 1, c)
  {
    NothingRead(rows, paced, k + 1);
    RowNext(rows, paced, k);
    TL.PartOn(StepsTo(rows, paced, k, c), Timer(rows[k].event));
  }

  lemma {:induction false} PartStart(rows: seq<Row>, paced: seq<Q.Row>)
    ensures Part(rows, paced, 0, 0)
  {
    NothingRead(rows, paced, 0);
  }

  lemma {:induction false} PartIs(rows: seq<Row>, paced: seq<Q.Row>, n: nat, c: nat)
    requires Rising(rows, paced, n) && From(rows, n) <= c <= |paced|
    ensures Part(rows, paced, n, c)
    decreases n, c
  {
    if From(rows, n) < c {
      var d: nat := c - 1;
      assert d + 1 == c;
      PartIs(rows, paced, n, d);
      PartReads(rows, paced, n, d);
    } else if n == 0 {
      PartStart(rows, paced);
    } else {
      var k: nat := n - 1;
      assert k + 1 == n;
      PartIs(rows, paced, k, c);
      PartRow(rows, paced, k, c);
    }
  }
}
