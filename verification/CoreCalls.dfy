/** The calls that the paced checker binds its requests to, told from the positions of the parent log. */
module CoreCalls {
  import opened Wrappers
  import opened Clock
  import opened Positions
  import opened ParentPositions
  import P = ParentTrace
  import A = ParentPlaces
  import Q = PacedTrace
  import PP = PacedPositions

  ghost function Calls(rows: seq<P.Row>): nat -> bool {
    Begins(rows, P.Measurement, P.FundedCall)
  }

  ghost predicate BeginsAre(rows: seq<P.Row>, n: nat, begins: seq<Q.CoreBegin>) {
    && |begins| == Number(n, Calls(rows))
    && forall k: nat :: k < n && BeginsIn(rows, k, P.Measurement, P.FundedCall) ==>
         Number(k, Calls(rows)) < |begins|
         && begins[Number(k, Calls(rows))] == Q.CoreBegin(rows[k].event.observation, rows[k].event.at)
  }

  /** Row f ends the measured funded call that row b begins. */
  ghost predicate EndsCall(rows: seq<P.Row>, b: nat, f: nat) {
    Ends(rows, b, f) && BeginsIn(rows, b, P.Measurement, P.FundedCall)
  }

  ghost predicate FinishesAre(rows: seq<P.Row>, n: nat, finishes: map<int, Q.CoreFinish>) {
    forall b: nat, f: nat :: f < n && EndsCall(rows, b, f) ==>
      rows[f].event.observation in finishes
      && finishes[rows[f].event.observation] == Q.CoreFinish(rows[f].event.outcome, rows[f].event.at)
  }

  lemma {:induction false} BeginsNext(rows: seq<P.Row>, k: nat, core: Q.Core)
    requires k < |rows| && BeginsAre(rows, k, core.begins)
    ensures BeginsAre(rows, k + 1, Q.CoreAfter(core, rows[k].event).begins)
  {
    var after := Q.CoreAfter(core, rows[k].event).begins;
    NumberNext(k, Calls(rows));
    forall j: nat | j < k + 1 && BeginsIn(rows, j, P.Measurement, P.FundedCall)
      ensures Number(j, Calls(rows)) < |after|
      ensures after[Number(j, Calls(rows))] == Q.CoreBegin(rows[j].event.observation, rows[j].event.at)
    {
      assert j < k || j == k;
    }
  }

  lemma {:induction false} FinishesNext(limits: Limits, rows: seq<P.Row>, k: nat, core: Q.Core)
    requires k < |rows| && SoundBelow(limits, rows, k + 1)
    requires BeginsAre(rows, k, core.begins) && FinishesAre(rows, k, core.finishes)
    ensures FinishesAre(rows, k + 1, Q.CoreAfter(core, rows[k].event).finishes)
  {
    var event := rows[k].event;
    var after := Q.CoreAfter(core, event).finishes;
    forall b: nat, f: nat | f < k + 1 && EndsCall(rows, b, f)
      ensures rows[f].event.observation in after
      ensures after[rows[f].event.observation] == Q.CoreFinish(rows[f].event.outcome, rows[f].event.at)
    {
      if f == k {
        assert core.begins[Number(b, Calls(rows))].observation == event.observation;
        assert Q.Measured(core.begins, event.observation);
      } else if event.Finish? {
        assert RowSound(limits, rows, k);
        var d: nat :| Ends(rows, d, k) && forall g: nat :: g < k ==> !Ends(rows, d, g);
        assert !Ends(rows, d, f);
        if event.observation == rows[f].event.observation {
          assert Ends(rows, b, k);
          A.OneBegin(limits, rows, k + 1, b, d, k);
          assert false;
        }
      }
    }
  }

  lemma {:induction false} CoreIs(limits: Limits, rows: seq<P.Row>, n: nat)
    requires n <= |rows| && SoundBelow(limits, rows, n)
    ensures BeginsAre(rows, n, Q.CoreOf(rows[..n]).begins) && FinishesAre(rows, n, Q.CoreOf(rows[..n]).finishes)
  {
    if n == 0 {
      NumberNone(Calls(rows));
    } else {
      var k: nat := n - 1;
      assert k + 1 == n;
      A.PrefixNext(rows, k);
      CoreIs(limits, rows, k);
      BeginsNext(rows, k, Q.CoreOf(rows[..k]));
      FinishesNext(limits, rows, k, Q.CoreOf(rows[..k]));
    }
  }

  /** Request r stands for the r-th measured funded call of the parent log: its bracket is the readings of the BEGIN
      and the FINISH row of that call, and its outcome that of the FINISH row. */
  lemma {:induction false} RequestsStandForCalls(limits: Limits, rows: seq<P.Row>, b: nat)
    requires WellFormed(limits, rows) && BeginsIn(rows, b, P.Measurement, P.FundedCall)
    ensures var core, r := Q.CoreOf(rows), Number(b, Calls(rows)) + 1;
            && |core.begins| == Number(|rows|, Calls(rows)) && PP.HasCall(core, r)
            && PP.CallBegin(core, r) == rows[b].event.at
            && exists f: nat :: Ends(rows, b, f)
                 && PP.CallFinish(core, r) == Q.CoreFinish(rows[f].event.outcome, rows[f].event.at)
  {
    var n := |rows|;
    var last: nat := n - 1;
    assert rows[..n] == rows;
    CoreIs(limits, rows, n);
    assert RowSound(limits, rows, last);
    var f: nat :| f < last && Ends(rows, b, f);
    assert EndsCall(rows, b, f);
  }
}
