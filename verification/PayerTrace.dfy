/** The payer child's own timings of its commands, against the lane protocol that issued them. */
module PayerTrace {
  import opened Wrappers
  import opened Clock
  import LP = LaneProtocol
  import LL = LaneLaws

  datatype Kind = Init | Step(kind: LP.Kind) | Close | ReleaseIpc

  datatype Status = Observed | ReturnedClose | ReleasingIpc

  datatype Timing = Timing(sequence: int, kind: Kind, status: Status, start: Nanos, end: Nanos)

  /** The most commands one lane may time. */
  const MAXIMUM_COMMANDS: nat := 264

  /** The k-th command of a lane that completed this many calls. */
  function Expected(k: nat, completed: nat): Kind {
    if k == 0 then Init
    else if k == 1 then Step(LP.Open) else if k == 2 then Step(LP.Prepare) else if k == 3 then Step(LP.Commit)
    else if k == 4 then Step(LP.Submit) else if k == 5 then Step(LP.Bind)
    else if k < 6 + completed then Step(LP.Execute)
    else if k == 6 + completed then Close else ReleaseIpc
  }

  function StatusOf(kind: Kind): Status {
    if kind == Close then ReturnedClose else if kind == ReleaseIpc then ReleasingIpc else Observed
  }

  ghost predicate Sound(commands: seq<Timing>, completed: nat, k: nat)
    requires k < |commands|
  {
    var c := commands[k];
    && c.sequence == k + 1 && c.kind == Expected(k, completed) && c.status == StatusOf(c.kind) && c.start <= c.end
    && (k > 0 ==> commands[k - 1].end <= c.start)
  }

  /** The payer loop: kinds in the script's order, each command after the end of the one before. */
  method CheckPayer(commands: seq<Timing>, completed: nat) returns (ok: bool)
    ensures ok <==> |commands| == completed + 8 <= MAXIMUM_COMMANDS && forall k :: 0 <= k < |commands| ==>
            Sound(commands, completed, k)
  {
    if !(|commands| == completed + 8 <= MAXIMUM_COMMANDS) {
      return false;
    }
    var previous: Option<int> := None;
    var k := 0;
    while k < |commands|
      invariant 0 <= k <= |commands| && (forall j :: 0 <= j < k ==> Sound(commands, completed, j))
      invariant previous == if k == 0 then None else Some(commands[k - 1].end)
    {
      var command := commands[k];
      var kind := Expected(k, completed);
      if !(command.sequence == k + 1 && command.kind == kind && command.status == StatusOf(kind)
        && command.start <= command.end
           && (previous.None? || previous.value <= command.start)) {
        assert !Sound(commands, completed, k);
        return false;
      }
      previous := Some(command.end);
      k := k + 1;
    }
    return true;
  }

  /** No two commands of an accepted payer log overlap, and together they take no more time than the log spans. */
  lemma {:induction false} CommandsNeverOverlap(commands: seq<Timing>, completed: nat)
    requires forall k :: 0 <= k < |commands| ==> Sound(commands, completed, k)
    ensures forall i, j :: 0 <= i < j < |commands| ==> commands[i].end <= commands[j].start
    ensures |commands| > 0 ==> Busy(commands) <= commands[|commands| - 1].end - commands[0].start
  {
    if |commands| > 1 {
      var n, init := |commands| - 1, commands[..|commands| - 1];
      assert forall k :: 0 <= k < n ==> Sound(init, completed, k) by {
        assert forall k :: 0 <= k < n ==> Sound(commands, completed, k) && init[k] == commands[k];
      }
      CommandsNeverOverlap(init, completed);
      assert Sound(commands, completed, n) && Sound(commands, completed, n - 1);
      forall i | 0 <= i < n ensures commands[i].end <= commands[n].start {
        assert i < n - 1 ==> init[i].end <= init[n - 1].start;
      }
    } else if |commands| == 1 {
      assert Sound(commands, completed, 0);
      assert Busy(commands[..0]) == 0;
    }
  }

  /** The time that the commands take together. */
  ghost function Busy(commands: seq<Timing>): int {
    if |commands| == 0 then 0 else
      Busy(commands[..|commands| - 1]) + commands[|commands| - 1].end - commands[|commands| - 1].start
  }

  /** Between INIT and CLOSE an accepted payer log times exactly the tickets that a lane grants when it completes
      those calls, one by one; and no plan the protocol admits needs more than the maximum. */
  lemma {:induction false} PayerTimesTickets(plan: LP.Plan, calls: seq<LP.Call>, commands: seq<Timing>,
                                             completed: nat, k: nat)
    requires plan.Total() <= 256 && |LP.Granted(plan, calls)| == LL.SETUP + completed && k < LL.SETUP + completed
    requires |commands| == completed + 8 && forall j :: 0 <= j < |commands| ==> Sound(commands, completed, j)
    ensures commands[k + 1].kind == Step(LP.Granted(plan, calls)[k].kind)
    ensures |commands| <= MAXIMUM_COMMANDS
  {
    LL.LaneInvariant(plan, calls);
    assert Sound(commands, completed, k + 1);
  }

  /** INIT, the five set-up steps, the calls, the close and the release, with what each says of itself. */
  ghost predicate Scripted(commands: seq<Timing>, completed: nat)
    requires |commands| == completed + 8
  {
    var n := |commands|;
    && commands[0].kind == Init && commands[n - 2].kind == Close && commands[n - 1].kind == ReleaseIpc
    && commands[1].kind == Step(LP.Open) && commands[2].kind == Step(LP.Prepare) && commands[3].kind == Step(LP.Commit)
    && commands[4].kind == Step(LP.Submit) && commands[5].kind == Step(LP.Bind)
    && (forall k :: 6 <= k < n - 2 ==> commands[k].kind == Step(LP.Execute))
    && (forall k :: 0 <= k < n - 2 ==> commands[k].status == Observed)
    && commands[n - 2].status == ReturnedClose && commands[n - 1].status == ReleasingIpc
  }

  ghost predicate InOrder(commands: seq<Timing>) {
    && (forall k :: 0 <= k < |commands| ==> commands[k].sequence == k + 1 && commands[k].start <= commands[k].end)
    && (forall i, j :: 0 <= i < j < |commands| ==> commands[i].end <= commands[j].start)
  }

  lemma {:induction false} SoundScripted(commands: seq<Timing>, completed: nat)
    requires |commands| == completed + 8 && forall k :: 0 <= k < |commands| ==> Sound(commands, completed, k)
    ensures Scripted(commands, completed)
  {
    var n := |commands|;
    assert Sound(commands, completed, 0) && Sound(commands, completed, 1) && Sound(commands, completed, 2);
    assert Sound(commands, completed, 3) && Sound(commands, completed, 4) && Sound(commands, completed, 5);
    assert Sound(commands, completed, n - 2) && Sound(commands, completed, n - 1);
    forall k | 0 <= k < n - 2
      ensures commands[k].status == Observed && (6 <= k ==> commands[k].kind == Step(LP.Execute)) {
      assert Sound(commands, completed, k);
    }
  }

  lemma {:induction false} SoundOrdered(commands: seq<Timing>, completed: nat)
    requires forall k :: 0 <= k < |commands| ==> Sound(commands, completed, k)
    ensures InOrder(commands)
  {
    CommandsNeverOverlap(commands, completed);
    forall k | 0 <= k < |commands| ensures commands[k].sequence == k + 1 && commands[k].start <= commands[k].end {
      assert Sound(commands, completed, k);
    }
  }

  lemma {:induction false} ScriptedSound(commands: seq<Timing>, completed: nat, k: nat)
    requires |commands| == completed + 8 && Scripted(commands, completed) && InOrder(commands) && k < |commands|
    ensures Sound(commands, completed, k)
  {
    if k < 6 {
      assert k == 0 || k == 1 || k == 2 || k == 3 || k == 4 || k == 5;
    }
  }

  /** A payer log of the right length is accepted exactly when it runs this script in this order. */
  lemma {:induction false} PayerExactly(commands: seq<Timing>, completed: nat)
    requires |commands| == completed + 8
    ensures (forall k :: 0 <= k < |commands| ==> Sound(commands, completed, k)) <==>
              Scripted(commands, completed) && InOrder(commands)
  {
    if forall k :: 0 <= k < |commands| ==> Sound(commands, completed, k) {
      SoundScripted(commands, completed);
      SoundOrdered(commands, completed);
    }
    if Scripted(commands, completed) && InOrder(commands) {
      forall k: nat | k < |commands| ensures Sound(commands, completed, k) {
        ScriptedSound(commands, completed, k);
      }
    }
  }
}
