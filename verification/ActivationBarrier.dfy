/** The exchange together with its provider: the provider's activation runs inside the step that matches the
    third reply, between that reply and the first byte of the fourth command. */
module ActivationBarrier {
  import opened Wrappers
  import opened Pipes
  import E = Exchange
  import EL = ExchangeLaws
  import P = Provider

  /** What may happen next: a write or a read of the exchange, or provider output outside of an activation.
      `pumps` are the provider's reads and writes if the bytes read lead to its activation. */
  datatype JointStep = Write(count: nat) | Read(chunk: Bytes, pumps: seq<P.Event>) | Stray(chunk: Bytes)

  /** The steps of the exchange and the events of the provider so far. */
  datatype Joint = Joint(steps: seq<E.Step>, events: seq<P.Event>)

  ghost predicate AllPump(events: seq<P.Event>) {
    forall i :: 0 <= i < |events| ==> events[i].Bootstrapped? || events[i].Wrote? || events[i].Delivered?
  }

  /** The events of one activation: it is entered, the pipes are pumped, it returns. */
  function Activation(pumps: seq<P.Event>): seq<P.Event> {
    [P.Activate] + pumps + [P.Activated]
  }

  /** How often the exchange has activated the provider. */
  ghost function Activations(script: E.Script, steps: seq<E.Step>): nat {
    if E.Run(script, steps).Some? then E.Run(script, steps).value.activations else 0
  }

  /** The reply to an activation is acknowledged exactly when its events run to their end. */
  ghost function After(script: E.Script, plan: P.Plan, j: Joint, step: JointStep): Joint {
    match step
    case Write(count) => j.(steps := j.steps + [E.Write(count)])
    case Read(chunk, pumps) =>
      var events := j.events + Activation(pumps);
      var steps := j.steps + [E.Read(chunk, AllPump(pumps) && P.Run(plan, events).Some?)];
      Joint(steps, if Activations(script, steps) > Activations(script, j.steps) then events else j.events)
    case Stray(chunk) => j.(events := j.events + [P.Delivered(chunk)])
  }

  /** No check has failed on either side. */
  ghost predicate Sound(script: E.Script, plan: P.Plan, j: Joint) {
    E.Run(script, j.steps).Some? && P.Run(plan, j.events).Some?
  }

  /** The histories after a run of joint steps; none once a check has failed. */
  ghost function Run(script: E.Script, plan: P.Plan, launch: seq<P.Event>, steps: seq<JointStep>): Option<Joint> {
    if |steps| == 0 then Some(Joint([], launch)) else
      var before := Run(script, plan, launch, steps[..|steps| - 1]);
      if before.None? then None else
        var j := After(script, plan, before.value, steps[|steps| - 1]);
        if Sound(script, plan, j) then Some(j) else None
  }

  /** The provider was launched: its pipes were pumped until the startup reply matched. */
  ghost predicate Launched(plan: P.Plan, launch: seq<P.Event>) {
    AllPump(launch) && P.Run(plan, launch).Some? && P.Run(plan, launch).value.repliesMatched == 1
  }

  /** Where the provider stands: nothing entered yet, or the activation complete. */
  ghost predicate Stands(e: P.Endpoints, activations: nat) {
    !e.waiting && !e.writing && e.entered == activations <= 1 && e.repliesMatched == 1 + activations
      && e.commandsWritten == activations
  }

  lemma {:induction false} PumpsEnterNothing(plan: P.Plan, events: seq<P.Event>)
    requires AllPump(events) && P.Run(plan, events).Some?
    ensures P.Run(plan, events).value.entered == 0
  {
    if |events| > 0 {
      PumpsEnterNothing(plan, events[..|events| - 1]);
    }
  }

  /** An activation that runs to its end leaves the provider with one command written and two replies read. */
  lemma {:induction false} ActivationEnds(plan: P.Plan, events: seq<P.Event>, pumps: seq<P.Event>)
    requires P.Run(plan, events + Activation(pumps)).Some?
    ensures Stands(P.Run(plan, events + Activation(pumps)).value, 1)
  {
    var entered := events + ([P.Activate] + pumps);
    assert events + Activation(pumps) == entered + [P.Activated];
    P.RunNext(plan, entered, P.Activated);
  }

  lemma {:induction false} LinesActivate(script: E.Script, s: E.State, acknowledges: bool, after: E.State)
    requires E.AfterLines(script, s, acknowledges) == Some(after)
    ensures s.activations <= after.activations && (after.activations > s.activations ==> acknowledges)
    decreases |s.buffer|
  {
    if E.NEWLINE in s.buffer {
      LinesActivate(script, E.AfterLine(script, s, acknowledges).value, acknowledges, after);
    }
  }

  lemma {:induction false} ReadActivates(script: E.Script, s: E.State, chunk: Bytes, acknowledges: bool, after: E.State)
    requires E.AfterRead(script, s, chunk, acknowledges) == Some(after)
    ensures s.activations <= after.activations && (after.activations > s.activations ==> acknowledges)
  {
    LinesActivate(script, E.Delivered(s, chunk), acknowledges, after);
  }

  lemma {:induction false} AfterActivates(script: E.Script, s: E.State, step: E.Step, after: E.State)
    requires E.After(script, s, step) == Some(after)
    ensures s.activations <= after.activations
    ensures after.activations > s.activations ==> step.Read? && step.acknowledges
  {
    if step.Read? {
      ReadActivates(script, s, step.chunk, step.acknowledges, after);
    }
  }

  /** A step never takes an activation back, and only an acknowledged read adds one. */
  lemma {:induction false} StepActivates(script: E.Script, steps: seq<E.Step>, step: E.Step)
    requires E.Run(script, steps + [step]).Some?
    ensures E.Run(script, steps).Some? && Activations(script, steps) <= Activations(script, steps + [step])
    ensures Activations(script, steps + [step]) > Activations(script, steps) ==> step.Read? && step.acknowledges
  {
    E.RunNext(script, steps, step);
    AfterActivates(script, E.Run(script, steps).value, step, E.Run(script, steps + [step]).value);
  }

  /** Output outside of an activation fails: the provider awaits nothing. */
  lemma {:induction false} StrayFails(script: E.Script, plan: P.Plan, j: Joint, chunk: Bytes)
    requires Sound(script, plan, j) && Stands(P.Run(plan, j.events).value, Activations(script, j.steps))
    ensures !Sound(script, plan, After(script, plan, j, Stray(chunk)))
  {
    P.RunNext(plan, j.events, P.Delivered(chunk));
  }

  ghost predicate JointStands(script: E.Script, plan: P.Plan, j: Joint) {
    Sound(script, plan, j) && Stands(P.Run(plan, j.events).value, Activations(script, j.steps))
  }

  lemma {:induction false} LaunchStands(script: E.Script, plan: P.Plan, launch: seq<P.Event>)
    requires Launched(plan, launch)
    ensures JointStands(script, plan, Joint([], launch))
  {
    PumpsEnterNothing(plan, launch);
    P.ProviderInvariant(plan, launch);
  }

  lemma {:induction false} WriteStands(script: E.Script, plan: P.Plan, j: Joint, count: nat)
    requires JointStands(script, plan, j) && Sound(script, plan, After(script, plan, j, Write(count)))
    ensures JointStands(script, plan, After(script, plan, j, Write(count)))
  {
    E.RunNext(script, j.steps, E.Write(count));
  }

  lemma {:induction false} ReadStands(script: E.Script, plan: P.Plan, j: Joint, chunk: Bytes, pumps: seq<P.Event>)
    requires |script.commands| > 0 && JointStands(script, plan, j)
             && Sound(script, plan, After(script, plan, j, Read(chunk, pumps)))
    ensures JointStands(script, plan, After(script, plan, j, Read(chunk, pumps)))
  {
    var events := j.events + Activation(pumps);
    var step := E.Read(chunk, AllPump(pumps) && P.Run(plan, events).Some?);
    var steps := j.steps + [step];
    StepActivates(script, j.steps, step);
    if Activations(script, steps) > Activations(script, j.steps) {
      ActivationEnds(plan, j.events, pumps);
      assert Activations(script, steps) <= 1 by {
        EL.BarrierInvariant(script, steps);
      }
    }
  }

  lemma {:induction false} AlwaysStands(script: E.Script, plan: P.Plan, launch: seq<P.Event>, steps: seq<JointStep>)
    requires |script.commands| > 0 && Launched(plan, launch) && Run(script, plan, launch, steps).Some?
    ensures JointStands(script, plan, Run(script, plan, launch, steps).value)
  {
    if |steps| == 0 {
      LaunchStands(script, plan, launch);
    } else {
      var before := Run(script, plan, launch, steps[..|steps| - 1]).value;
      AlwaysStands(script, plan, launch, steps[..|steps| - 1]);
      match steps[|steps| - 1] {
        case Write(count) => WriteStands(script, plan, before, count);
        case Read(chunk, pumps) => ReadStands(script, plan, before, chunk, pumps);
        case Stray(chunk) => StrayFails(script, plan, before, chunk);
      }
    }
  }

  lemma {:induction false} StandingBytes(plan: P.Plan, e: P.Endpoints, activations: nat, sent: Bytes, received: Bytes)
    requires Stands(e, activations) && P.Lockstep(plan, e) && P.BytesSound(plan, e, sent, received)
    ensures activations <= 1 && sent == Concat(plan.Commands()[..activations])
    ensures received == Concat(plan.Replies()[..1 + activations])
  {
    assert sent + [] == sent && received + [] == received;
    var commands, replies := Concat(plan.Commands()[..activations]), Concat(plan.Replies()[..1 + activations]);
    assert commands + [] == commands && replies + [] == replies;
  }

  lemma {:induction false} ProviderBytes(plan: P.Plan, events: seq<P.Event>, activations: nat)
    requires P.Run(plan, events).Some? && Stands(P.Run(plan, events).value, activations)
    ensures activations == 0 ==> P.Sent(plan, events) == [] && P.Received(events) == plan.startupReply
    ensures activations == 1 ==>
              P.Sent(plan, events) == plan.activationCommand
                && P.Received(events) == plan.startupReply + plan.activationReply
  {
    P.ProviderInvariant(plan, events);
    StandingBytes(plan, P.Run(plan, events).value, activations, P.Sent(plan, events), P.Received(events));
    P.PlanParts(plan);
  }

  /** Under every interleaving on all four pipes: until the third reply has matched, the provider was sent nothing and
      has said nothing but its startup reply; from then on its whole activation command was sent and its whole
      activation reply read, and that is so before any byte of the fourth command goes out. */
  lemma {:induction false} ActivationBetween(script: E.Script, plan: P.Plan, launch: seq<P.Event>,
                                             steps: seq<JointStep>)
    requires |script.commands| > 0 && script.peer && Launched(plan, launch) && Run(script, plan, launch, steps).Some?
    ensures var j := Run(script, plan, launch, steps).value;
            && E.Run(script, j.steps).Some?
            && var complete := E.Run(script, j.steps).value.repliesMatched > E.BOUND_REPLY;
            && P.Sent(plan, j.events) == (if complete then plan.activationCommand else [])
            && P.Received(j.events) == (if complete then plan.startupReply + plan.activationReply
               else plan.startupReply)
            && (|script.commands| > 3 && |EL.Sent(script, j.steps)| > |Concat(script.commands[..3])| ==> complete)
  {
    var j := Run(script, plan, launch, steps).value;
    AlwaysStands(script, plan, launch, steps);
    ProviderBytes(plan, j.events, Activations(script, j.steps));
    EL.BarrierInvariant(script, j.steps);
    EL.ActivatedOnce(script, j.steps);
  }
}
