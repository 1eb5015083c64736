/** The provider child beside the exchange: a startup reply, one activation and one close, each a command
    written in pieces and a reply read in pieces. */
module Provider {
  import opened Wrappers
  import opened Counting
  import opened Pipes

  /** The replies (startup, activation, close) and the commands (activation, close) fixed beforehand. */
  datatype Plan = Plan(startupReply: Bytes, activationCommand: Bytes, activationReply: Bytes, closeCommand: Bytes,
    closeReply: Bytes) {
    function Replies(): seq<Bytes> { [startupReply, activationReply, closeReply] }

    function Commands(): seq<Bytes> { [activationCommand, closeCommand] }
  }

  /** `entered` counts the operations entered: none, the activation, or the activation and the close.
      `bootstraps` are the start-up pipes still to be written. */
  datatype Endpoints = Endpoints(
    bootstraps: nat, entered: nat, writing: bool, offset: nat, commandsWritten: nat, waiting: bool, buffer: Bytes,
    repliesMatched: nat, activationMatched: bool)

  const LAUNCHED := Endpoints(2, 0, false, 0, 0, true, [], 0, false)

  datatype Event =
    | Bootstrapped
    | Wrote(count: nat)
    | Delivered(chunk: Bytes)
    | Activate
    | Activated
    | Close

  /** No endpoint has anything left to write. */
  predicate Quiet(e: Endpoints) {
    e.bootstraps == 0 && !e.writing
  }

  /** Enter the next operation: wait for its reply and start writing its command. */
  function Enter(e: Endpoints): Endpoints {
    e.(entered := e.entered + 1, writing := true, offset := 0, waiting := true)
  }

  function AfterDelivery(plan: Plan, e: Endpoints, chunk: Bytes): Option<Endpoints> {
    var buffer := e.buffer + chunk;
    if !(e.waiting && e.repliesMatched < 3) then None
    else
      var reply := plan.Replies()[e.repliesMatched];
      if !StartsWith(reply, buffer) then None
      else if buffer != reply then Some(e.(buffer := buffer))
      else if !Quiet(e) then None
      else Some(e.(buffer := [], waiting := false, repliesMatched := e.repliesMatched + 1))
  }

  function AfterWrote(plan: Plan, e: Endpoints, count: nat): Option<Endpoints> {
    if !(e.writing && 1 <= e.entered <= 2) then None
    else
      var data := plan.Commands()[e.entered - 1];
      if count == 0 || e.offset + count > |data| then None
      else if e.offset + count < |data| then Some(e.(offset := e.offset + count))
      else Some(e.(offset := 0, writing := false, commandsWritten := e.commandsWritten + 1))
  }

  /** The endpoints after an event; none when a check fails. */
  function React(plan: Plan, e: Endpoints, event: Event): Option<Endpoints> {
    match event
    case Bootstrapped => if e.bootstraps == 0 then None else Some(e.(bootstraps := e.bootstraps - 1))
    case Wrote(count) => AfterWrote(plan, e, count)
    case Delivered(chunk) => AfterDelivery(plan, e, chunk)
    case Activate => if e.repliesMatched == 1 && e.entered == 0 && !e.waiting && Quiet(e) then Some(Enter(e)) else None
    case Activated =>
      if e.entered == 1 && !e.waiting && Quiet(e) && e.buffer == [] && e.repliesMatched == 2 && e.commandsWritten == 1
      then Some(e.(activationMatched := true)) else None
    case Close => if e.activationMatched && e.entered == 1 && !e.waiting && Quiet(e) then Some(Enter(e)) else None
  }

  /** The endpoints after a run of events; none once a check has failed. */
  ghost function Run(plan: Plan, events: seq<Event>): Option<Endpoints> {
    if |events| == 0 then Some(LAUNCHED) else
      var before := Run(plan, events[..|events| - 1]);
      if before.None? then None else React(plan, before.value, events[|events| - 1])
  }

  lemma {:induction false} RunNext(plan: Plan, events: seq<Event>, event: Event)
    ensures Run(plan, events + [event]) ==
              if Run(plan, events).None? then None else React(plan, Run(plan, events).value, event)
  {
    assert (events + [event])[..|events|] == events;
  }

  /** The provider's parent endpoints as an object. */
  class Process {
    const plan: Plan
    /** Every event so far. */
    ghost var events: seq<Event>
    var bootstraps: nat
    var entered: nat
    var writing: bool
    var offset: nat
    var commandsWritten: nat
    var waiting: bool
    var buffer: Bytes
    var repliesMatched: nat
    var activationMatched: bool

    function Snapshot(): Endpoints
      reads this
    {
      Endpoints(bootstraps, entered, writing, offset, commandsWritten, waiting, buffer, repliesMatched,
        activationMatched)
    }

    /** The fields are where the events so far lead. */
    ghost predicate Valid()
      reads this
    {
      Run(plan, events) == Some(Snapshot())
    }

    constructor (plan: Plan)
      ensures Valid() && events == [] && this.plan == plan
    {
      this.plan, events := plan, [];
      bootstraps, entered, writing, offset, commandsWritten := 2, 0, false, 0, 0;
      waiting, buffer, repliesMatched, activationMatched := true, [], 0, false;
    }

    /** The output must extend the reply awaited, and complete it only when nothing is left to write. */
    method TakeOutput(chunk: Bytes) returns (ok: bool)
      modifies this`buffer, this`waiting, this`repliesMatched
      ensures var after := AfterDelivery(plan, old(Snapshot()), chunk);
              ok == after.Some? && (ok ==> Snapshot() == after.value)
    {
      if !(waiting && repliesMatched < 3) {
        return false;
      }
      var reply := plan.Replies()[repliesMatched];
      buffer := buffer + chunk;
      if !StartsWith(reply, buffer) {
        return false;
      }
      if buffer == reply {
        if bootstraps > 0 || writing {
          return false;
        }
        buffer, waiting, repliesMatched := [], false, repliesMatched + 1;
      }
      return true;
    }

    /** Output arrives. */
    method PumpRead(chunk: Bytes) returns (ok: bool)
      requires Valid()
      modifies this`buffer, this`waiting, this`repliesMatched, this`events
      ensures events == old(events) + [Delivered(chunk)] && ok == Run(plan, events).Some?
      ensures ok ==> Valid()
    {
      RunNext(plan, events, Delivered(chunk));
      events := events + [Delivered(chunk)];
      ok := TakeOutput(chunk);
    }

    /** The bytes taken move the offset in the current command; the last one completes it. */
    method TakeWritten(count: nat) returns (ok: bool)
      modifies this`offset, this`writing, this`commandsWritten
      ensures var after := AfterWrote(plan, old(Snapshot()), count);
              ok == after.Some? && (ok ==> Snapshot() == after.value)
    {
      if !(writing && 1 <= entered <= 2) {
        return false;
      }
      var data := plan.Commands()[entered - 1];
      if count == 0 || offset + count > |data| {
        return false;
      }
      offset := offset + count;
      if offset == |data| {
        offset, writing, commandsWritten := 0, false, commandsWritten + 1;
      }
      return true;
    }

    /** The control pipe takes some bytes. */
    method PumpWrite(count: nat) returns (ok: bool)
      requires Valid()
      modifies this`offset, this`writing, this`commandsWritten, this`events
      ensures events == old(events) + [Wrote(count)] && ok == Run(plan, events).Some?
      ensures ok ==> Valid()
    {
      RunNext(plan, events, Wrote(count));
      events := events + [Wrote(count)];
      ok := TakeWritten(count);
    }

    /** A start-up pipe has taken its bytes and is closed. */
    method PumpBootstrap() returns (ok: bool)
      requires Valid()
      modifies this`bootstraps, this`events
      ensures events == old(events) + [Bootstrapped] && ok == Run(plan, events).Some?
      ensures ok ==> Valid()
    {
      RunNext(plan, events, Bootstrapped);
      events := events + [Bootstrapped];
      ok := bootstraps > 0;
      if ok {
        bootstraps := bootstraps - 1;
      }
    }

    /** The next operation: its command is to be written and its reply awaited. */
    method StartOperation()
      modifies this`entered, this`writing, this`offset, this`waiting
      ensures Snapshot() == Enter(old(Snapshot()))
    {
      entered, writing, offset, waiting := entered + 1, true, 0, true;
    }

    /** Enter the one activation. */
    method BeginActivation() returns (ok: bool)
      requires Valid()
      modifies this`entered, this`writing, this`offset, this`waiting, this`events
      ensures events == old(events) + [Activate] && ok == Run(plan, events).Some?
      ensures ok ==> Valid()
    {
      RunNext(plan, events, Activate);
      events := events + [Activate];
      ok := repliesMatched == 1 && entered == 0 && !waiting && bootstraps == 0 && !writing;
      if ok {
        StartOperation();
      }
    }

    /** The activation returns. */
    method EndActivation() returns (ok: bool)
      requires Valid()
      modifies this`activationMatched, this`events
      ensures events == old(events) + [Activated] && ok == Run(plan, events).Some?
      ensures ok ==> Valid()
    {
      RunNext(plan, events, Activated);
      events := events + [Activated];
      ok := entered == 1 && !waiting && bootstraps == 0 && !writing && buffer == [] && repliesMatched == 2
        && commandsWritten == 1;
      if ok {
        activationMatched := true;
      }
    }

    /** Enter the one close. */
    method BeginClose() returns (ok: bool)
      requires Valid()
      modifies this`entered, this`writing, this`offset, this`waiting, this`events
      ensures events == old(events) + [Close] && ok == Run(plan, events).Some?
      ensures ok ==> Valid()
    {
      RunNext(plan, events, Close);
      events := events + [Close];
      ok := activationMatched && entered == 1 && !waiting && bootstraps == 0 && !writing;
      if ok {
        StartOperation();
      }
    }
  }

  /** The bytes of the command that the event takes. */
  ghost function SentBy(plan: Plan, e: Endpoints, event: Event): Bytes {
    if event.Wrote? && AfterWrote(plan, e, event.count).Some?
      then plan.Commands()[e.entered - 1][e.offset..e.offset + event.count] else []
  }

  ghost function ReceivedBy(event: Event): Bytes {
    if event.Delivered? then event.chunk else []
  }

  /** Bytes taken by the control pipe, in order. */
  ghost function Sent(plan: Plan, events: seq<Event>): Bytes {
    if |events| == 0 then [] else
      var e := Run(plan, events[..|events| - 1]);
      Sent(plan, events[..|events| - 1]) + (if e.Some? then SentBy(plan, e.value, events[|events| - 1]) else [])
  }

  /** Bytes delivered by the output pipe, in order. */
  ghost function Received(events: seq<Event>): Bytes {
    if |events| == 0 then [] else Received(events[..|events| - 1]) + ReceivedBy(events[|events| - 1])
  }

  /** Operations, commands and replies keep step: startup reply, activation, its reply, close, its reply. */
  ghost predicate Lockstep(plan: Plan, e: Endpoints) {
    && e.entered <= 2 && e.commandsWritten == e.entered - (if e.writing then 1 else 0)
    && e.repliesMatched == 1 + e.entered - (if e.waiting then 1 else 0)
    && e.commandsWritten <= e.repliesMatched <= e.commandsWritten + 1
    && (e.writing ==> e.waiting && e.entered > 0 && e.offset <= |plan.Commands()[e.entered - 1]|)
    && (!e.writing ==> e.offset == 0)
    && (!e.waiting ==> e.buffer == [])
    && (e.repliesMatched > 0 ==> e.bootstraps == 0)
    && (e.activationMatched ==> e.repliesMatched >= 2)
  }

  /** The bytes on both pipes are those of the plan. */
  ghost predicate BytesSound(plan: Plan, e: Endpoints, sent: Bytes, received: Bytes)
    requires Lockstep(plan, e)
  {
    && sent == Concat(plan.Commands()[..e.commandsWritten])
       + (if e.writing then plan.Commands()[e.entered - 1][..e.offset] else [])
    && received == Concat(plan.Replies()[..e.repliesMatched]) + e.buffer
    && (e.waiting ==> StartsWith(plan.Replies()[e.repliesMatched], e.buffer))
  }

  lemma {:induction false} DeliverySound(plan: Plan, e: Endpoints, chunk: Bytes, sent: Bytes, received: Bytes)
    requires Lockstep(plan, e) && BytesSound(plan, e, sent, received) && AfterDelivery(plan, e, chunk).Some?
    ensures var after := AfterDelivery(plan, e, chunk).value;
            Lockstep(plan, after)
            && BytesSound(plan, after, sent, received + chunk)
  {
    var before := Concat(plan.Replies()[..e.repliesMatched]);
    Associate(before, e.buffer, chunk);
    ConcatNext(plan.Replies(), e.repliesMatched);
    assert before + (e.buffer + chunk) + [] == before + (e.buffer + chunk);
  }

  lemma {:induction false} WroteSound(plan: Plan, e: Endpoints, count: nat, sent: Bytes, received: Bytes)
    requires Lockstep(plan, e) && BytesSound(plan, e, sent, received) && AfterWrote(plan, e, count).Some?
    ensures var after, data := AfterWrote(plan, e, count).value, plan.Commands()[e.entered - 1];
            Lockstep(plan, after) && BytesSound(plan, after, sent + data[e.offset..e.offset + count], received)
  {
    var commands, k := plan.Commands(), e.commandsWritten;
    var data, before := commands[k], Concat(commands[..k]);
    assert data[..e.offset] + data[e.offset..e.offset + count] == data[..e.offset + count];
    Associate(before, data[..e.offset], data[e.offset..e.offset + count]);
    ConcatNext(commands, k);
    assert data[..|data|] == data;
    assert before + data + [] == before + data;
  }

  lemma {:induction false} OtherSound(plan: Plan, e: Endpoints, event: Event, sent: Bytes, received: Bytes)
    requires Lockstep(plan, e) && BytesSound(plan, e, sent, received) && !event.Delivered? && !event.Wrote?
             && React(plan, e, event).Some?
    ensures Lockstep(plan, React(plan, e, event).value) && BytesSound(plan, React(plan, e, event).value, sent, received)
  {
  }

  lemma {:induction false} EventSound(plan: Plan, e: Endpoints, event: Event, sent: Bytes, received: Bytes)
    requires Lockstep(plan, e) && BytesSound(plan, e, sent, received) && React(plan, e, event).Some?
    ensures var after := React(plan, e, event).value;
            Lockstep(plan, after) && BytesSound(plan, after, sent + SentBy(plan, e, event),
              received + ReceivedBy(event))
  {
    assert sent + [] == sent && received + [] == received;
    if event.Delivered? {
      DeliverySound(plan, e, event.chunk, sent, received);
    } else if event.Wrote? {
      WroteSound(plan, e, event.count, sent, received);
    } else {
      OtherSound(plan, e, event, sent, received);
    }
  }

  lemma {:induction false} LaunchSound(plan: Plan)
    ensures Lockstep(plan, LAUNCHED) && BytesSound(plan, LAUNCHED, [], [])
  {
    assert plan.Replies()[..0] == [] && plan.Commands()[..0] == [];
  }

  /** Under every interleaving of partial writes and chunked reads: a reply is matched only once its command is
      written in full, a command is entered only once the reply before it has matched, and the bytes on both
      pipes are a prefix of the plan's. */
  lemma {:induction false} ProviderInvariant(plan: Plan, events: seq<Event>)
    requires Run(plan, events).Some?
    ensures var e := Run(plan, events).value;
            Lockstep(plan, e)
            && BytesSound(plan, e, Sent(plan, events), Received(events))
  {
    if |events| == 0 {
      LaunchSound(plan);
    } else {
      var init := events[..|events| - 1];
      ProviderInvariant(plan, init);
      EventSound(plan, Run(plan, init).value, events[|events| - 1], Sent(plan, init), Received(init));
    }
  }

  /** So it holds of the object after every sequence of its method calls. */
  lemma {:induction false} ProcessSound(p: Process)
    requires p.Valid()
    ensures Lockstep(p.plan, p.Snapshot())
    ensures BytesSound(p.plan, p.Snapshot(), Sent(p.plan, p.events), Received(p.events))
  {
    ProviderInvariant(p.plan, p.events);
  }

  lemma {:induction false} OnePart(part: Bytes)
    ensures Concat([part]) == part
  {
    assert [part][..0] == [] && [] + part == part;
  }

  /** The first commands and replies of a plan, put together. */
  lemma {:induction false} PlanParts(plan: Plan)
    ensures Concat(plan.Commands()[..0]) == [] && Concat(plan.Commands()[..1]) == plan.activationCommand
    ensures Concat(plan.Replies()[..1]) == plan.startupReply
    ensures Concat(plan.Replies()[..2]) == plan.startupReply + plan.activationReply
  {
    assert plan.Commands()[..1] == [plan.activationCommand] && plan.Replies()[..1] == [plan.startupReply];
    OnePart(plan.activationCommand);
    OnePart(plan.startupReply);
    ConcatNext(plan.Replies(), 1);
  }

  /** Activation and close are entered at most once each, in that order, and the close only after the activation's
      command and reply are complete. */
  lemma {:induction false} OperationsOnce(plan: Plan, events: seq<Event>, event: Event)
    requires Run(plan, events).Some? && Run(plan, events + [event]).Some?
    ensures var e := Run(plan, events).value;
            && (event.Activate? ==>
               e.entered == 0 && e.repliesMatched == 1 && Received(events) == plan.startupReply
               && Sent(plan, events) == [])
            && (event.Close? ==> e.entered == 1 && Received(events) == plan.startupReply + plan.activationReply
                                 && Sent(plan, events) == plan.activationCommand)
  {
    RunNext(plan, events, event);
    ProviderInvariant(plan, events);
    PlanParts(plan);
    var sent, received := Sent(plan, events), Received(events);
    assert sent + [] == sent && received + [] == received;
  }
}
