/** Exactly which event the provider's endpoints accept, told from the events and the bytes so far. */
module ProviderExact {
  import opened Wrappers
  import opened Counting
  import opened Pipes
  import opened Provider

  /** No command and no reply is empty. */
  ghost predicate Spoken(plan: Plan) {
    && plan.startupReply != [] && plan.activationReply != [] && plan.closeReply != []
    && plan.activationCommand != [] && plan.closeCommand != []
  }

  // ---- the events so far ---------------------------------------------------------------------------

  ghost function Count(events: seq<Event>, kind: Event -> bool): nat {
    if |events| == 0 then 0 else
      Count(events[..|events| - 1], kind) + (if kind(events[|events| - 1]) then 1 else 0)
  }

  ghost function Boots(events: seq<Event>): nat {
    Count(events, (e: Event) => e.Bootstrapped?)
  }

  ghost function Operations(events: seq<Event>): nat {
    Count(events, (e: Event) => e.Activate? || e.Close?)
  }

  ghost predicate Returned(events: seq<Event>) {
    Count(events, (e: Event) => e.Activated?) > 0
  }

  /** How many bytes the control pipe took. */
  ghost function Taken(events: seq<Event>): nat {
    if |events| == 0 then 0 else
      Taken(events[..|events| - 1]) + (if events[|events| - 1].Wrote? then events[|events| - 1].count else 0)
  }

  /** The replies that the operations entered so far call for, and their commands. */
  ghost function Awaited(plan: Plan, operations: nat): Bytes {
    if operations == 0 then plan.startupReply
    else if operations == 1 then plan.startupReply + plan.activationReply
    else plan.startupReply + plan.activationReply + plan.closeReply
  }

  ghost function Commanded(plan: Plan, operations: nat): Bytes {
    if operations == 0 then [] else if operations == 1 then plan.activationCommand
    else plan.activationCommand + plan.closeCommand
  }

  /** Both start-up pipes are closed, and every command of the operations entered was taken in full. */
  ghost predicate Settled(plan: Plan, events: seq<Event>) {
    Boots(events) == 2 && Taken(events) == |Commanded(plan, Operations(events))|
  }

  /** What the events and bytes so far demand of the next event. */
  ghost predicate EventAllowed(plan: Plan, events: seq<Event>, event: Event) {
    var n, received := Operations(events), Received(events);
    match event
    case Bootstrapped => Boots(events) < 2
    case Wrote(count) => 0 < count && Taken(events) + count <= |Commanded(plan, n)|
    case Delivered(chunk) =>
      && received != Awaited(plan, n) && StartsWith(Awaited(plan, n), received + chunk)
      && (received + chunk == Awaited(plan, n) ==> Settled(plan, events))
    case Activate => n == 0 && received == Awaited(plan, 0)
    case Activated => n == 1 && received == Awaited(plan, 1)
    case Close => n == 1 && Returned(events)
  }

  // ---- what the endpoints hold ------------------------------------------------------------------------

  /** A reply that is awaited and a command that is being written are not complete. */
  ghost predicate Unfinished(plan: Plan, e: Endpoints)
    requires Lockstep(plan, e)
  {
    && (e.waiting ==> |e.buffer| < |plan.Replies()[e.repliesMatched]|)
    && (e.writing ==> e.offset < |plan.Commands()[e.entered - 1]|)
    && (!e.waiting ==> Quiet(e))
    && (e.activationMatched ==> e.entered > 0) && (e.entered == 2 ==> e.activationMatched)
    && (e.activationMatched && e.entered == 1 ==> !e.waiting)
  }

  ghost predicate Holds(plan: Plan, e: Endpoints, boots: nat, operations: nat, returned: bool, taken: nat,
                        received: Bytes) {
    && Lockstep(plan, e) && Unfinished(plan, e)
    && e.bootstraps + boots == 2 && e.entered == operations && (e.activationMatched <==> returned)
    && (e.writing <==> taken < |Commanded(plan, operations)|)
    && taken <= |Commanded(plan, operations)|
    && (e.writing ==> taken == |Commanded(plan, operations - 1)| + e.offset)
    && (e.waiting <==> received != Awaited(plan, operations))
    && received == (if e.repliesMatched == 0 then [] else Awaited(plan, e.repliesMatched - 1)) + e.buffer
  }

  ghost predicate Stands(plan: Plan, e: Endpoints, events: seq<Event>) {
    Holds(plan, e, Boots(events), Operations(events), Returned(events), Taken(events), Received(events))
  }

  lemma {:induction false} AwaitedNext(plan: Plan, n: nat)
    requires n < 3
    ensures Awaited(plan, n) == (if n == 0 then [] else Awaited(plan, n - 1)) + plan.Replies()[n]
  {
    assert [] + plan.startupReply == plan.startupReply;
  }

  lemma {:induction false} StartsAfter(front: Bytes, rest: Bytes, part: Bytes)
    ensures StartsWith(front + rest, front + part) <==> StartsWith(rest, part)
    ensures front + part == front + rest <==> part == rest
  {
    if |part| <= |rest| {
      assert (front + rest)[..|front + part|] == front + rest[..|part|];
      assert (front + rest[..|part|])[|front|..] == rest[..|part|] && (front + part)[|front|..] == part;
    }
    assert (front + rest)[|front|..] == rest && (front + part)[|front|..] == part;
  }

  /** When bytes of output are accepted, and where they lead. */
  lemma {:induction false} DeliveredIs(plan: Plan, e: Endpoints, chunk: Bytes, boots: nat, operations: nat,
                                       returned: bool, taken: nat, received: Bytes)
    requires Spoken(plan) && Holds(plan, e, boots, operations, returned, taken, received)
    ensures AfterDelivery(plan, e, chunk).Some? <==>
              && received != Awaited(plan, operations) && StartsWith(Awaited(plan, operations), received + chunk)
              && (received + chunk == Awaited(plan, operations) ==>
                    boots == 2 && taken == |Commanded(plan, operations)|)
    ensures AfterDelivery(plan, e, chunk).Some? ==>
              Holds(plan, AfterDelivery(plan, e, chunk).value, boots, operations, returned, taken, received + chunk)
  {
    if e.waiting {
      var n := e.repliesMatched;
      var front := if n == 0 then [] else Awaited(plan, n - 1);
      AwaitedNext(plan, n);
      Associate(front, e.buffer, chunk);
      StartsAfter(front, plan.Replies()[n], e.buffer + chunk);
      assert Awaited(plan, n) + [] == Awaited(plan, n);
    }
  }

  lemma {:induction false} WroteIs(plan: Plan, e: Endpoints, count: nat, boots: nat, operations: nat,
                                   returned: bool, taken: nat, received: Bytes)
    requires Spoken(plan) && Holds(plan, e, boots, operations, returned, taken, received)
    ensures AfterWrote(plan, e, count).Some? <==> 0 < count && taken + count <= |Commanded(plan, operations)|
    ensures AfterWrote(plan, e, count).Some? ==>
              Holds(plan, AfterWrote(plan, e, count).value, boots, operations, returned, taken + count, received)
  {
  }

  lemma {:induction false} EnterIs(plan: Plan, e: Endpoints, boots: nat, operations: nat, returned: bool, taken: nat,
                                   received: Bytes)
    requires Spoken(plan) && Holds(plan, e, boots, operations, returned, taken, received)
    requires operations < 2 && !e.waiting && (returned <==> operations == 1)
    ensures Holds(plan, Enter(e), boots, operations + 1, returned, taken, received)
  {
    AwaitedNext(plan, operations + 1);
  }

  /** One event more. */
  lemma {:induction false} FiguresNext(events: seq<Event>, event: Event)
    ensures var more := events + [event];
            && Boots(more) == Boots(events) + (if event.Bootstrapped? then 1 else 0)
            && Operations(more) == Operations(events) + (if event.Activate? || event.Close? then 1 else 0)
            && (Returned(more) <==> Returned(events) || event.Activated?)
            && Taken(more) == Taken(events) + (if event.Wrote? then event.count else 0)
            && Received(more) == Received(events) + ReceivedBy(event)
  {
    assert (events + [event])[..|events|] == events;
  }

  lemma {:induction false} ReactIs(plan: Plan, e: Endpoints, events: seq<Event>, event: Event)
    requires Spoken(plan) && Stands(plan, e, events)
    ensures React(plan, e, event).Some? <==> EventAllowed(plan, events, event)
    ensures React(plan, e, event).Some? ==> Stands(plan, React(plan, e, event).value, events + [event])
  {
    var boots, n, returned, taken, received :=
      Boots(events), Operations(events), Returned(events), Taken(events), Received(events);
    FiguresNext(events, event);
    assert received + [] == received;
    match event {
      case Wrote(count) => WroteIs(plan, e, count, boots, n, returned, taken, received);
      case Delivered(chunk) => DeliveredIs(plan, e, chunk, boots, n, returned, taken, received);
      case Activate =>
        if React(plan, e, event).Some? {
          EnterIs(plan, e, boots, n, returned, taken, received);
        }
      case Close =>
        if React(plan, e, event).Some? {
          EnterIs(plan, e, boots, n, returned, taken, received);
        }
      case _ =>
    }
  }

  lemma {:induction false} LaunchStands(plan: Plan)
    requires Spoken(plan)
    ensures Stands(plan, LAUNCHED, [])
  {
  }

  lemma {:induction false} StandsNext(plan: Plan, events: seq<Event>, event: Event)
    requires Spoken(plan) && Run(plan, events).Some? && Stands(plan, Run(plan, events).value, events)
    requires Run(plan, events + [event]).Some?
    ensures Stands(plan, Run(plan, events + [event]).value, events + [event])
  {
    RunNext(plan, events, event);
    ReactIs(plan, Run(plan, events).value, events, event);
  }

  lemma {:induction false} RunStands(plan: Plan, events: seq<Event>)
    requires Spoken(plan) && Run(plan, events).Some?
    ensures Stands(plan, Run(plan, events).value, events)
  {
    if |events| == 0 {
      LaunchStands(plan);
    } else {
      var init, last := events[..|events| - 1], events[|events| - 1];
      RunStands(plan, init);
      assert init + [last] == events;
      StandsNext(plan, init, last);
    }
  }

  /** A run goes on exactly when the events and the bytes so far allow the event. */
  lemma {:induction false} EventExactly(plan: Plan, events: seq<Event>, event: Event)
    requires Spoken(plan) && Run(plan, events).Some?
    ensures Run(plan, events + [event]).Some? <==> EventAllowed(plan, events, event)
  {
    RunStands(plan, events);
    RunNext(plan, events, event);
    ReactIs(plan, Run(plan, events).value, events, event);
  }
}
