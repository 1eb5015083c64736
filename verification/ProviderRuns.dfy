/** Every way to cut the bytes of a provider's plan into writes and reads makes a complete run. */
module ProviderRuns {
  import opened Wrappers
  import opened Counting
  import opened Pipes
  import opened Provider
  import opened ProviderExact

  /** All three replies matched, both commands were taken, and the activation returned. */
  ghost predicate Completes(plan: Plan, events: seq<Event>) {
    && Run(plan, events).Some?
    && var e := Run(plan, events).value; e.repliesMatched == 3 && e.commandsWritten == 2 && e.activationMatched
  }

  /** A run is complete exactly when both operations were entered and every reply was read whole. */
  lemma {:induction false} CompletesExactly(plan: Plan, events: seq<Event>)
    requires Spoken(plan) && Run(plan, events).Some?
    ensures Completes(plan, events) <==> Operations(events) == 2 && Received(events) == Awaited(plan, 2)
    ensures Completes(plan, events) ==> Taken(events) == |Commanded(plan, 2)|
  {
    RunStands(plan, events);
  }

  /** The pieces of the two commands and of the three replies. */
  datatype Cut = Cut(startup: seq<Bytes>, activation: seq<nat>, acknowledgement: seq<Bytes>, closing: seq<nat>,
                     closed: seq<Bytes>)

  ghost predicate Pieces(chunks: seq<Bytes>, whole: Bytes) {
    Concat(chunks) == whole && forall i: nat :: i < |chunks| ==> chunks[i] != []
  }

  ghost predicate Counts(counts: seq<nat>, whole: Bytes) {
    Quantity(counts) == |whole| && forall i: nat :: i < |counts| ==> counts[i] > 0
  }

  ghost predicate Cuts(plan: Plan, cut: Cut) {
    && Pieces(cut.startup, plan.startupReply) && Pieces(cut.acknowledgement, plan.activationReply)
    && Pieces(cut.closed, plan.closeReply)
    && Counts(cut.activation, plan.activationCommand) && Counts(cut.closing, plan.closeCommand)
  }

  ghost function Writes(counts: seq<nat>): seq<Event> {
    seq(|counts|, i requires 0 <= i < |counts| => Wrote(counts[i]))
  }

  ghost function Deliveries(chunks: seq<Bytes>): seq<Event> {
    seq(|chunks|, i requires 0 <= i < |chunks| => Delivered(chunks[i]))
  }

  ghost function Opening(cut: Cut): seq<Event> {
    [Bootstrapped] + [Bootstrapped] + Deliveries(cut.startup)
  }

  ghost function Activation(cut: Cut): seq<Event> {
    Opening(cut) + [Activate] + Writes(cut.activation) + Deliveries(cut.acknowledgement) + [Activated]
  }

  ghost function Whole(cut: Cut): seq<Event> {
    Activation(cut) + [Close] + Writes(cut.closing) + Deliveries(cut.closed)
  }

  // ---- where the pieces lead ----------------------------------------------------------------------

  ghost predicate At(plan: Plan, events: seq<Event>, boots: nat, operations: nat, returned: bool, taken: nat,
                     received: Bytes) {
    && Run(plan, events).Some? && Boots(events) == boots && Operations(events) == operations
    && (Returned(events) <==> returned) && Taken(events) == taken && Received(events) == received
  }

  lemma {:induction false} OneMore(plan: Plan, events: seq<Event>, event: Event)
    requires Spoken(plan) && Run(plan, events).Some? && EventAllowed(plan, events, event)
    ensures At(plan, events + [event], Boots(events) + (if event.Bootstrapped? then 1 else 0),
               Operations(events) + (if event.Activate? || event.Close? then 1 else 0),
               Returned(events) || event.Activated?, Taken(events) + (if event.Wrote? then event.count else 0),
               Received(events) + ReceivedBy(event))
  {
    EventExactly(plan, events, event);
    FiguresNext(events, event);
  }

  lemma {:induction false} WriteOn(plan: Plan, before: seq<Event>, n: nat, returned: bool, taken: nat, received: Bytes,
                                   counts: seq<nat>, i: nat)
    requires Spoken(plan) && i < |counts| && counts[i] > 0 && taken + Quantity(counts) == |Commanded(plan, n)|
    requires At(plan, before + Writes(counts[..i]), 2, n, returned, taken + Quantity(counts[..i]), received)
    ensures At(plan, before + Writes(counts[..i + 1]), 2, n, returned, taken + Quantity(counts[..i + 1]), received)
  {
    assert before + Writes(counts[..i + 1]) == before + Writes(counts[..i]) + [Wrote(counts[i])];
    QuantityNext(counts, i);
    OneMore(plan, before + Writes(counts[..i]), Wrote(counts[i]));
    assert received + [] == received;
  }

  lemma {:induction false} NoWrites(before: seq<Event>, counts: seq<nat>)
    ensures before + Writes(counts[..0]) == before && Quantity(counts[..0]) == 0
  {
  }

  lemma {:induction false} WritesTo(plan: Plan, before: seq<Event>, n: nat, returned: bool, taken: nat, received: Bytes,
                                    counts: seq<nat>, i: nat)
    requires Spoken(plan) && i <= |counts| && taken + Quantity(counts) == |Commanded(plan, n)|
    requires forall k: nat :: k < |counts| ==> counts[k] > 0
    requires At(plan, before, 2, n, returned, taken, received)
    ensures At(plan, before + Writes(counts[..i]), 2, n, returned, taken + Quantity(counts[..i]), received)
  {
    if i == 0 {
      NoWrites(before, counts);
    } else {
      var k: nat := i - 1;
      assert k + 1 == i;
      WritesTo(plan, before, n, returned, taken, received, counts, k);
      WriteOn(plan, before, n, returned, taken, received, counts, k);
    }
  }

  /** The whole command is taken. */
  lemma {:induction false} CommandTaken(plan: Plan, before: seq<Event>, n: nat, returned: bool, taken: nat,
                                        received: Bytes, counts: seq<nat>)
    requires Spoken(plan) && taken + Quantity(counts) == |Commanded(plan, n)|
    requires forall k: nat :: k < |counts| ==> counts[k] > 0
    requires At(plan, before, 2, n, returned, taken, received)
    ensures At(plan, before + Writes(counts), 2, n, returned, |Commanded(plan, n)|, received)
  {
    WritesTo(plan, before, n, returned, taken, received, counts, |counts|);
    assert counts[..|counts|] == counts;
  }

  lemma {:induction false} PrefixKept(front: Bytes, chunks: seq<Bytes>, i: nat)
    requires i < |chunks| && chunks[i] != []
    ensures StartsWith(front + Concat(chunks), front + Concat(chunks[..i + 1]))
    ensures front + Concat(chunks[..i]) + chunks[i] == front + Concat(chunks[..i + 1])
    ensures |front + Concat(chunks[..i])| < |front + Concat(chunks)|
  {
    ConcatNext(chunks, i);
    PartsBegin(chunks, i + 1);
    StartsAfter(front, Concat(chunks), Concat(chunks[..i + 1]));
    Associate(front, Concat(chunks[..i]), chunks[i]);
  }

  lemma {:induction false} DeliverOn(plan: Plan, before: seq<Event>, n: nat, returned: bool, front: Bytes,
                                     chunks: seq<Bytes>, i: nat)
    requires Spoken(plan) && i < |chunks| && chunks[i] != [] && Awaited(plan, n) == front + Concat(chunks)
    requires At(plan, before + Deliveries(chunks[..i]), 2, n, returned, |Commanded(plan, n)|,
                front + Concat(chunks[..i]))
    ensures At(plan, before + Deliveries(chunks[..i + 1]), 2, n, returned, |Commanded(plan, n)|,
               front + Concat(chunks[..i + 1]))
  {
    assert before + Deliveries(chunks[..i + 1]) == before + Deliveries(chunks[..i]) + [Delivered(chunks[i])];
    PrefixKept(front, chunks, i);
    OneMore(plan, before + Deliveries(chunks[..i]), Delivered(chunks[i]));
  }

  lemma {:induction false} NoDeliveries(before: seq<Event>, chunks: seq<Bytes>, front: Bytes)
    ensures before + Deliveries(chunks[..0]) == before && front + Concat(chunks[..0]) == front
  {
  }

  lemma {:induction false} DeliversTo(plan: Plan, before: seq<Event>, n: nat, returned: bool, front: Bytes,
                                      chunks: seq<Bytes>, i: nat)
    requires Spoken(plan) && i <= |chunks| && Awaited(plan, n) == front + Concat(chunks)
    requires forall k: nat :: k < |chunks| ==> chunks[k] != []
    requires At(plan, before, 2, n, returned, |Commanded(plan, n)|, front)
    ensures At(plan, before + Deliveries(chunks[..i]), 2, n, returned, |Commanded(plan, n)|,
               front + Concat(chunks[..i]))
  {
    if i == 0 {
      NoDeliveries(before, chunks, front);
    } else {
      var k: nat := i - 1;
      assert k + 1 == i;
      DeliversTo(plan, before, n, returned, front, chunks, k);
      DeliverOn(plan, before, n, returned, front, chunks, k);
    }
  }

  /** The whole reply is read. */
  lemma {:induction false} ReplyRead(plan: Plan, before: seq<Event>, n: nat, returned: bool, front: Bytes,
                                     chunks: seq<Bytes>)
    requires Spoken(plan) && Awaited(plan, n) == front + Concat(chunks)
    requires forall k: nat :: k < |chunks| ==> chunks[k] != []
    requires At(plan, before, 2, n, returned, |Commanded(plan, n)|, front)
    ensures At(plan, before + Deliveries(chunks), 2, n, returned, |Commanded(plan, n)|, Awaited(plan, n))
  {
    DeliversTo(plan, before, n, returned, front, chunks, |chunks|);
    assert chunks[..|chunks|] == chunks;
  }

  lemma {:induction false} Launched(plan: Plan)
    ensures At(plan, [], 0, 0, false, 0, [])
  {
  }

  lemma {:induction false} BootRuns(plan: Plan, events: seq<Event>, boots: nat)
    requires Spoken(plan) && At(plan, events, boots, 0, false, 0, []) && boots < 2
    ensures At(plan, events + [Bootstrapped], boots + 1, 0, false, 0, [])
  {
    OneMore(plan, events, Bootstrapped);
  }

  lemma {:induction false} BootsRun(plan: Plan)
    requires Spoken(plan)
    ensures At(plan, [Bootstrapped] + [Bootstrapped], 2, 0, false, 0, [])
  {
    Launched(plan);
    BootRuns(plan, [], 0);
    assert [] + [Bootstrapped] == [Bootstrapped];
    BootRuns(plan, [Bootstrapped], 1);
  }

  lemma {:induction false} OpeningRuns(plan: Plan, cut: Cut)
    requires Spoken(plan) && Cuts(plan, cut)
    ensures At(plan, Opening(cut), 2, 0, false, 0, Awaited(plan, 0))
  {
    BootsRun(plan);
    var booted: seq<Event> := [Bootstrapped] + [Bootstrapped];
    assert Opening(cut) == booted + Deliveries(cut.startup);
    StartupRead(plan, booted, cut.startup);
  }

  lemma {:induction false} StartupRead(plan: Plan, booted: seq<Event>, chunks: seq<Bytes>)
    requires Spoken(plan) && Pieces(chunks, plan.startupReply) && At(plan, booted, 2, 0, false, 0, [])
    ensures At(plan, booted + Deliveries(chunks), 2, 0, false, 0, Awaited(plan, 0))
  {
    assert [] + plan.startupReply == plan.startupReply;
    ReplyRead(plan, booted, 0, false, [], chunks);
  }

  lemma {:induction false} ActivationRuns(plan: Plan, cut: Cut)
    requires Spoken(plan) && Cuts(plan, cut)
    ensures At(plan, Activation(cut), 2, 1, true, |Commanded(plan, 1)|, Awaited(plan, 1))
  {
    var entered := Opening(cut) + [Activate];
    OpeningRuns(plan, cut);
    OneMore(plan, Opening(cut), Activate);
    assert Awaited(plan, 0) + [] == Awaited(plan, 0) && Awaited(plan, 1) + [] == Awaited(plan, 1);
    CommandTaken(plan, entered, 1, false, 0, Awaited(plan, 0), cut.activation);
    ReplyRead(plan, entered + Writes(cut.activation), 1, false, Awaited(plan, 0), cut.acknowledgement);
    OneMore(plan, entered + Writes(cut.activation) + Deliveries(cut.acknowledgement), Activated);
  }

  /** Every plan of nonempty commands and replies has a complete run for every cutting of its bytes. */
  lemma {:induction false} EveryCuttingCompletes(plan: Plan, cut: Cut)
    requires Spoken(plan) && Cuts(plan, cut)
    ensures Completes(plan, Whole(cut))
  {
    var entered := Activation(cut) + [Close];
    ActivationRuns(plan, cut);
    OneMore(plan, Activation(cut), Close);
    assert Awaited(plan, 1) + [] == Awaited(plan, 1);
    CommandTaken(plan, entered, 2, true, |Commanded(plan, 1)|, Awaited(plan, 1), cut.closing);
    ReplyRead(plan, entered + Writes(cut.closing), 2, true, Awaited(plan, 1), cut.closed);
    CompletesExactly(plan, Whole(cut));
  }
}
