/** The payer lane's ticket protocol: one claim at a time through a fixed script of kinds, completions by
    the ticket itself, a close that may overlap an active call, and HELD, which nothing leaves. */
module LaneProtocol {
  import opened Wrappers

  datatype Kind = Open | Prepare | Commit | Submit | Bind | Execute

  datatype Cohort = Warmup | Measurement

  datatype Plan = Plan(warmupCalls: nat, measurementCalls: nat) {
    function Total(): nat { warmupCalls + measurementCalls }
  }

  datatype Phase =
    | New | Opening | FundingReady | Preparing | Prepared | Committing | Committed | Submitting | Bound
    | BindingService | ServiceReady | CallActive | Closing | Closed | Held

  datatype Selection = Selection(cohort: Cohort, ordinal: int)

  datatype Ticket = Ticket(sequence: nat, kind: Kind, selection: Option<Selection>)

  /** What a caller presents as a ticket: one that was issued, or any other object. */
  datatype Presented = Issued(sequence: nat) | Foreign

  datatype Outcome = Succeeded | Unknown

  /** How the owner of the close says it ended. */
  datatype CloseReport = ReportReturned | ReportUnknown

  datatype CloseOutcome = NotRequested | Pending | Returned | CloseUnknown

  /** The selection argument of a claim. */
  datatype Argument = Absent | Malformed | Chosen(selection: Selection)

  /** A call on the protocol object. `None` stands for an argument list or value that no branch accepts. */
  datatype Call =
    | Claim(kind: Option<Kind>, argument: Argument)
    | Complete(ticket: Presented, outcome: Option<Outcome>)
    | RequestClose(bare: bool)
    | CompleteClose(closing: Presented, close: Option<CloseReport>)
    | MarkUnknown(alone: bool)

  datatype State = State(
    phase: Phase, active: Option<Ticket>, sequence: nat, held: bool, closeTicket: Option<nat>,
      closeOutcome: CloseOutcome,
    warmup: nat, measurement: nat, completed: nat)

  const START := State(New, None, 0, false, None, NotRequested, 0, 0, 0)

  /** The phase a kind is claimed in, the one it is active in, and the one its success leads to. */
  function From(k: Kind): Phase {
    match k case Open => New case Prepare => FundingReady case Commit => Prepared case Submit => Committed
            case Bind => Phase.Bound case Execute => ServiceReady
  }

  function During(k: Kind): Phase {
    match k case Open => Opening case Prepare => Preparing case Commit => Committing case Submit => Submitting
            case Bind => BindingService case Execute => CallActive
  }

  function To(k: Kind): Phase {
    match k case Open => FundingReady case Prepare => Prepared case Commit => Committed case Submit => Phase.Bound
            case Bind => ServiceReady case Execute => ServiceReady
  }

  /** The next call of the lane, warmup before measurement. */
  function NextSelection(plan: Plan, s: State): Selection {
    if s.warmup < plan.warmupCalls then Selection(Warmup, s.warmup) else Selection(Measurement, s.measurement)
  }

  predicate CallsLeft(plan: Plan, s: State) {
    s.warmup < plan.warmupCalls || s.measurement < plan.measurementCalls
  }

  predicate ClaimAllowed(plan: Plan, s: State, kind: Option<Kind>, argument: Argument) {
    && kind.Some? && !s.held && s.active.None? && s.closeTicket.None? && s.phase == From(kind.value)
    && (if kind.value == Execute then argument == Chosen(NextSelection(plan, s))
       && CallsLeft(plan, s) else argument.Absent?)
  }

  function Hold(s: State): State {
    s.(held := true, phase := Held)
  }

  function Settle(s: State): State {
    if s.held then s.(phase := Held)
    else if s.closeTicket.Some? then s.(phase := if s.closeOutcome == Returned
      && s.active.None? then Closed else Closing)
    else s
  }

  function Grant(plan: Plan, s: State, kind: Kind): State {
    var chosen := if kind == Execute then Some(NextSelection(plan, s)) else None;
    State(During(kind), Some(Ticket(s.sequence + 1, kind, chosen)), s.sequence + 1, s.held, s.closeTicket,
      s.closeOutcome,
          if kind == Execute && s.warmup < plan.warmupCalls then s.warmup + 1 else s.warmup,
          if kind == Execute && s.warmup >= plan.warmupCalls then s.measurement + 1 else s.measurement,
          s.completed)
  }

  predicate CompleteAllowed(s: State, ticket: Presented, outcome: Option<Outcome>) {
    s.active.Some? && ticket == Issued(s.active.value.sequence) && outcome.Some?
  }

  function Finish(s: State, outcome: Outcome): State
    requires s.active.Some?
  {
    var kind, free := s.active.value.kind, s.(active := None);
    if outcome == Unknown then Settle(Hold(free))
    else
      var counted := if kind == Execute then free.(completed := free.completed + 1) else free;
      Settle(if s.held then counted else counted.(phase := To(kind)))
  }

  predicate CloseAllowed(s: State, closing: Presented, close: Option<CloseReport>) {
    s.closeTicket.Some? && closing == Issued(s.closeTicket.value) && s.closeOutcome == Pending && close.Some?
  }

  /** The state after a call, granted or refused. */
  function After(plan: Plan, s: State, call: Call): State {
    match call
    case Claim(kind, argument) => if ClaimAllowed(plan, s, kind, argument) then Grant(plan, s, kind.value) else s
    case Complete(ticket, outcome) => if CompleteAllowed(s, ticket, outcome) then Finish(s, outcome.value) else Hold(s)
    case RequestClose(bare) =>
      if !bare || s.closeTicket.Some? then s
      else Settle(s.(closeTicket := Some(s.sequence + 1), sequence := s.sequence + 1, closeOutcome := Pending))
    case CompleteClose(closing, close) =>
      if !CloseAllowed(s, closing, close) then Hold(s)
      else if close.value == ReportUnknown then Settle(Hold(s.(closeOutcome := CloseUnknown)))
      else Settle(s.(closeOutcome := Returned))
    case MarkUnknown(alone) => if alone then Hold(s) else s
  }

  /** The state after a sequence of calls. */
  function Run(plan: Plan, calls: seq<Call>): State {
    if |calls| == 0 then START else After(plan, Run(plan, calls[..|calls| - 1]), calls[|calls| - 1])
  }

  lemma {:induction false} RunNext(plan: Plan, calls: seq<Call>, call: Call)
    ensures Run(plan, calls + [call]) == After(plan, Run(plan, calls), call)
  {
    assert (calls + [call])[..|calls|] == calls;
  }

  /** The tickets granted by the calls, in order. */
  function Granted(plan: Plan, calls: seq<Call>): seq<Ticket> {
    if |calls| == 0 then [] else
      var init, last := calls[..|calls| - 1], calls[|calls| - 1];
      var s := Run(plan, init);
      if last.Claim? && ClaimAllowed(plan, s, last.kind, last.argument)
      then Granted(plan, init) + [Grant(plan, s, last.kind.value).active.value] else Granted(plan, init)
  }

  /** The protocol object: its fields change in place, one call at a time. */
  class Lane {
    const plan: Plan
    ghost var calls: seq<Call>
    var phase: Phase
    var active: Option<Ticket>
    var sequence: nat
    var held: bool
    var closeTicket: Option<nat>
    var closeOutcome: CloseOutcome
    var warmupReserved: nat
    var measurementReserved: nat
    var completedCalls: nat

    function Snapshot(): State
      reads this
    {
      State(phase, active, sequence, held, closeTicket, closeOutcome, warmupReserved, measurementReserved,
        completedCalls)
    }

    ghost predicate Valid()
      reads this
    {
      Snapshot() == Run(plan, calls)
    }

    constructor (plan: Plan)
      ensures Valid() && calls == [] && this.plan == plan
    {
      this.plan, calls := plan, [];
      phase, active, sequence, held := New, None, 0, false;
      closeTicket, closeOutcome := None, NotRequested;
      warmupReserved, measurementReserved, completedCalls := 0, 0, 0;
    }

    method DoHold()
      modifies this`held, this`phase
      ensures Snapshot() == Hold(old(Snapshot()))
    {
      held, phase := true, Held;
    }

    method SettlePhase()
      modifies this`phase
      ensures Snapshot() == Settle(old(Snapshot()))
    {
      if held {
        phase := Held;
      } else if closeTicket.Some? {
        phase := if closeOutcome == Returned && active.None? then Closed else Closing;
      }
    }

    /** Claim the next kind of the script; a refused claim changes nothing. */
    method Claim(kind: Option<Kind>, argument: Argument) returns (ticket: Option<Ticket>)
      requires Valid()
      modifies this
      ensures Valid() && calls == old(calls) + [Call.Claim(kind, argument)]
      ensures ticket.Some? <==> ClaimAllowed(plan, old(Snapshot()), kind, argument)
      ensures ticket.Some? ==> ticket == active
      ensures ticket.None? ==> Snapshot() == old(Snapshot())
    {
      RunNext(plan, calls, Call.Claim(kind, argument));
      calls := calls + [Call.Claim(kind, argument)];
      if !(kind.Some? && !held && active.None? && closeTicket.None? && phase == From(kind.value)) {
        return None;
      }
      var row: Option<Selection> := None;
      if kind.value == Execute {
        var warming := warmupReserved < plan.warmupCalls;
        var reserved := if warming then warmupReserved else measurementReserved;
        var limit := if warming then plan.warmupCalls else plan.measurementCalls;
        if !(argument == Chosen(Selection(if warming then Warmup else Measurement, reserved)) && reserved < limit) {
          return None;
        }
        row := Some(argument.selection);
      } else if !argument.Absent? {
        return None;
      }
      sequence := sequence + 1;
      ticket := Some(Ticket(sequence, kind.value, row));
      if row.Some? {
        if row.value.cohort == Warmup {
          warmupReserved := warmupReserved + 1;
        } else {
          measurementReserved := measurementReserved + 1;
        }
      }
      active, phase := ticket, During(kind.value);
    }

    /** Complete the active ticket; anything else holds the lane. */
    method Complete(ticket: Presented, outcome: Option<Outcome>) returns (ok: bool)
      requires Valid()
      modifies this
      ensures Valid() && calls == old(calls) + [Call.Complete(ticket, outcome)]
      ensures ok == CompleteAllowed(old(Snapshot()), ticket, outcome)
    {
      RunNext(plan, calls, Call.Complete(ticket, outcome));
      calls := calls + [Call.Complete(ticket, outcome)];
      if active.None? || ticket != Issued(active.value.sequence) || outcome.None? {
        DoHold();
        return false;
      }
      var kind := active.value.kind;
      active := None;
      if outcome.value == Unknown {
        DoHold();
      } else {
        if kind == Execute {
          completedCalls := completedCalls + 1;
        }
        if !held {
          phase := To(kind);
        }
      }
      SettlePhase();
      return true;
    }

    /** Ask for the close; a second request gets the same ticket. */
    method RequestClose(bare: bool) returns (closing: Option<nat>)
      requires Valid()
      modifies this
      ensures Valid() && calls == old(calls) + [Call.RequestClose(bare)]
      ensures if bare then closing.Some? && closing == closeTicket else closing.None?
    {
      RunNext(plan, calls, Call.RequestClose(bare));
      calls := calls + [Call.RequestClose(bare)];
      if !bare {
        return None;
      }
      if closeTicket.Some? {
        return closeTicket;
      }
      sequence := sequence + 1;
      closeTicket, closeOutcome := Some(sequence), Pending;
      SettlePhase();
      return closeTicket;
    }

    /** Report how the close ended; anything but the one pending close holds the lane. */
    method CompleteClose(closing: Presented, close: Option<CloseReport>) returns (ok: bool)
      requires Valid()
      modifies this
      ensures Valid() && calls == old(calls) + [Call.CompleteClose(closing, close)]
      ensures ok == CloseAllowed(old(Snapshot()), closing, close)
    {
      RunNext(plan, calls, Call.CompleteClose(closing, close));
      calls := calls + [Call.CompleteClose(closing, close)];
      if closeTicket.None? || closing != Issued(closeTicket.value) || closeOutcome != Pending || close.None? {
        DoHold();
        return false;
      }
      closeOutcome := if close.value == ReportReturned then Returned else CloseUnknown;
      if close.value == ReportUnknown {
        DoHold();
      }
      SettlePhase();
      return true;
    }

    method MarkUnknown(alone: bool)
      requires Valid()
      modifies this
      ensures Valid() && calls == old(calls) + [Call.MarkUnknown(alone)]
    {
      RunNext(plan, calls, Call.MarkUnknown(alone));
      calls := calls + [Call.MarkUnknown(alone)];
      if alone {
        DoHold();
      }
    }
  }
}
