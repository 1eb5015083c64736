/** What holds of the lane after every sequence of calls, refused calls included. */
module LaneLaws {
  import opened Wrappers
  import opened LaneProtocol

  /** The k-th claim of the script: OPEN PREPARE COMMIT SUBMIT BIND, then EXECUTE for every call of the plan. */
  ghost function ScriptKind(k: nat): Kind {
    if k == 0 then Open else if k == 1 then Prepare else if k == 2 then Commit
    else if k == 3 then Submit else if k == 4 then Bind else Execute
  }

  const SETUP: nat := 5

  /** The k-th call of the lane: all warmup calls first, each cohort numbered from zero. */
  ghost function CallAt(plan: Plan, k: nat): Selection {
    if k < plan.warmupCalls then Selection(Warmup, k) else Selection(Measurement, k - plan.warmupCalls)
  }

  ghost function ScriptTicket(plan: Plan, k: nat): Ticket {
    Ticket(k + 1, ScriptKind(k), if k < SETUP then None else Some(CallAt(plan, k - SETUP)))
  }

  /** The tickets granted so far are the beginning of the script. */
  ghost predicate FollowsScript(plan: Plan, granted: seq<Ticket>) {
    |granted| <= SETUP + plan.Total() && forall k :: 0 <= k < |granted| ==> granted[k] == ScriptTicket(plan, k)
  }

  /** The phase that n successes of the script lead to. */
  ghost function Reached(n: nat): Phase {
    if n == 0 then New else To(ScriptKind(n - 1))
  }

  /** The phase says where the lane is. */
  ghost predicate PhaseSound(s: State, granted: nat) {
    && (s.held <==> s.phase == Held)
    && (s.closeTicket.None? <==> s.closeOutcome == NotRequested)
    && (!s.held ==> s.closeOutcome != CloseUnknown)
    && (!s.held && s.closeTicket.Some? ==> s.phase == if s.closeOutcome == Returned
       && s.active.None? then Closed else Closing)
    && (!s.held && s.closeTicket.None? ==> s.phase == if s.active.Some? then During(s.active.value.kind)
       else Reached(granted))
  }

  /** The counters say which tickets were granted. */
  ghost predicate CountersSound(plan: Plan, s: State, granted: nat) {
    var reserved := if granted < SETUP then 0 else granted - SETUP;
    && s.warmup == (if reserved < plan.warmupCalls then reserved else plan.warmupCalls)
    && s.measurement == reserved - s.warmup
    && s.sequence == granted + (if s.closeTicket.Some? then 1 else 0)
    && (s.closeTicket.Some? ==> s.closeTicket.value == granted + 1)
    && (s.active.Some? ==> granted > 0 && s.active.value == ScriptTicket(plan, granted - 1))
  }

  /** Executions whose completion was reported unknown. */
  ghost function Lost(plan: Plan, calls: seq<Call>): nat {
    if |calls| == 0 then 0 else
      var init, last := calls[..|calls| - 1], calls[|calls| - 1];
      var s := Run(plan, init);
      Lost(plan, init) + (if last.Complete? && CompleteAllowed(s, last.ticket, last.outcome)
        && last.outcome.value == Unknown
                             && s.active.value.kind == Execute then 1 else 0)
  }

  ghost function ActiveExecutions(s: State): nat {
    if s.active.Some? && s.active.value.kind == Execute then 1 else 0
  }

  /** Every reserved call is completed, active or lost; a loss holds the lane, so there is at most one. */
  ghost predicate CallsConserved(s: State, lost: nat) {
    && s.warmup + s.measurement == s.completed + ActiveExecutions(s) + lost
    && lost <= 1 && (lost == 1 ==> s.held && s.active.None?)
  }

  ghost predicate Grants(plan: Plan, s: State, call: Call) {
    call.Claim? && ClaimAllowed(plan, s, call.kind, call.argument)
  }

  /** An allowed claim is the next ticket of the script. */
  lemma {:induction false} GrantStep(plan: Plan, s: State, granted: nat, call: Call)
    requires PhaseSound(s, granted) && CountersSound(plan, s, granted) && Grants(plan, s, call)
    ensures call.kind.value == ScriptKind(granted) && granted < SETUP + plan.Total()
    ensures After(plan, s, call).active == Some(ScriptTicket(plan, granted))
  {
  }

  lemma {:induction false} PhaseStep(plan: Plan, s: State, granted: nat, call: Call)
    requires PhaseSound(s, granted) && CountersSound(plan, s, granted)
    ensures PhaseSound(After(plan, s, call), if Grants(plan, s, call) then granted + 1 else granted)
  {
    if Grants(plan, s, call) {
      GrantStep(plan, s, granted, call);
    }
  }

  lemma {:induction false} GrantCounts(plan: Plan, s: State, granted: nat, call: Call)
    requires PhaseSound(s, granted) && CountersSound(plan, s, granted) && Grants(plan, s, call)
    ensures CountersSound(plan, After(plan, s, call), granted + 1)
  {
    GrantStep(plan, s, granted, call);
  }

  lemma {:induction false} CounterStep(plan: Plan, s: State, granted: nat, call: Call)
    requires PhaseSound(s, granted) && CountersSound(plan, s, granted)
    ensures CountersSound(plan, After(plan, s, call), if Grants(plan, s, call) then granted + 1 else granted)
  {
    if Grants(plan, s, call) {
      GrantCounts(plan, s, granted, call);
    }
  }

  lemma {:induction false} LossStep(plan: Plan, s: State, call: Call, lost: nat)
    requires CallsConserved(s, lost)
    ensures var loses := call.Complete? && CompleteAllowed(s, call.ticket, call.outcome)
            && call.outcome.value == Unknown && s.active.value.kind == Execute;
            CallsConserved(After(plan, s, call), if loses then lost + 1 else lost)
  {
  }

  lemma {:induction false} LaneSound(plan: Plan, calls: seq<Call>)
    ensures PhaseSound(Run(plan, calls), |Granted(plan, calls)|)
            && CountersSound(plan, Run(plan, calls), |Granted(plan, calls)|)
  {
    if |calls| > 0 {
      var init, last := calls[..|calls| - 1], calls[|calls| - 1];
      LaneSound(plan, init);
      PhaseStep(plan, Run(plan, init), |Granted(plan, init)|, last);
      CounterStep(plan, Run(plan, init), |Granted(plan, init)|, last);
    }
  }

  lemma {:induction false} LaneFollows(plan: Plan, calls: seq<Call>)
    ensures FollowsScript(plan, Granted(plan, calls))
  {
    if |calls| > 0 {
      var init, last := calls[..|calls| - 1], calls[|calls| - 1];
      LaneFollows(plan, init);
      LaneSound(plan, init);
      if Grants(plan, Run(plan, init), last) {
        GrantStep(plan, Run(plan, init), |Granted(plan, init)|, last);
      }
    }
  }

  lemma {:induction false} LaneConserves(plan: Plan, calls: seq<Call>)
    ensures CallsConserved(Run(plan, calls), Lost(plan, calls))
  {
    if |calls| > 0 {
      var init, last := calls[..|calls| - 1], calls[|calls| - 1];
      LaneConserves(plan, init);
      LossStep(plan, Run(plan, init), last, Lost(plan, init));
    }
  }

  /** Over every sequence of calls: the granted tickets are a prefix of the script, the phase and the counters
      say which, and every reserved call is completed, active or the one that was lost. */
  lemma {:induction false} LaneInvariant(plan: Plan, calls: seq<Call>)
    ensures var s, granted := Run(plan, calls), Granted(plan, calls);
            && FollowsScript(plan, granted) && PhaseSound(s, |granted|) && CountersSound(plan, s, |granted|)
            && CallsConserved(s, Lost(plan, calls))
  {
    LaneFollows(plan, calls);
    LaneSound(plan, calls);
    LaneConserves(plan, calls);
  }

  // ---- what follows -------------------------------------------------------------------------------------

  /** Nothing leaves HELD, and a held lane grants nothing more. */
  lemma {:induction false} HeldAbsorbs(plan: Plan, calls: seq<Call>, more: seq<Call>)
    requires Run(plan, calls).phase == Held
    ensures Run(plan, calls + more).phase == Held && Granted(plan, calls + more) == Granted(plan, calls)
    decreases |more|
  {
    if |more| == 0 {
      assert calls + more == calls;
    } else {
      var init := more[..|more| - 1];
      HeldAbsorbs(plan, calls, init);
      LaneSound(plan, calls + init);
      assert calls + more == calls + init + [more[|more| - 1]];
      assert (calls + init + [more[|more| - 1]])[..|calls + init|] == calls + init;
    }
  }

  /** CLOSED means exactly: not held, the close returned, nothing active. */
  lemma {:induction false} ClosedExactly(plan: Plan, calls: seq<Call>)
    ensures var s := Run(plan, calls);
            s.phase == Closed <==> !s.held && s.closeOutcome == Returned && s.active.None?
  {
    LaneInvariant(plan, calls);
    var n := |Granted(plan, calls)|;
    assert Reached(n) != Closed;
  }

  /** From CLOSED a call leads only to CLOSED or to HELD, and it grants nothing. */
  lemma {:induction false} FromClosed(plan: Plan, calls: seq<Call>, call: Call)
    requires Run(plan, calls).phase == Closed
    ensures Run(plan, calls + [call]).phase == Closed || Run(plan, calls + [call]).phase == Held
    ensures Granted(plan, calls + [call]) == Granted(plan, calls)
    ensures Run(plan, calls + [call]).phase == Closed ==> Run(plan, calls + [call]) == Run(plan, calls)
  {
    LaneInvariant(plan, calls);
    ClosedExactly(plan, calls);
    RunNext(plan, calls, call);
    assert (calls + [call])[..|calls|] == calls;
  }

  /** The call is refused with an error. */
  ghost predicate Refuses(plan: Plan, s: State, call: Call) {
    match call
    case Claim(kind, argument) => !ClaimAllowed(plan, s, kind, argument)
    case Complete(ticket, outcome) => !CompleteAllowed(s, ticket, outcome)
    case RequestClose(bare) => !bare
    case CompleteClose(closing, close) => !CloseAllowed(s, closing, close)
    case MarkUnknown(alone) => !alone
  }

  /** A refused claim or a badly made request changes nothing; a refused completion holds the lane. */
  lemma {:induction false} RefusalEffect(plan: Plan, calls: seq<Call>, call: Call)
    requires Refuses(plan, Run(plan, calls), call)
    ensures var s, after := Run(plan, calls), Run(plan, calls + [call]);
            if call.Complete? || call.CompleteClose? then after == s.(held := true, phase := Held) else after == s
  {
    RunNext(plan, calls, call);
  }

  /** An issued ticket completes at most once: presented again, it holds the lane. */
  lemma {:induction false} TicketCompletesOnce(plan: Plan, calls: seq<Call>, ticket: Presented,
                                               outcome: Option<Outcome>, again: Option<Outcome>)
    requires CompleteAllowed(Run(plan, calls), ticket, outcome)
    ensures var once := Run(plan, calls + [Complete(ticket, outcome)]);
            !CompleteAllowed(once, ticket, again)
            && Run(plan, calls + [Complete(ticket, outcome)] + [Complete(ticket, again)]).held
  {
    RunNext(plan, calls, Complete(ticket, outcome));
    RunNext(plan, calls + [Complete(ticket, outcome)], Complete(ticket, again));
  }

  // ---- the script can be completed -------------------------------------------------------------------------

  ghost function ScriptClaim(plan: Plan, k: nat): Call {
    Claim(Some(ScriptKind(k)), if k < SETUP then Absent else Chosen(CallAt(plan, k - SETUP)))
  }

  /** Claim and complete the first n tickets of the script. */
  ghost function Script(plan: Plan, n: nat): seq<Call> {
    if n == 0 then [] else Script(plan, n - 1) + [ScriptClaim(plan, n - 1)] + [Complete(Issued(n), Some(Succeeded))]
  }

  /** The lane after n successes of the script. */
  ghost function AtScript(plan: Plan, n: nat): State {
    var calls := if n < SETUP then 0 else n - SETUP;
    var warm := if calls < plan.warmupCalls then calls else plan.warmupCalls;
    State(Reached(n), None, n, false, None, NotRequested, warm, calls - warm, calls)
  }

  lemma {:induction false} ScriptStep(plan: Plan, n: nat)
    requires 0 < n <= SETUP + plan.Total()
    ensures After(plan, After(plan, AtScript(plan, n - 1), ScriptClaim(plan, n - 1)),
            Complete(Issued(n), Some(Succeeded))) == AtScript(plan, n)
  {
    var before := AtScript(plan, n - 1);
    assert ClaimAllowed(plan, before, Some(ScriptKind(n - 1)), ScriptClaim(plan, n - 1).argument);
  }

  lemma {:induction false} ScriptRuns(plan: Plan, n: nat)
    requires n <= SETUP + plan.Total()
    ensures Run(plan, Script(plan, n)) == AtScript(plan, n)
  {
    if n > 0 {
      ScriptRuns(plan, n - 1);
      var calls := Script(plan, n - 1);
      RunNext(plan, calls, ScriptClaim(plan, n - 1));
      RunNext(plan, calls + [ScriptClaim(plan, n - 1)], Complete(Issued(n), Some(Succeeded)));
      ScriptStep(plan, n);
    }
  }

  /** The whole script can be run and the lane closed after it, with every call of the plan completed. */
  lemma {:induction false} ScriptCloses(plan: Plan)
    ensures var n := SETUP + plan.Total();
            var s := Run(plan, Script(plan, n) + [RequestClose(true)]
              + [CompleteClose(Issued(n + 1), Some(ReportReturned))]);
            s.phase == Closed && s.completed == plan.Total() && s.warmup == plan.warmupCalls
              && s.measurement == plan.measurementCalls
  {
    var n := SETUP + plan.Total();
    ScriptRuns(plan, n);
    RunNext(plan, Script(plan, n), RequestClose(true));
    RunNext(plan, Script(plan, n) + [RequestClose(true)], CompleteClose(Issued(n + 1), Some(ReportReturned)));
  }
}
