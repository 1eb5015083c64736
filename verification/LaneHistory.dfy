/** The lane read by the positions of its calls: which calls are taken, what holds the lane, and the whole state that a
    sequence of calls leads to. */
module LaneHistory {
  import opened Wrappers
  import opened Positions
  import opened LaneProtocol
  import opened LaneLaws

  // ---- what became of each call -------------------------------------------------------------

  ghost function Before(plan: Plan, calls: seq<Call>, k: nat): State
    requires k <= |calls|
  {
    Run(plan, calls[..k])
  }

  ghost predicate Granting(plan: Plan, calls: seq<Call>, k: nat) {
    k < |calls| && Grants(plan, Before(plan, calls, k), calls[k])
  }

  /** The call completes the active ticket. */
  ghost predicate Completing(plan: Plan, calls: seq<Call>, k: nat) {
    && k < |calls| && calls[k].Complete?
    && CompleteAllowed(Before(plan, calls, k), calls[k].ticket, calls[k].outcome)
  }

  ghost predicate Succeeding(plan: Plan, calls: seq<Call>, k: nat) {
    Completing(plan, calls, k) && calls[k].outcome == Some(Succeeded)
  }

  ghost predicate Asking(calls: seq<Call>, k: nat) {
    k < |calls| && calls[k] == RequestClose(true)
  }

  /** The call completes the pending close with this report. */
  ghost predicate Reporting(plan: Plan, calls: seq<Call>, k: nat, report: CloseReport) {
    && k < |calls| && calls[k].CompleteClose? && calls[k].close == Some(report)
    && CloseAllowed(Before(plan, calls, k), calls[k].closing, calls[k].close)
  }

  /** The call is a completion that is refused or reports UNKNOWN, of a ticket or of the close, or a bare mark. */
  ghost predicate Breaking(plan: Plan, calls: seq<Call>, k: nat) {
    k < |calls|
    && match calls[k]
       case Complete(_, _) => !Succeeding(plan, calls, k)
       case CompleteClose(_, _) => !Reporting(plan, calls, k, ReportReturned)
       case MarkUnknown(alone) => alone
       case _ => false
  }

  ghost function Grantings(plan: Plan, calls: seq<Call>): nat -> bool {
    (k: nat) => Granting(plan, calls, k)
  }

  ghost function Completings(plan: Plan, calls: seq<Call>): nat -> bool {
    (k: nat) => Completing(plan, calls, k)
  }

  ghost function Succeedings(plan: Plan, calls: seq<Call>): nat -> bool {
    (k: nat) => Succeeding(plan, calls, k)
  }

  ghost predicate Asked(calls: seq<Call>, n: nat) {
    exists k: nat :: k < n && Asking(calls, k)
  }

  ghost predicate Reported(plan: Plan, calls: seq<Call>, n: nat, report: CloseReport) {
    exists k: nat :: k < n && Reporting(plan, calls, k, report)
  }

  ghost predicate Broken(plan: Plan, calls: seq<Call>, n: nat) {
    exists k: nat :: k < n && Breaking(plan, calls, k)
  }

  /** How many tickets were granted, completed and completed with success, and what was said of the close. */
  datatype History = History(granted: nat, completed: nat, succeeded: nat, asked: bool, returned: bool, lost: bool,
                             broken: bool)

  ghost function HistoryAt(plan: Plan, calls: seq<Call>, n: nat): History {
    History(Number(n, Grantings(plan, calls)), Number(n, Completings(plan, calls)),
            Number(n, Succeedings(plan, calls)), Asked(calls, n), Reported(plan, calls, n, ReportReturned),
            Reported(plan, calls, n, ReportUnknown), Broken(plan, calls, n))
  }

  // ---- the state that a history determines -------------------------------------------------------

  ghost function PhaseOf(h: History): Phase {
    if h.broken then Held
    else if h.asked then if h.returned && h.granted == h.completed then Closed else Closing
    else if h.granted > h.completed then During(ScriptKind(h.completed))
    else Reached(h.succeeded)
  }

  ghost function Beyond(n: nat, bound: nat): nat {
    if n < bound then 0 else n - bound
  }

  ghost function StateOf(plan: Plan, h: History): State {
    var calls := Beyond(h.granted, SETUP);
    var warmup := if calls < plan.warmupCalls then calls else plan.warmupCalls;
    State(PhaseOf(h), if h.granted > h.completed then Some(ScriptTicket(plan, h.completed)) else None,
          h.granted + (if h.asked then 1 else 0), h.broken, if h.asked then Some(h.granted + 1) else None,
          if h.returned then Returned else if h.lost then CloseUnknown else if h.asked then Pending else NotRequested,
          warmup, calls - warmup, Beyond(h.succeeded, SETUP))
  }

  /** One ticket at a time is open, every completed one but a lost last one succeeded, and a loss breaks the run. */
  ghost predicate Possible(plan: Plan, h: History) {
    && h.completed <= h.granted <= h.completed + 1 && h.granted <= SETUP + plan.Total()
    && h.succeeded <= h.completed <= h.succeeded + 1
    && (h.succeeded < h.completed ==> h.broken && h.granted == h.completed)
    && (h.returned || h.lost ==> h.asked) && !(h.returned && h.lost) && (h.lost ==> h.broken)
  }

  // ---- which call is taken ---------------------------------------------------------------------------

  /** The claim is the next of the script, on a lane that nothing broke and nobody asked to close. */
  ghost predicate NextClaim(plan: Plan, h: History, call: Call) {
    && !h.broken && !h.asked && h.granted == h.completed && h.granted < SETUP + plan.Total()
    && call == ScriptClaim(plan, h.granted)
  }

  /** The completion presents the one ticket that is open. */
  ghost predicate OpenTicket(h: History, call: Call) {
    call.Complete? && h.completed < h.granted && call.ticket == Issued(h.granted) && call.outcome.Some?
  }

  ghost predicate OpenClose(h: History, call: Call, report: CloseReport) {
    && call.CompleteClose? && h.asked && !h.returned && !h.lost && call.closing == Issued(h.granted + 1)
    && call.close == Some(report)
  }

  ghost predicate Breaks(h: History, call: Call) {
    match call
    case Complete(_, outcome) => !(OpenTicket(h, call) && outcome == Some(Succeeded))
    case CompleteClose(_, _) => !OpenClose(h, call, ReportReturned)
    case MarkUnknown(alone) => alone
    case _ => false
  }

  ghost function Extended(plan: Plan, h: History, call: Call): History {
    History(h.granted + (if NextClaim(plan, h, call) then 1 else 0),
            h.completed + (if OpenTicket(h, call) then 1 else 0),
            h.succeeded + (if OpenTicket(h, call) && call.outcome == Some(Succeeded) then 1 else 0),
            h.asked || call == RequestClose(true), h.returned || OpenClose(h, call, ReportReturned),
            h.lost || OpenClose(h, call, ReportUnknown), h.broken || Breaks(h, call))
  }

  lemma {:induction false} ClaimIs(plan: Plan, h: History, call: Call)
    requires Possible(plan, h)
    ensures Grants(plan, StateOf(plan, h), call) <==> NextClaim(plan, h, call)
  {
    if !h.broken && !h.asked && h.granted == h.completed && call.Claim? && call.kind.Some? {
      assert From(call.kind.value) == Reached(h.granted) <==> call.kind.value == ScriptKind(h.granted);
    }
  }

  lemma {:induction false} TakenIs(plan: Plan, h: History, call: Call)
    requires Possible(plan, h)
    ensures var s := StateOf(plan, h);
            && (Grants(plan, s, call) <==> NextClaim(plan, h, call))
            && (call.Complete? ==> (CompleteAllowed(s, call.ticket, call.outcome) <==> OpenTicket(h, call)))
            && (call.CompleteClose? ==> (CloseAllowed(s, call.closing, call.close) <==>
                  OpenClose(h, call, ReportReturned) || OpenClose(h, call, ReportUnknown)))
  {
    ClaimIs(plan, h, call);
    if call.CompleteClose? && call.close.Some? {
      assert call.close.value == ReportReturned || call.close.value == ReportUnknown;
    }
  }

  /** The call moves the state as it extends the history. */
  ghost predicate Moves(plan: Plan, h: History, call: Call) {
    && Possible(plan, Extended(plan, h, call))
    && After(plan, StateOf(plan, h), call) == StateOf(plan, Extended(plan, h, call))
  }

  lemma {:induction false} ClaimMoves(plan: Plan, h: History, call: Call)
    requires Possible(plan, h) && call.Claim?
    ensures Moves(plan, h, call)
  {
    ClaimIs(plan, h, call);
  }

  lemma {:induction false} CompletionMoves(plan: Plan, h: History, call: Call)
    requires Possible(plan, h) && call.Complete?
    ensures Moves(plan, h, call)
  {
    TakenIs(plan, h, call);
  }

  lemma {:induction false} CloseMoves(plan: Plan, h: History, call: Call)
    requires Possible(plan, h) && call.CompleteClose?
    ensures Moves(plan, h, call)
  {
    TakenIs(plan, h, call);
  }

  lemma {:induction false} StateNext(plan: Plan, h: History, call: Call)
    requires Possible(plan, h)
    ensures Moves(plan, h, call)
  {
    match call {
      case Claim(_, _) => ClaimMoves(plan, h, call);
      case Complete(_, _) => CompletionMoves(plan, h, call);
      case CompleteClose(_, _) => CloseMoves(plan, h, call);
      case _ =>
    }
  }

  lemma {:induction false} SomeNext(plan: Plan, calls: seq<Call>, k: nat)
    ensures Asked(calls, k + 1) <==> Asked(calls, k) || Asking(calls, k)
    ensures Broken(plan, calls, k + 1) <==> Broken(plan, calls, k) || Breaking(plan, calls, k)
    ensures forall report :: Reported(plan, calls, k + 1, report) <==>
                               Reported(plan, calls, k, report) || Reporting(plan, calls, k, report)
  {
    forall report ensures Reported(plan, calls, k + 1, report) <==>
                            Reported(plan, calls, k, report) || Reporting(plan, calls, k, report)
    {
      if Reported(plan, calls, k + 1, report) {
        var j: nat :| j < k + 1 && Reporting(plan, calls, j, report);
        assert j == k || j < k;
      }
    }
    if Broken(plan, calls, k + 1) {
      var j: nat :| j < k + 1 && Breaking(plan, calls, j);
      assert j == k || j < k;
    }
    if Asked(calls, k + 1) {
      var j: nat :| j < k + 1 && Asking(calls, j);
      assert j == k || j < k;
    }
  }

  /** One call more. */
  lemma {:induction false} HistoryNext(plan: Plan, calls: seq<Call>, k: nat)
    requires k < |calls| && Possible(plan, HistoryAt(plan, calls, k))
    requires Before(plan, calls, k) == StateOf(plan, HistoryAt(plan, calls, k))
    ensures HistoryAt(plan, calls, k + 1) == Extended(plan, HistoryAt(plan, calls, k), calls[k])
  {
    var h, call := HistoryAt(plan, calls, k), calls[k];
    TakenIs(plan, h, call);
    SomeNext(plan, calls, k);
    NumberNext(k, Grantings(plan, calls));
    NumberNext(k, Completings(plan, calls));
    NumberNext(k, Succeedings(plan, calls));
    assert Breaking(plan, calls, k) <==> Breaks(h, call);
    assert Asking(calls, k) <==> call == RequestClose(true);
    assert Reporting(plan, calls, k, ReportReturned) <==> OpenClose(h, call, ReportReturned);
    assert Reporting(plan, calls, k, ReportUnknown) <==> OpenClose(h, call, ReportUnknown);
  }

  lemma {:induction false} HistoryNone(plan: Plan, calls: seq<Call>)
    ensures HistoryAt(plan, calls, 0) == History(0, 0, 0, false, false, false, false)
  {
    NumberNone(Grantings(plan, calls));
    NumberNone(Completings(plan, calls));
    NumberNone(Succeedings(plan, calls));
  }

  lemma {:induction false} StatesAre(plan: Plan, calls: seq<Call>, n: nat)
    requires n <= |calls|
    ensures Possible(plan, HistoryAt(plan, calls, n))
    ensures Before(plan, calls, n) == StateOf(plan, HistoryAt(plan, calls, n))
  {
    if n == 0 {
      HistoryNone(plan, calls);
    } else {
      var k: nat := n - 1;
      assert k + 1 == n && calls[..n] == calls[..k] + [calls[k]];
      StatesAre(plan, calls, k);
      HistoryNext(plan, calls, k);
      StateNext(plan, HistoryAt(plan, calls, k), calls[k]);
      RunNext(plan, calls[..k], calls[k]);
    }
  }

  // ---- the whole state ---------------------------------------------------------------------------------

  /** After every sequence of calls the whole state is the one that its history determines. */
  lemma {:induction false} StateExactly(plan: Plan, calls: seq<Call>)
    ensures var h := HistoryAt(plan, calls, |calls|);
            Run(plan, calls) == StateOf(plan, h) && Possible(plan, h)
  {
    StatesAre(plan, calls, |calls|);
    assert calls[..|calls|] == calls;
  }

  /** When each call is taken, told from what became of the calls before it. */
  lemma {:induction false} TakenExactly(plan: Plan, calls: seq<Call>, k: nat)
    requires k < |calls|
    ensures var h := HistoryAt(plan, calls, k);
            && (Granting(plan, calls, k) <==> NextClaim(plan, h, calls[k]))
            && (Completing(plan, calls, k) <==> OpenTicket(h, calls[k]))
            && (Reporting(plan, calls, k, ReportReturned) <==> OpenClose(h, calls[k], ReportReturned))
            && (Reporting(plan, calls, k, ReportUnknown) <==> OpenClose(h, calls[k], ReportUnknown))
  {
    StatesAre(plan, calls, k);
    TakenIs(plan, HistoryAt(plan, calls, k), calls[k]);
  }

  /** The lane is held exactly when some call was a completion or a close completion that was refused or reported
      UNKNOWN, or a bare mark. */
  lemma {:induction false} HeldExactly(plan: Plan, calls: seq<Call>)
    ensures Run(plan, calls).held <==> exists k: nat :: k < |calls| && Breaking(plan, calls, k)
    ensures Run(plan, calls).held <==> Run(plan, calls).phase == Held
  {
    StateExactly(plan, calls);
    var h := HistoryAt(plan, calls, |calls|);
    assert Reached(h.succeeded) != Held && During(ScriptKind(h.completed)) != Held;
  }

  /** On a lane that is not held every completed ticket succeeded, and without a close its phase counts exactly those:
      it is where the script stands after that many successes. */
  lemma {:induction false} PhaseCountsSuccesses(plan: Plan, calls: seq<Call>)
    requires !Run(plan, calls).held
    ensures var s, n := Run(plan, calls), |calls|;
            var successes := Number(n, Succeedings(plan, calls));
            && Number(n, Completings(plan, calls)) == successes && s.completed == Beyond(successes, SETUP)
            && |Granted(plan, calls)| == successes + (if s.active.Some? then 1 else 0)
            && (s.active.Some? ==> s.active.value == ScriptTicket(plan, successes))
            && (!Asked(calls, n) ==>
                  s.phase == if s.active.Some? then During(ScriptKind(successes)) else Reached(successes))
  {
    StateExactly(plan, calls);
    GrantingsAre(plan, calls, |calls|);
    assert calls[..|calls|] == calls;
  }

  lemma {:induction false} GrantingsAre(plan: Plan, calls: seq<Call>, n: nat)
    requires n <= |calls|
    ensures |Granted(plan, calls[..n])| == Number(n, Grantings(plan, calls))
  {
    if n == 0 {
      NumberNone(Grantings(plan, calls));
    } else {
      var k: nat := n - 1;
      assert k + 1 == n && calls[..n][..k] == calls[..k] && calls[..n][k] == calls[k];
      GrantingsAre(plan, calls, k);
      NumberNext(k, Grantings(plan, calls));
    }
  }
}
