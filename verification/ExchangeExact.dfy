/** Exactly which runs of the exchange go on and which pass, told from the bytes on both pipes. */
module ExchangeExact {
  import opened Wrappers
  import opened Counting
  import opened Exchange
  import opened ExchangeLaws
  import opened Pipes

  // ---- lines ---------------------------------------------------------------------------------

  ghost function Newlines(s: Bytes): nat {
    if |s| == 0 then 0 else Newlines(s[..|s| - 1]) + (if s[|s| - 1] == NEWLINE then 1 else 0)
  }

  /** The one newline is the last byte. */
  ghost predicate IsLine(s: Bytes) {
    |s| > 0 && s[|s| - 1] == NEWLINE && NEWLINE !in s[..|s| - 1]
  }

  lemma {:induction false} NewlinesJoin(a: Bytes, b: Bytes)
    ensures Newlines(a + b) == Newlines(a) + Newlines(b)
  {
    if |b| == 0 {
      assert a + b == a;
    } else {
      NewlinesJoin(a, b[..|b| - 1]);
      assert (a + b)[..|a + b| - 1] == a + b[..|b| - 1];
    }
  }

  lemma {:induction false} NoNewlines(s: Bytes)
    ensures NEWLINE !in s <==> Newlines(s) == 0
  {
    if |s| > 0 {
      NoNewlines(s[..|s| - 1]);
      assert s == s[..|s| - 1] + [s[|s| - 1]];
    }
  }

  lemma {:induction false} LineHasOne(s: Bytes)
    requires IsLine(s)
    ensures Newlines(s) == 1
  {
    NoNewlines(s[..|s| - 1]);
  }

  ghost predicate AreLines(parts: seq<Bytes>, m: nat) {
    m <= |parts| && forall i: nat :: i < m ==> IsLine(parts[i])
  }

  lemma {:induction false} LinesCounted(parts: seq<Bytes>, m: nat)
    requires AreLines(parts, m)
    ensures Newlines(Concat(parts[..m])) == m
  {
    if m > 0 {
      var k: nat := m - 1;
      assert k + 1 == m;
      LinesCounted(parts, k);
      ConcatNext(parts, k);
      NewlinesJoin(Concat(parts[..k]), parts[k]);
      LineHasOne(parts[k]);
    }
  }

  lemma {:induction false} StartsNext(front: Bytes, rest: Bytes, part: Bytes)
    ensures StartsWith(front + rest, front + part) <==> StartsWith(rest, part)
  {
    if |part| <= |rest| {
      assert (front + rest)[..|front + part|] == front + rest[..|part|];
      assert (front + rest[..|part|])[|front|..] == rest[..|part|] && (front + part)[|front|..] == part;
    }
  }

  lemma {:induction false} FirstIs(s: Bytes, k: nat)
    requires k < |s| && s[k] == NEWLINE && NEWLINE !in s[..k]
    ensures FirstNewline(s) == k
  {
    var f := FirstNewline(s);
    assert forall j: nat :: j < k ==> s[j] in s[..k];
    assert forall j: nat :: j < f ==> s[j] in s[..f];
  }

  /** The first line is this reply exactly when the reply is a line and the bytes start with it. */
  lemma {:induction false} FirstLineIs(buffer: Bytes, reply: Bytes)
    requires NEWLINE in buffer
    ensures buffer[..FirstNewline(buffer) + 1] == reply <==> IsLine(reply) && StartsWith(buffer, reply)
  {
    if buffer[..FirstNewline(buffer) + 1] == reply {
      assert reply[..|reply| - 1] == buffer[..FirstNewline(buffer)];
    }
    if IsLine(reply) && StartsWith(buffer, reply) {
      assert buffer[|reply| - 1] == buffer[..|reply|][|reply| - 1];
      assert buffer[..|reply| - 1] == buffer[..|reply|][..|reply| - 1];
      FirstIs(buffer, |reply| - 1);
    }
  }

  // ---- what the bytes demand ---------------------------------------------------------------------

  /** The first m commands were sent in full. */
  ghost predicate WholeSent(script: Script, sent: nat, m: nat) {
    && m <= |script.commands| && |Concat(script.commands[..m])| <= sent
    && (m > 0 ==> script.commands[m - 1] != [])
  }

  /** The bytes are whole replies, each to a command that was sent in full and with a command to follow, and a
      remainder without a newline; and they are no more than all the replies. */
  ghost predicate Readable(script: Script, sent: nat, received: Bytes) {
    var m := Newlines(received);
    && AreLines(script.expected, m) && StartsWith(received, Concat(script.expected[..m]))
    && WholeSent(script, sent, m) && m < |script.commands| && |received| <= |Concat(script.expected)|
  }

  /** These bytes bring the reply that the provider's activation waits for. */
  ghost predicate Activates(script: Script, before: Bytes, after: Bytes) {
    script.peer && Newlines(before) <= BOUND_REPLY < Newlines(after)
  }

  /** The bytes stay inside the command that the replies so far call for. */
  ghost predicate Writable(script: Script, sent: nat, received: Bytes, count: nat) {
    var m := Newlines(received);
    0 < count && m < |script.commands| && sent + count <= |Concat(script.commands[..m + 1])|
  }

  // ---- one step -----------------------------------------------------------------------------------

  /** Every command that was answered was not empty, and every reply that matched was a line. */
  ghost predicate Settled(script: Script, s: State) {
    && AreLines(script.expected, s.repliesMatched) && s.index <= |script.commands|
    && forall k: nat :: k < s.index ==> script.commands[k] != []
  }

  ghost predicate Standing(script: Script, s: State, sent: Bytes, received: Bytes) {
    && Lockstep(script, s) && BytesSound(script, s, sent, received) && Settled(script, s) && NEWLINE !in s.buffer
  }

  /** The replies matched are the newlines read. */
  lemma {:induction false} RepliesAreNewlines(script: Script, s: State, sent: Bytes, received: Bytes)
    requires Standing(script, s, sent, received)
    ensures Newlines(received) == s.index == s.repliesMatched
  {
    LinesCounted(script.expected, s.repliesMatched);
    NewlinesJoin(Concat(script.expected[..s.repliesMatched]), s.buffer);
    NoNewlines(s.buffer);
  }

  lemma {:induction false} WriteIs(script: Script, s: State, sent: Bytes, received: Bytes, count: nat)
    requires Standing(script, s, sent, received)
    ensures AfterWrite(script, s, count).Some? <==> Writable(script, |sent|, received, count)
  {
    RepliesAreNewlines(script, s, sent, received);
    ConcatNext(script.commands, s.index);
  }

  /** Only the command that is out now can be newly whole. */
  lemma {:induction false} WholeIs(script: Script, s: State, sent: Bytes, received: Bytes, m: nat)
    requires Standing(script, s, sent, received) && s.index <= m
    ensures WholeSent(script, |sent|, m) <==> m <= s.commandsWritten
  {
    ConcatNext(script.commands, s.index);
    if s.index + 1 < m <= |script.commands| {
      ConcatLength(script.commands, s.index + 1, m - 1);
      ConcatNext(script.commands, m - 1);
    }
  }

  /** A line is taken exactly when it is the reply to the command that was sent in full, a command follows, and the
      activation is acknowledged where it is due. */
  lemma {:induction false} LineIs(script: Script, s: State, acknowledges: bool)
    requires Lockstep(script, s) && NEWLINE in s.buffer
    ensures AfterLine(script, s, acknowledges).Some? <==>
              && s.index < |script.expected| && IsLine(script.expected[s.index])
              && StartsWith(s.buffer, script.expected[s.index]) && s.commandsWritten == s.index + 1 < |script.commands|
              && (script.peer && s.index == BOUND_REPLY ==> acknowledges)
  {
    if s.index < |script.expected| {
      FirstLineIs(s.buffer, script.expected[s.index]);
    }
  }

  lemma {:induction false} LineRest(s: Bytes)
    requires NEWLINE in s
    ensures Newlines(s) == 1 + Newlines(s[FirstNewline(s) + 1..])
  {
    var end := FirstNewline(s) + 1;
    assert s == s[..end] + s[end..];
    NewlinesJoin(s[..end], s[end..]);
    assert s[..end][..end - 1] == s[..end - 1];
    LineHasOne(s[..end]);
  }

  /** No second line can follow in the same delivery. */
  lemma {:induction false} LinesAre(script: Script, s: State, acknowledges: bool)
    requires Lockstep(script, s)
    ensures AfterLines(script, s, acknowledges).Some? <==>
              (NEWLINE in s.buffer ==> Newlines(s.buffer) == 1 && AfterLine(script, s, acknowledges).Some?)
  {
    NoNewlines(s.buffer);
    if NEWLINE in s.buffer && AfterLine(script, s, acknowledges).Some? {
      var next := AfterLine(script, s, acknowledges).value;
      LineRest(s.buffer);
      LineSent(script, s, acknowledges);
      NoNewlines(next.buffer);
      if NEWLINE in next.buffer {
        LineIs(script, next, acknowledges);
      }
    }
  }

  lemma {:induction false} ReplyStarts(script: Script, s: State, chunk: Bytes, sent: Bytes, received: Bytes)
    requires Standing(script, s, sent, received) && s.index < |script.expected|
    ensures StartsWith(received + chunk, Concat(script.expected[..s.index + 1])) <==>
              StartsWith(s.buffer + chunk, script.expected[s.index])
  {
    var front := Concat(script.expected[..s.index]);
    ConcatNext(script.expected, s.index);
    Associate(front, s.buffer, chunk);
    StartsNext(front, s.buffer + chunk, script.expected[s.index]);
  }

  lemma {:induction false} NextLines(script: Script, s: State)
    requires Settled(script, s) && s.repliesMatched == s.index
    ensures AreLines(script.expected, s.index + 1) <==>
              s.index < |script.expected| && IsLine(script.expected[s.index])
  {
  }

  lemma {:induction false} QuietIs(script: Script, s: State, chunk: Bytes, sent: Bytes, received: Bytes)
    requires Standing(script, s, sent, received) && Newlines(chunk) == 0
    ensures Newlines(received + chunk) == s.index
    ensures Readable(script, |sent|, received + chunk) <==> |received + chunk| <= |Concat(script.expected)|
  {
    RepliesAreNewlines(script, s, sent, received);
    NewlinesJoin(received, chunk);
    WholeIs(script, s, sent, received, s.index);
    var front := Concat(script.expected[..s.index]);
    Associate(front, s.buffer, chunk);
    assert (front + (s.buffer + chunk))[..|front|] == front;
  }

  lemma {:induction false} ReplyIs(script: Script, s: State, chunk: Bytes, sent: Bytes, received: Bytes)
    requires Standing(script, s, sent, received) && Newlines(chunk) == 1
    ensures Newlines(received + chunk) == s.index + 1
    ensures Readable(script, |sent|, received + chunk) <==>
              && s.index < |script.expected| && IsLine(script.expected[s.index])
              && StartsWith(s.buffer + chunk, script.expected[s.index])
              && s.commandsWritten == s.index + 1 < |script.commands| && |received + chunk| <= |Concat(script.expected)|
  {
    RepliesAreNewlines(script, s, sent, received);
    NewlinesJoin(received, chunk);
    NextLines(script, s);
    WholeIs(script, s, sent, received, s.index + 1);
    if s.index < |script.expected| {
      ReplyStarts(script, s, chunk, sent, received);
    }
  }

  lemma {:induction false} TwoRefused(script: Script, s: State, chunk: Bytes, sent: Bytes, received: Bytes)
    requires Standing(script, s, sent, received) && Newlines(chunk) > 1
    ensures !Readable(script, |sent|, received + chunk)
  {
    RepliesAreNewlines(script, s, sent, received);
    NewlinesJoin(received, chunk);
    WholeIs(script, s, sent, received, Newlines(received + chunk));
  }

  lemma {:induction false} ReadIs(script: Script, s: State, chunk: Bytes, acknowledges: bool, sent: Bytes,
                                  received: Bytes)
    requires Standing(script, s, sent, received)
    ensures AfterRead(script, s, chunk, acknowledges).Some? <==>
              && Readable(script, |sent|, received + chunk)
              && (Activates(script, received, received + chunk) ==> acknowledges)
  {
    var more := Delivered(s, chunk);
    RepliesAreNewlines(script, s, sent, received);
    LinesAre(script, more, acknowledges);
    NoNewlines(s.buffer);
    NewlinesJoin(s.buffer, chunk);
    NoNewlines(more.buffer);
    if Newlines(chunk) == 0 {
      QuietIs(script, s, chunk, sent, received);
    } else if Newlines(chunk) == 1 {
      ReplyIs(script, s, chunk, sent, received);
      LineIs(script, more, acknowledges);
    } else {
      TwoRefused(script, s, chunk, sent, received);
    }
  }

  // ---- every run ------------------------------------------------------------------------------------

  lemma {:induction false} LineSettled(script: Script, s: State, acknowledges: bool)
    requires Lockstep(script, s) && Settled(script, s) && NEWLINE in s.buffer
    requires AfterLine(script, s, acknowledges).Some?
    ensures Settled(script, AfterLine(script, s, acknowledges).value)
  {
    LineIs(script, s, acknowledges);
  }

  lemma {:induction false} LinesSettled(script: Script, s: State, acknowledges: bool)
    requires Lockstep(script, s) && Settled(script, s) && AfterLines(script, s, acknowledges).Some?
    ensures Settled(script, AfterLines(script, s, acknowledges).value)
    decreases |s.buffer|
  {
    if NEWLINE in s.buffer {
      LineSettled(script, s, acknowledges);
      LineSent(script, s, acknowledges);
      LinesSettled(script, AfterLine(script, s, acknowledges).value, acknowledges);
    }
  }

  lemma {:induction false} RunSettled(script: Script, steps: seq<Step>)
    requires |script.commands| > 0 && Run(script, steps).Some?
    ensures Settled(script, Run(script, steps).value)
  {
    if |steps| > 0 {
      var init, last := steps[..|steps| - 1], steps[|steps| - 1];
      RunSettled(script, init);
      BarrierInvariant(script, init);
      if last.Read? {
        LinesSettled(script, Delivered(Run(script, init).value, last.chunk), last.acknowledges);
      }
    }
  }

  lemma {:induction false} RunStands(script: Script, steps: seq<Step>)
    requires |script.commands| > 0 && Run(script, steps).Some?
    ensures Standing(script, Run(script, steps).value, Sent(script, steps), Received(steps))
  {
    BarrierInvariant(script, steps);
    RunSettled(script, steps);
  }

  /** How many bytes the command pipe took. */
  ghost function Taken(steps: seq<Step>): nat {
    if |steps| == 0 then 0 else
      Taken(steps[..|steps| - 1]) + (if steps[|steps| - 1].Write? then steps[|steps| - 1].count else 0)
  }

  lemma {:induction false} SentIsTaken(script: Script, steps: seq<Step>)
    requires |script.commands| > 0 && Run(script, steps).Some?
    ensures |Sent(script, steps)| == Taken(steps)
  {
    if |steps| > 0 {
      var init := steps[..|steps| - 1];
      SentIsTaken(script, init);
      BarrierInvariant(script, init);
    }
  }

  /** What the bytes so far demand of the next step. */
  ghost predicate StepSound(script: Script, before: seq<Step>, step: Step) {
    var sent, received := Taken(before), Received(before);
    match step
    case Write(count) => Writable(script, sent, received, count)
    case Read(chunk, acknowledges) =>
      && Readable(script, sent, received + chunk)
      && (Activates(script, received, received + chunk) ==> acknowledges)
  }

  /** A run goes on exactly when the bytes so far allow the step. */
  lemma {:induction false} StepExactly(script: Script, steps: seq<Step>, step: Step)
    requires |script.commands| > 0 && Run(script, steps).Some?
    ensures Run(script, steps + [step]).Some? <==> StepSound(script, steps, step)
  {
    var s, sent, received := Run(script, steps).value, Sent(script, steps), Received(steps);
    RunNext(script, steps, step);
    RunStands(script, steps);
    SentIsTaken(script, steps);
    match step {
      case Write(count) => WriteIs(script, s, sent, received, count);
      case Read(chunk, acknowledges) => ReadIs(script, s, chunk, acknowledges, sent, received);
    }
  }

  ghost predicate StepsSound(script: Script, steps: seq<Step>, n: nat) {
    n <= |steps| && forall k: nat :: k < n ==> StepSound(script, steps[..k], steps[k])
  }

  lemma {:induction false} StepsNext(script: Script, steps: seq<Step>, k: nat)
    requires k < |steps|
    ensures StepsSound(script, steps, k + 1) <==>
              StepsSound(script, steps, k) && StepSound(script, steps[..k], steps[k])
  {
  }

  lemma {:induction false} RunGoesOn(script: Script, steps: seq<Step>, k: nat)
    requires |script.commands| > 0 && k < |steps|
    ensures Run(script, steps[..k + 1]).Some? <==>
              Run(script, steps[..k]).Some? && StepSound(script, steps[..k], steps[k])
  {
    assert steps[..k + 1] == steps[..k] + [steps[k]];
    RunNext(script, steps[..k], steps[k]);
    if Run(script, steps[..k]).Some? {
      StepExactly(script, steps[..k], steps[k]);
    }
  }

  lemma {:induction false} RunsTo(script: Script, steps: seq<Step>, n: nat)
    requires |script.commands| > 0 && n <= |steps|
    ensures Run(script, steps[..n]).Some? <==> StepsSound(script, steps, n)
  {
    if n > 0 {
      var k: nat := n - 1;
      assert k + 1 == n;
      RunsTo(script, steps, k);
      RunGoesOn(script, steps, k);
      StepsNext(script, steps, k);
    } else {
      assert steps[..0] == [];
    }
  }

  /** A sequence of steps is a run exactly when the bytes before each step allow it. */
  lemma {:induction false} RunsExactly(script: Script, steps: seq<Step>)
    requires |script.commands| > 0
    ensures Run(script, steps).Some? <==>
              forall k: nat :: k < |steps| ==> StepSound(script, steps[..k], steps[k])
  {
    RunsTo(script, steps, |steps|);
    assert steps[..|steps|] == steps;
  }

  /** A run passes exactly when every byte of every command was taken and every byte of every reply was read, with one
      command more than replies, the last of them not empty, and a third reply where there is a provider. */
  lemma {:induction false} PassesExactly(script: Script, steps: seq<Step>)
    requires |script.commands| > 0 && Run(script, steps).Some?
    ensures Passes(script, steps) <==>
              && |script.commands| == |script.expected| + 1 && script.commands[|script.expected|] != []
              && Taken(steps) == |Concat(script.commands)| && Received(steps) == Concat(script.expected)
              && Newlines(Received(steps)) == |script.expected| && (script.peer ==> |script.expected| > BOUND_REPLY)
  {
    var s, sent, received := Run(script, steps).value, Sent(script, steps), Received(steps);
    RunStands(script, steps);
    SentIsTaken(script, steps);
    RepliesAreNewlines(script, s, sent, received);
    assert script.expected[..|script.expected|] == script.expected;
    assert script.commands[..|script.commands|] == script.commands;
    ConcatNext(script.commands, s.index);
    if Passes(script, steps) {
      PassingRun(script, steps);
    }
  }
}
