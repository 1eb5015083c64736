/** What every run of the exchange keeps, however the operating system cuts the bytes. */
module ExchangeLaws {
  import opened Counting
  import opened Exchange
  import opened Pipes

  /** Every byte that the command pipe took, in order. */
  ghost function Sent(script: Script, steps: seq<Step>): Bytes {
    if |steps| == 0 then [] else
      var init, last := steps[..|steps| - 1], steps[|steps| - 1];
      var s := Run(script, init);
      if last.Write? && s.Some? && s.value.index < |script.commands|
         && s.value.offset + last.count <= |script.commands[s.value.index]|
      then Sent(script, init) + script.commands[s.value.index][s.value.offset..s.value.offset + last.count]
      else Sent(script, init)
  }

  /** Every byte that the output pipe delivered, in order. */
  ghost function Received(steps: seq<Step>): Bytes {
    if |steps| == 0 then [] else
      Received(steps[..|steps| - 1]) + (if steps[|steps| - 1].Read? then steps[|steps| - 1].chunk else [])
  }

  /** Commands and replies alternate; the provider is activated at the third reply. */
  ghost predicate Lockstep(script: Script, s: State) {
    && s.repliesMatched == s.index < |script.commands| && s.repliesMatched <= |script.expected|
    && s.offset <= |script.commands[s.index]|
    && s.commandsWritten == s.index + (if s.offset == |script.commands[s.index]| > 0 then 1 else 0)
    && s.activations == (if script.peer && s.repliesMatched > BOUND_REPLY then 1 else 0)
  }

  /** The bytes on both pipes are those of the script, up to where the exchange stands. */
  ghost predicate BytesSound(script: Script, s: State, sent: Bytes, received: Bytes)
    requires Lockstep(script, s)
  {
    && sent == Concat(script.commands[..s.index]) + script.commands[s.index][..s.offset]
    && received == Concat(script.expected[..s.repliesMatched]) + s.buffer
    && s.received == |received|
  }

  lemma {:induction false} LineSent(script: Script, s: State, acknowledges: bool)
    requires Lockstep(script, s) && NEWLINE in s.buffer && AfterLine(script, s, acknowledges).Some?
    ensures var after := AfterLine(script, s, acknowledges).value;
            && Lockstep(script, after)
            && Concat(script.commands[..after.index]) + script.commands[after.index][..after.offset] ==
                 Concat(script.commands[..s.index]) + script.commands[s.index][..s.offset]
  {
    ConcatNext(script.commands, s.index);
    assert script.commands[s.index][..s.offset] == script.commands[s.index];
    assert script.commands[s.index + 1][..0] == [];
  }

  lemma {:induction false} LineSound(script: Script, s: State, acknowledges: bool, sent: Bytes, received: Bytes)
    requires Lockstep(script, s) && BytesSound(script, s, sent, received) && NEWLINE in s.buffer
    requires AfterLine(script, s, acknowledges).Some?
    ensures Lockstep(script, AfterLine(script, s, acknowledges).value)
    ensures BytesSound(script, AfterLine(script, s, acknowledges).value, sent, received)
  {
    var end := FirstNewline(s.buffer) + 1;
    LineSent(script, s, acknowledges);
    ConcatNext(script.expected, s.repliesMatched);
    assert s.buffer == s.buffer[..end] + s.buffer[end..];
    Associate(Concat(script.expected[..s.repliesMatched]), s.buffer[..end], s.buffer[end..]);
  }

  lemma {:induction false} LinesSound(script: Script, s: State, acknowledges: bool, sent: Bytes, received: Bytes)
    requires Lockstep(script, s) && BytesSound(script, s, sent, received)
    requires AfterLines(script, s, acknowledges).Some?
    ensures var after := AfterLines(script, s, acknowledges).value;
            Lockstep(script, after) && BytesSound(script, after, sent, received) && NEWLINE !in after.buffer
    decreases |s.buffer|
  {
    if NEWLINE in s.buffer {
      LineSound(script, s, acknowledges, sent, received);
      LinesSound(script, AfterLine(script, s, acknowledges).value, acknowledges, sent, received);
    }
  }

  lemma {:induction false} WriteSound(script: Script, s: State, count: nat, sent: Bytes, received: Bytes)
    requires Lockstep(script, s) && BytesSound(script, s, sent, received) && AfterWrite(script, s, count).Some?
    ensures var after := AfterWrite(script, s, count).value;
            Lockstep(script, after)
            && BytesSound(script, after, sent + script.commands[s.index][s.offset..s.offset + count], received)
  {
    var data := script.commands[s.index];
    assert data[..s.offset] + data[s.offset..s.offset + count] == data[..s.offset + count];
    Associate(Concat(script.commands[..s.index]), data[..s.offset], data[s.offset..s.offset + count]);
  }

  lemma {:induction false} ReadSound(script: Script, s: State, chunk: Bytes, acknowledges: bool, sent: Bytes,
                                     received: Bytes)
    requires Lockstep(script, s) && BytesSound(script, s, sent, received)
             && AfterRead(script, s, chunk, acknowledges).Some?
    ensures var after := AfterRead(script, s, chunk, acknowledges).value;
            Lockstep(script, after) && BytesSound(script, after, sent, received + chunk) && NEWLINE !in after.buffer
  {
    var more := Delivered(s, chunk);
    Associate(Concat(script.expected[..s.repliesMatched]), s.buffer, chunk);
    LinesSound(script, more, acknowledges, sent, received + chunk);
  }

  /** Under every interleaving of partial writes and chunked reads: commands and replies alternate, the bytes
      sent end inside the command that follows the last matched reply, and the bytes read are the matched
      replies and a remainder without a newline. */
  lemma {:induction false} BarrierInvariant(script: Script, steps: seq<Step>)
    requires |script.commands| > 0 && Run(script, steps).Some?
    ensures var s := Run(script, steps).value;
            Lockstep(script, s) && BytesSound(script, s, Sent(script, steps), Received(steps)) && NEWLINE !in s.buffer
  {
    if |steps| == 0 {
      assert script.commands[0][..0] == [];
    } else {
      var init, last := steps[..|steps| - 1], steps[|steps| - 1];
      BarrierInvariant(script, init);
      var s, sent, received := Run(script, init).value, Sent(script, init), Received(init);
      match last {
        case Write(count) => WriteSound(script, s, count, sent, received);
        case Read(chunk, acknowledges) => ReadSound(script, s, chunk, acknowledges, sent, received);
      }
    }
  }

  /** So it holds of the object after every sequence of its method calls. */
  lemma {:induction false} EndpointSound(e: Endpoint)
    requires e.Valid() && |e.script.commands| > 0
    ensures Lockstep(e.script, e.Snapshot()) && NEWLINE !in e.replyBuffer
    ensures BytesSound(e.script, e.Snapshot(), Sent(e.script, e.steps), Received(e.steps))
  {
    BarrierInvariant(e.script, e.steps);
  }

  /** Replies never run ahead of written commands, and commands at most one ahead of replies. */
  lemma {:induction false} RepliesAndCommands(script: Script, steps: seq<Step>)
    requires |script.commands| > 0 && Run(script, steps).Some?
    ensures var s := Run(script, steps).value; s.repliesMatched <= s.commandsWritten <= s.repliesMatched + 1
  {
    BarrierInvariant(script, steps);
  }

  /** A byte of command k has been sent only if every reply before k has matched in full. */
  lemma {:induction false} NoByteBeforeReply(script: Script, steps: seq<Step>, k: nat)
    requires |script.commands| > 0 && Run(script, steps).Some? && k < |script.commands|
    requires |Sent(script, steps)| > |Concat(script.commands[..k])|
    ensures Run(script, steps).value.repliesMatched >= k && k <= |script.expected|
    ensures |Received(steps)| >= |Concat(script.expected[..k])|
  {
    BarrierInvariant(script, steps);
    var s := Run(script, steps).value;
    if s.index < k {
      ConcatLength(script.commands, s.index, k);
    } else {
      ConcatLength(script.expected, k, s.repliesMatched);
    }
  }

  /** With a provider, it is activated exactly once, after the third reply and before any byte of the fourth command. */
  lemma {:induction false} ActivatedOnce(script: Script, steps: seq<Step>)
    requires |script.commands| > 0 && Run(script, steps).Some? && script.peer
    ensures var s := Run(script, steps).value;
            && s.activations <= 1 && (s.activations == 1 <==> s.repliesMatched >= 3)
            && (|script.commands| > 3 && |Sent(script, steps)| > |Concat(script.commands[..3])| ==> s.activations == 1)
  {
    BarrierInvariant(script, steps);
    if |script.commands| > 3 && |Sent(script, steps)| > |Concat(script.commands[..3])| {
      NoByteBeforeReply(script, steps, 3);
    }
  }

  /** The checks at the end of the exchange. */
  ghost predicate Passes(script: Script, steps: seq<Step>) {
    && Run(script, steps).Some?
    && var s := Run(script, steps).value;
    s.buffer == [] && s.repliesMatched == |script.expected| && s.commandsWritten == |script.commands|
    && (script.peer ==> s.activations > 0)
  }

  lemma {:induction false} WholeBytes(script: Script, s: State, sent: Bytes, received: Bytes)
    requires Lockstep(script, s) && BytesSound(script, s, sent, received) && s.buffer == []
    requires s.repliesMatched == |script.expected| && s.commandsWritten == |script.commands|
    ensures |script.commands| == |script.expected| + 1
    ensures sent == Concat(script.commands) && received == Concat(script.expected)
  {
    ConcatNext(script.commands, s.index);
    assert script.commands[..|script.commands|] == script.commands
           && script.expected[..|script.expected|] == script.expected;
    assert script.commands[s.index][..s.offset] == script.commands[s.index];
  }

  /** A passing run has exactly one command more than replies; it sent every command and read every reply, whole
      and in order, and nothing else. */
  lemma {:induction false} PassingRun(script: Script, steps: seq<Step>)
    requires |script.commands| > 0 && Passes(script, steps)
    ensures |script.commands| == |script.expected| + 1
    ensures Sent(script, steps) == Concat(script.commands) && Received(steps) == Concat(script.expected)
    ensures script.peer ==> Run(script, steps).value.activations == 1 && |script.expected| >= 3
  {
    BarrierInvariant(script, steps);
    WholeBytes(script, Run(script, steps).value, Sent(script, steps), Received(steps));
  }
}
