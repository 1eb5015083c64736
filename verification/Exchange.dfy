/** The command and reply barrier between this process and a commanded child: commands go out in pieces,
    replies come in pieces, and each next command waits for the whole reply to the last. */
module Exchange {
  import opened Wrappers
  import opened Pipes

  const NEWLINE: byte := 10

  /** The commands, the replies expected to them, and whether a provider is to be activated on the way. */
  datatype Script = Script(commands: seq<Bytes>, expected: seq<Bytes>, peer: bool)

  /** What the operating system may do next: take some bytes of the command, or deliver some bytes of output.
      `acknowledges` says how the provider would answer if these bytes led to its activation. */
  datatype Step = Write(count: nat) | Read(chunk: Bytes, acknowledges: bool)

  datatype State = State(
    index: nat, offset: nat, commandsWritten: nat, repliesMatched: nat, buffer: Bytes, received: nat, activations: nat)

  const START := State(0, 0, 0, 0, [], 0, 0)

  /** The third reply is the one before the provider's activation. */
  const BOUND_REPLY: nat := 2

  function FirstNewline(s: Bytes): (k: nat)
    requires NEWLINE in s
    ensures k < |s| && s[k] == NEWLINE && NEWLINE !in s[..k]
  {
    if s[0] == NEWLINE then 0 else 1 + FirstNewline(s[1..])
  }

  /** Some bytes of the current command are taken. Taking none, or more than there are, fails. */
  function AfterWrite(script: Script, s: State, count: nat): Option<State>
    requires s.index < |script.commands|
  {
    var data := script.commands[s.index];
    if count == 0 || s.offset + count > |data| then None
    else if s.offset + count == |data| then Some(s.(offset := |data|, commandsWritten := s.commandsWritten + 1))
    else Some(s.(offset := s.offset + count))
  }

  /** One complete line of the buffer against the reply expected now; then the next command is set up. */
  function AfterLine(script: Script, s: State, acknowledges: bool): Option<State>
    requires NEWLINE in s.buffer
  {
    var end := FirstNewline(s.buffer) + 1;
    var activates := script.peer && s.repliesMatched == BOUND_REPLY;
    if !(s.repliesMatched < |script.expected| && s.buffer[..end] == script.expected[s.repliesMatched]) then None
    else if !(s.repliesMatched < s.commandsWritten && s.repliesMatched == s.index) then None
    else if activates && !acknowledges then None
    else if s.index + 1 >= |script.commands| then None
    else Some(State(s.index + 1, 0, s.commandsWritten, s.repliesMatched + 1, s.buffer[end..], s.received,
                    if activates then s.activations + 1 else s.activations))
  }

  /** All complete lines of the buffer. */
  function AfterLines(script: Script, s: State, acknowledges: bool): Option<State>
    decreases |s.buffer|
  {
    if NEWLINE !in s.buffer then Some(s) else
      var next := AfterLine(script, s, acknowledges);
      if next.None? then None else AfterLines(script, next.value, acknowledges)
  }

  function Delivered(s: State, chunk: Bytes): State {
    s.(received := s.received + |chunk|, buffer := s.buffer + chunk)
  }

  function AfterRead(script: Script, s: State, chunk: Bytes, acknowledges: bool): Option<State> {
    var more := Delivered(s, chunk);
    if more.received > |Concat(script.expected)| then None else AfterLines(script, more, acknowledges)
  }

  function After(script: Script, s: State, step: Step): Option<State> {
    match step
    case Write(count) => if s.index < |script.commands| then AfterWrite(script, s, count) else None
    case Read(chunk, acknowledges) => AfterRead(script, s, chunk, acknowledges)
  }

  /** The state after a run of steps; none once a check has failed. */
  ghost function Run(script: Script, steps: seq<Step>): Option<State> {
    if |steps| == 0 then Some(START) else
      var before := Run(script, steps[..|steps| - 1]);
      if before.None? then None else After(script, before.value, steps[|steps| - 1])
  }

  lemma {:induction false} RunNext(script: Script, steps: seq<Step>, step: Step)
    ensures Run(script, steps + [step]) ==
              if Run(script, steps).None? then None else After(script, Run(script, steps).value, step)
  {
    assert (steps + [step])[..|steps|] == steps;
  }

  /** The child's exchange as an object: its fields change in place with every step. */
  class Endpoint {
    const script: Script
    /** Every step so far. */
    ghost var steps: seq<Step>
    var commandIndex: nat
    var offset: nat
    var commandsWritten: nat
    var repliesMatched: nat
    var replyBuffer: Bytes
    var received: nat
    var activations: nat

    function Snapshot(): State
      reads this
    {
      State(commandIndex, offset, commandsWritten, repliesMatched, replyBuffer, received, activations)
    }

    /** The fields are where the steps so far lead. */
    ghost predicate Valid()
      reads this
    {
      Run(script, steps) == Some(Snapshot())
    }

    constructor (script: Script)
      ensures Valid() && steps == [] && this.script == script
    {
      this.script, steps := script, [];
      commandIndex, offset, commandsWritten, repliesMatched, replyBuffer, received, activations := 0, 0, 0, 0, [], 0, 0;
    }

    /** The bytes taken move the offset in the current command. */
    method TakeWritten(count: nat) returns (ok: bool)
      modifies this`offset, this`commandsWritten
      ensures var after := After(script, old(Snapshot()), Write(count));
              ok == after.Some? && (ok ==> Snapshot() == after.value)
    {
      if commandIndex >= |script.commands| {
        return false;
      }
      var data := script.commands[commandIndex];
      if count == 0 || offset + count > |data| {
        return false;
      }
      offset := offset + count;
      if offset == |data| {
        commandsWritten := commandsWritten + 1;
      }
      return true;
    }

    /** The command pipe took some bytes. */
    method OnWritable(count: nat) returns (ok: bool)
      requires Valid()
      modifies this`offset, this`commandsWritten, this`steps
      ensures steps == old(steps) + [Write(count)] && ok == Run(script, steps).Some?
      ensures ok ==> Valid()
    {
      RunNext(script, steps, Write(count));
      steps := steps + [Write(count)];
      ok := TakeWritten(count);
    }

    /** One complete line of the buffer. */
    method OnLine(acknowledges: bool) returns (ok: bool)
      requires NEWLINE in replyBuffer
      modifies this`commandIndex, this`offset, this`repliesMatched, this`replyBuffer, this`activations
      ensures var after := AfterLine(script, old(Snapshot()), acknowledges);
              ok == after.Some? && (ok ==> Snapshot() == after.value)
      ensures ok ==> |replyBuffer| < |old(replyBuffer)|
    {
      var end := FirstNewline(replyBuffer) + 1;
      var line, at := replyBuffer[..end], repliesMatched;
      replyBuffer := replyBuffer[end..];
      if !(at < |script.expected| && line == script.expected[at]) {
        return false;
      }
      if !(at < commandsWritten && at == commandIndex) {
        return false;
      }
      repliesMatched := repliesMatched + 1;
      if script.peer && at == BOUND_REPLY {
        if !acknowledges {
          return false;
        }
        activations := activations + 1;
      }
      commandIndex := commandIndex + 1;
      if commandIndex >= |script.commands| {
        return false;
      }
      offset := 0;
      return true;
    }

    /** All complete lines of the buffer. */
    method TakeLines(acknowledges: bool) returns (ok: bool)
      modifies this`commandIndex, this`offset, this`repliesMatched, this`replyBuffer, this`activations
      ensures var after := AfterLines(script, old(Snapshot()), acknowledges);
              ok == after.Some? && (ok ==> Snapshot() == after.value)
    {
      ghost var first := Snapshot();
      while NEWLINE in replyBuffer
        invariant AfterLines(script, Snapshot(), acknowledges) == AfterLines(script, first, acknowledges)
        decreases |replyBuffer|
      {
        ok := OnLine(acknowledges);
        if !ok {
          return;
        }
      }
      return true;
    }

    /** The bytes join those not yet matched. */
    method Keep(chunk: Bytes)
      modifies this`replyBuffer, this`received
      ensures Snapshot() == Delivered(old(Snapshot()), chunk)
    {
      received := received + |chunk|;
      replyBuffer := replyBuffer + chunk;
    }

    /** The bytes delivered, within the bytes that are expected in all. */
    method TakeDelivered(chunk: Bytes, acknowledges: bool) returns (ok: bool)
      modifies this`commandIndex, this`offset, this`repliesMatched, this`replyBuffer, this`activations, this`received
      ensures var after := AfterRead(script, old(Snapshot()), chunk, acknowledges);
              ok == after.Some? && (ok ==> Snapshot() == after.value)
    {
      Keep(chunk);
      if received > |Concat(script.expected)| {
        return false;
      }
      ok := TakeLines(acknowledges);
    }

    /** The output pipe delivered some bytes. */
    method OnReadable(chunk: Bytes, acknowledges: bool) returns (ok: bool)
      requires Valid()
      modifies this
      ensures steps == old(steps) + [Read(chunk, acknowledges)] && ok == Run(script, steps).Some?
      ensures ok ==> Valid()
    {
      RunNext(script, steps, Read(chunk, acknowledges));
      steps := steps + [Read(chunk, acknowledges)];
      ok := TakeDelivered(chunk, acknowledges);
    }
  }
}
