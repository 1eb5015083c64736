/** Every way to cut the bytes of a script into writes and reads makes a run that passes. */
module ExchangeRuns {
  import opened Wrappers
  import opened Exchange
  import opened ExchangeLaws
  import opened ExchangeExact
  import opened Pipes

  /** One command more than replies, commands that are not empty, replies of one line, and a third reply where there is
      a provider. */
  ghost predicate Playable(script: Script) {
    && |script.commands| == |script.expected| + 1 && (script.peer ==> |script.expected| > BOUND_REPLY)
    && (forall k: nat :: k < |script.commands| ==> script.commands[k] != [])
    && AreLines(script.expected, |script.expected|)
  }

  /** The pieces of each command and of each reply. */
  datatype Cut = Cut(commands: seq<seq<nat>>, replies: seq<seq<Bytes>>)

  ghost predicate Cuts(script: Script, cut: Cut) {
    && |cut.commands| == |script.commands| && |cut.replies| == |script.expected|
    && (forall k: nat, i: nat :: k < |cut.commands| && i < |cut.commands[k]| ==> cut.commands[k][i] > 0)
    && (forall k: nat :: k < |cut.commands| ==> Quantity(cut.commands[k]) == |script.commands[k]|)
    && (forall k: nat :: k < |cut.replies| ==> Concat(cut.replies[k]) == script.expected[k])
  }

  ghost function Writes(counts: seq<nat>): seq<Step> {
    seq(|counts|, i requires 0 <= i < |counts| => Write(counts[i]))
  }

  ghost function Reads(chunks: seq<Bytes>): seq<Step> {
    seq(|chunks|, i requires 0 <= i < |chunks| => Read(chunks[i], true))
  }

  /** The first n commands and their replies, piece by piece. */
  ghost function Rounds(cut: Cut, n: nat): seq<Step>
    requires n <= |cut.commands| && n <= |cut.replies|
  {
    if n == 0 then [] else Rounds(cut, n - 1) + Writes(cut.commands[n - 1]) + Reads(cut.replies[n - 1])
  }

  ghost function Whole(script: Script, cut: Cut): seq<Step>
    requires |cut.commands| == |cut.replies| + 1
  {
    Rounds(cut, |cut.replies|) + Writes(cut.commands[|cut.replies|])
  }

  // ---- where the pieces lead ---------------------------------------------------------------------

  ghost function ActivationsAfter(script: Script, replies: nat): nat {
    if script.peer && replies > BOUND_REPLY then 1 else 0
  }

  /** Some bytes of command k are written. */
  ghost function Writing(script: Script, k: nat, offset: nat): State
    requires k < |script.commands| && k <= |script.expected|
  {
    State(k, offset, if offset == |script.commands[k]| > 0 then k + 1 else k, k, [], |Concat(script.expected[..k])|,
          ActivationsAfter(script, k))
  }

  /** Some bytes of reply k are read. */
  ghost function Reading(script: Script, k: nat, read: Bytes): State
    requires k + 1 < |script.commands| && k < |script.expected|
  {
    if NEWLINE in read then Writing(script, k + 1, 0)
    else State(k, |script.commands[k]|, k + 1, k, read, |Concat(script.expected[..k])| + |read|,
               ActivationsAfter(script, k))
  }

  lemma {:induction false} WriteStep(script: Script, k: nat, offset: nat, count: nat)
    requires k < |script.commands| && k <= |script.expected|
    requires 0 < count && offset + count <= |script.commands[k]|
    ensures AfterWrite(script, Writing(script, k, offset), count) == Some(Writing(script, k, offset + count))
  {
  }

  lemma {:induction false} WritesNext(before: seq<Step>, counts: seq<nat>, i: nat)
    requires i < |counts|
    ensures before + Writes(counts[..i + 1]) == before + Writes(counts[..i]) + [Write(counts[i])]
  {
  }

  lemma {:induction false} WriteOn(script: Script, before: seq<Step>, k: nat, counts: seq<nat>, i: nat)
    requires k < |script.commands| && k <= |script.expected| && i < |counts| && counts[i] > 0
    requires Quantity(counts) == |script.commands[k]|
    requires Run(script, before + Writes(counts[..i])) == Some(Writing(script, k, Quantity(counts[..i])))
    ensures Run(script, before + Writes(counts[..i + 1])) == Some(Writing(script, k, Quantity(counts[..i + 1])))
  {
    WritesNext(before, counts, i);
    RunNext(script, before + Writes(counts[..i]), Write(counts[i]));
    QuantityNext(counts, i);
    WriteStep(script, k, Quantity(counts[..i]), counts[i]);
  }

  lemma {:induction false} NoWrites(before: seq<Step>, counts: seq<nat>)
    ensures before + Writes(counts[..0]) == before && Quantity(counts[..0]) == 0
  {
  }

  lemma {:induction false} WritesTo(script: Script, before: seq<Step>, k: nat, counts: seq<nat>, n: nat)
    requires k < |script.commands| && k <= |script.expected| && n <= |counts|
    requires Run(script, before) == Some(Writing(script, k, 0)) && Quantity(counts) == |script.commands[k]|
    requires forall i: nat :: i < |counts| ==> counts[i] > 0
    ensures Run(script, before + Writes(counts[..n])) == Some(Writing(script, k, Quantity(counts[..n])))
  {
    if n == 0 {
      NoWrites(before, counts);
    } else {
      var i: nat := n - 1;
      assert i + 1 == n;
      WritesTo(script, before, k, counts, i);
      WriteOn(script, before, k, counts, i);
    }
  }

  /** A beginning of a line has its newline exactly when it is the whole line. */
  lemma {:induction false} LinePart(line: Bytes, n: nat)
    requires IsLine(line) && n <= |line|
    ensures NEWLINE in line[..n] <==> n == |line|
  {
    if n < |line| {
      assert line[..n] == line[..|line| - 1][..n];
    } else {
      assert line[..n][n - 1] == NEWLINE;
    }
  }

  lemma {:induction false} TotalHolds(parts: seq<Bytes>, k: nat, read: Bytes)
    requires k < |parts| && |read| <= |parts[k]|
    ensures |Concat(parts[..k])| + |read| <= |Concat(parts)|
  {
    ConcatLength(parts, k, k + 1);
    ConcatLength(parts, k + 1, |parts|);
    ConcatNext(parts, k);
    assert parts[..|parts|] == parts;
  }

  /** The rest of a reply is matched when its last byte comes. */
  lemma {:induction false} LineMatches(script: Script, k: nat, s: State)
    requires Playable(script) && k < |script.expected| && s.buffer == script.expected[k]
    requires s == State(k, |script.commands[k]|, k + 1, k, s.buffer, s.received, ActivationsAfter(script, k))
    requires s.received == |Concat(script.expected[..k + 1])|
    ensures AfterLines(script, s, true) == Some(Writing(script, k + 1, 0))
  {
    FirstIs(s.buffer, |s.buffer| - 1);
    assert s.buffer[..|s.buffer|] == s.buffer && s.buffer[|s.buffer|..] == [];
    var next := AfterLine(script, s, true);
    assert next == Some(Writing(script, k + 1, 0));
    assert AfterLines(script, next.value, true) == next;
  }

  lemma {:induction false} ChunkStep(script: Script, k: nat, read: Bytes, chunk: Bytes)
    requires Playable(script) && k < |script.expected| && StartsWith(script.expected[k], read + chunk)
    ensures AfterRead(script, Reading(script, k, read), chunk, true) == Some(Reading(script, k, read + chunk))
  {
    var reply, s := script.expected[k], Reading(script, k, read);
    assert reply[..|read|] == read by {
      assert reply[..|read + chunk|][..|read|] == read;
    }
    LinePart(reply, |read|);
    LinePart(reply, |read + chunk|);
    ConcatNext(script.expected, k);
    TotalHolds(script.expected, k, read + chunk);
    if NEWLINE in read {
      assert chunk == [] && [] + chunk == [];
      assert Delivered(s, chunk) == s;
    } else if NEWLINE in read + chunk {
      assert read + chunk == reply;
      LineMatches(script, k, Delivered(s, chunk));
    }
  }

  lemma {:induction false} ReadsNext(before: seq<Step>, chunks: seq<Bytes>, i: nat)
    requires i < |chunks|
    ensures before + Reads(chunks[..i + 1]) == before + Reads(chunks[..i]) + [Read(chunks[i], true)]
  {
  }

  lemma {:induction false} ReadOn(script: Script, before: seq<Step>, k: nat, chunks: seq<Bytes>, i: nat)
    requires Playable(script) && k < |script.expected| && i < |chunks| && Concat(chunks) == script.expected[k]
    requires Run(script, before + Reads(chunks[..i])) == Some(Reading(script, k, Concat(chunks[..i])))
    ensures Run(script, before + Reads(chunks[..i + 1])) == Some(Reading(script, k, Concat(chunks[..i + 1])))
  {
    ReadsNext(before, chunks, i);
    RunNext(script, before + Reads(chunks[..i]), Read(chunks[i], true));
    ConcatNext(chunks, i);
    PartsBegin(chunks, i + 1);
    ChunkStep(script, k, Concat(chunks[..i]), chunks[i]);
  }

  lemma {:induction false} NoReads(before: seq<Step>, chunks: seq<Bytes>)
    ensures before + Reads(chunks[..0]) == before && Concat(chunks[..0]) == []
  {
  }

  lemma {:induction false} ReadsTo(script: Script, before: seq<Step>, k: nat, chunks: seq<Bytes>, n: nat)
    requires Playable(script) && k < |script.expected| && n <= |chunks| && Concat(chunks) == script.expected[k]
    requires Run(script, before) == Some(Reading(script, k, []))
    ensures Run(script, before + Reads(chunks[..n])) == Some(Reading(script, k, Concat(chunks[..n])))
  {
    if n == 0 {
      NoReads(before, chunks);
    } else {
      var i: nat := n - 1;
      assert i + 1 == n;
      ReadsTo(script, before, k, chunks, i);
      ReadOn(script, before, k, chunks, i);
    }
  }

  lemma {:induction false} CommandWritten(script: Script, cut: Cut, before: seq<Step>, k: nat)
    requires Playable(script) && Cuts(script, cut) && k < |script.commands|
    requires Run(script, before) == Some(Writing(script, k, 0))
    ensures Run(script, before + Writes(cut.commands[k])) == Some(Writing(script, k, |script.commands[k]|))
  {
    var counts := cut.commands[k];
    WritesTo(script, before, k, counts, |counts|);
    assert counts[..|counts|] == counts;
  }

  lemma {:induction false} ReplyRead(script: Script, cut: Cut, before: seq<Step>, k: nat)
    requires Playable(script) && Cuts(script, cut) && k < |script.expected|
    requires Run(script, before) == Some(Writing(script, k, |script.commands[k]|))
    ensures Run(script, before + Reads(cut.replies[k])) == Some(Writing(script, k + 1, 0))
  {
    var chunks := cut.replies[k];
    ReadsTo(script, before, k, chunks, |chunks|);
    assert chunks[..|chunks|] == chunks;
    LinePart(script.expected[k], |script.expected[k]|);
    assert script.expected[k][..|script.expected[k]|] == script.expected[k];
  }

  lemma {:induction false} RoundOn(script: Script, cut: Cut, k: nat)
    requires Playable(script) && Cuts(script, cut) && k < |script.expected|
    requires Run(script, Rounds(cut, k)) == Some(Writing(script, k, 0))
    ensures Run(script, Rounds(cut, k + 1)) == Some(Writing(script, k + 1, 0))
  {
    CommandWritten(script, cut, Rounds(cut, k), k);
    ReplyRead(script, cut, Rounds(cut, k) + Writes(cut.commands[k]), k);
  }

  lemma {:induction false} RoundsTo(script: Script, cut: Cut, n: nat)
    requires Playable(script) && Cuts(script, cut) && n <= |script.expected|
    ensures Run(script, Rounds(cut, n)) == Some(Writing(script, n, 0))
  {
    if n > 0 {
      var k: nat := n - 1;
      assert k + 1 == n;
      RoundsTo(script, cut, k);
      RoundOn(script, cut, k);
    }
  }

  /** Every script with one command more than replies has a passing run for every cutting of its bytes. */
  lemma {:induction false} EveryCuttingPasses(script: Script, cut: Cut)
    requires Playable(script) && Cuts(script, cut)
    ensures Passes(script, Whole(script, cut))
  {
    var last := |script.expected|;
    RoundsTo(script, cut, last);
    CommandWritten(script, cut, Rounds(cut, last), last);
  }

  /** No other script has a passing run. */
  lemma {:induction false} OnlyPlayablePasses(script: Script, steps: seq<Step>)
    requires |script.commands| > 0 && Passes(script, steps)
    ensures Playable(script)
  {
    RunStands(script, steps);
    PassingRun(script, steps);
    PassesExactly(script, steps);
  }
}
