/** What accepted writer rows say as a whole. */
module WriterLaws {
  import opened Wrappers
  import opened Counting
  import opened WriterTrace

  // ---- the exact language of originals --------------------------------------------------------------

  /** The row's original, as its place in the lane's calls; -1 for a control row. */
  ghost function Marks(lane: Lane, rows: seq<Row>): seq<int> {
    if |rows| == 0 then [] else Marks(lane, rows[..|rows| - 1]) + [Mark(lane, rows[|rows| - 1].item)]
  }

  ghost function Mark(lane: Lane, item: Attribution): int {
    if item.cohort == Control then -1 else Rank(lane, item)
  }

  ghost function Repeat(mark: int, n: nat): seq<int> {
    if n == 0 then [] else Repeat(mark, n - 1) + [mark]
  }

  /** Control rows, then one block per original: `C* 0+ C* 1+ ... C*`, with the given lengths. */
  ghost function Expand(gaps: seq<nat>, blocks: seq<nat>): seq<int>
    requires |gaps| == |blocks| + 1
    decreases |blocks|
  {
    var n := |blocks|;
    if n == 0 then Repeat(-1, gaps[0])
    else Expand(gaps[..n], blocks[..n - 1]) + Repeat(n - 1, blocks[n - 1]) + Repeat(-1, gaps[n])
  }

  ghost predicate AllPositive(blocks: seq<nat>) {
    forall i :: 0 <= i < |blocks| ==> blocks[i] > 0
  }

  /** `marks` is in the language with exactly `total` originals. */
  ghost predicate InLanguage(marks: seq<int>, total: nat) {
    exists gaps: seq<nat>, blocks: seq<nat> :: Spells(marks, gaps, blocks, total)
  }

  ghost predicate Spells(marks: seq<int>, gaps: seq<nat>, blocks: seq<nat>, total: nat) {
    |gaps| == |blocks| + 1 && |blocks| == total && AllPositive(blocks) && marks == Expand(gaps, blocks)
  }

  // ---- the automaton on marks -----------------------------------------------------------------------

  datatype Head = Head(last: int, closed: bool)

  ghost function HeadAfter(h: Head, mark: int): Head {
    if mark == -1 then (if h.last >= 0 then Head(h.last, true) else h)
    else if mark == h.last then h
    else Head(mark, false)
  }

  ghost function HeadOf(marks: seq<int>): Head {
    if |marks| == 0 then Head(-1, false) else HeadAfter(HeadOf(marks[..|marks| - 1]), marks[|marks| - 1])
  }

  ghost predicate MarkFits(h: Head, mark: int) {
    mark == -1 || (mark >= 0 && h.last <= mark <= h.last + 1 && !(mark == h.last && h.closed))
  }

  ghost predicate Runs(marks: seq<int>) {
    |marks| == 0 || (Runs(marks[..|marks| - 1]) && MarkFits(HeadOf(marks[..|marks| - 1]), marks[|marks| - 1]))
  }

  lemma {:induction false} RunsOn(marks: seq<int>, mark: int)
    ensures Runs(marks + [mark]) <==> Runs(marks) && MarkFits(HeadOf(marks), mark)
    ensures HeadOf(marks + [mark]) == HeadAfter(HeadOf(marks), mark)
  {
    assert (marks + [mark])[..|marks|] == marks;
  }

  /** What the automaton knows after a spelled word. */
  ghost function HeadSpelled(gaps: seq<nat>, blocks: seq<nat>): Head
    requires |gaps| == |blocks| + 1
  {
    Head(|blocks| - 1, |blocks| > 0 && gaps[|blocks|] > 0)
  }

  /** One more control row lengthens the last gap. */
  lemma {:induction false} ExpandControl(gaps: seq<nat>, blocks: seq<nat>)
    requires |gaps| == |blocks| + 1
    ensures var n := |blocks|; Expand(gaps[n := gaps[n] + 1], blocks) == Expand(gaps, blocks) + [-1]
  {
    var n := |blocks|;
    var more := gaps[n := gaps[n] + 1];
    assert more[..n] == gaps[..n];
    assert Repeat(-1, more[n]) == Repeat(-1, gaps[n]) + [-1];
    if n > 0 {
      Associate(Expand(gaps[..n], blocks[..n - 1]) + Repeat(n - 1, blocks[n - 1]), Repeat(-1, gaps[n]), [-1]);
    }
  }

  /** With no gap after it, the last block grows. */
  lemma {:induction false} ExpandSame(gaps: seq<nat>, blocks: seq<nat>)
    requires |gaps| == |blocks| + 1 && |blocks| > 0 && gaps[|blocks|] == 0
    ensures var n := |blocks|; Expand(gaps, blocks[n - 1 := blocks[n - 1] + 1]) == Expand(gaps, blocks) + [n - 1]
  {
    var n := |blocks|;
    var more := blocks[n - 1 := blocks[n - 1] + 1];
    assert more[..n - 1] == blocks[..n - 1];
    assert Repeat(-1, 0) == [];
    assert Expand(gaps, more) == Expand(gaps[..n], blocks[..n - 1]) + (Repeat(n - 1, blocks[n - 1]) + [n - 1]);
  }

  /** The next original opens a new block. */
  lemma {:induction false} ExpandNext(gaps: seq<nat>, blocks: seq<nat>)
    requires |gaps| == |blocks| + 1
    ensures Expand(gaps + [0], blocks + [1]) == Expand(gaps, blocks) + [|blocks|]
  {
    var n := |blocks|;
    assert (gaps + [0])[..n + 1] == gaps && (blocks + [1])[..n] == blocks;
    assert Repeat(n, 1) == Repeat(n, 0) + [n] == [n];
  }

  lemma {:induction false} SpelledStep(gaps: seq<nat>, blocks: seq<nat>, mark: int) returns (moreGaps: seq<nat>,
                                       moreBlocks: seq<nat>)
    requires |gaps| == |blocks| + 1 && AllPositive(blocks) && MarkFits(HeadSpelled(gaps, blocks), mark)
    ensures |moreGaps| == |moreBlocks| + 1 && AllPositive(moreBlocks)
    ensures Expand(moreGaps, moreBlocks) == Expand(gaps, blocks) + [mark]
    ensures HeadSpelled(moreGaps, moreBlocks) == HeadAfter(HeadSpelled(gaps, blocks), mark)
  {
    var n := |blocks|;
    if mark == -1 {
      ExpandControl(gaps, blocks);
      moreGaps, moreBlocks := gaps[n := gaps[n] + 1], blocks;
    } else if mark == n - 1 {
      ExpandSame(gaps, blocks);
      moreGaps, moreBlocks := gaps, blocks[n - 1 := blocks[n - 1] + 1];
    } else {
      ExpandNext(gaps, blocks);
      moreGaps, moreBlocks := gaps + [0], blocks + [1];
    }
  }

  /** A word the automaton runs over is spelled by some gaps and blocks. */
  lemma {:induction false} RunsAreSpelled(marks: seq<int>) returns (gaps: seq<nat>, blocks: seq<nat>)
    requires Runs(marks)
    ensures |gaps| == |blocks| + 1 && AllPositive(blocks) && marks == Expand(gaps, blocks)
    ensures HeadOf(marks) == HeadSpelled(gaps, blocks)
  {
    if |marks| == 0 {
      gaps, blocks := [0], [];
    } else {
      gaps, blocks := RunsAreSpelled(marks[..|marks| - 1]);
      gaps, blocks := SpelledStep(gaps, blocks, marks[|marks| - 1]);
    }
  }

  lemma {:induction false} RepeatNext(marks: seq<int>, mark: int, n: nat)
    requires n > 0
    ensures marks + Repeat(mark, n) == marks + Repeat(mark, n - 1) + [mark]
  {
  }

  lemma {:induction false} ControlRuns(marks: seq<int>, n: nat)
    requires Runs(marks)
    ensures Runs(marks + Repeat(-1, n))
    ensures HeadOf(marks + Repeat(-1, n)) == if n == 0 then HeadOf(marks) else HeadAfter(HeadOf(marks), -1)
  {
    if n == 0 {
      assert marks + Repeat(-1, 0) == marks;
    } else {
      ControlRuns(marks, n - 1);
      RepeatNext(marks, -1, n);
      RunsOn(marks + Repeat(-1, n - 1), -1);
    }
  }

  lemma {:induction false} BlockRuns(marks: seq<int>, mark: nat, n: nat)
    requires Runs(marks) && n > 0 && HeadOf(marks).last == mark - 1
    ensures Runs(marks + Repeat(mark, n)) && HeadOf(marks + Repeat(mark, n)) == Head(mark, false)
  {
    if n == 1 {
      assert marks + Repeat(mark, 0) == marks;
    } else {
      BlockRuns(marks, mark, n - 1);
    }
    RepeatNext(marks, mark, n);
    RunsOn(marks + Repeat(mark, n - 1), mark);
  }

  /** Every spelled word is run over. */
  lemma {:induction false} SpelledRuns(gaps: seq<nat>, blocks: seq<nat>)
    requires |gaps| == |blocks| + 1 && AllPositive(blocks)
    ensures Runs(Expand(gaps, blocks)) && HeadOf(Expand(gaps, blocks)) == HeadSpelled(gaps, blocks)
    decreases |blocks|
  {
    var n := |blocks|;
    if n == 0 {
      ControlRuns([], gaps[0]);
      assert [] + Repeat(-1, gaps[0]) == Repeat(-1, gaps[0]);
    } else {
      var before := Expand(gaps[..n], blocks[..n - 1]);
      SpelledRuns(gaps[..n], blocks[..n - 1]);
      BlockRuns(before, n - 1, blocks[n - 1]);
      ControlRuns(before + Repeat(n - 1, blocks[n - 1]), gaps[n]);
    }
  }

  /** The automaton with its final state accepts exactly the language. */
  lemma {:induction false} RunsExactly(marks: seq<int>, total: nat)
    ensures Runs(marks) && HeadOf(marks).last == total - 1 <==> InLanguage(marks, total)
  {
    if Runs(marks) && HeadOf(marks).last == total - 1 {
      var gaps, blocks := RunsAreSpelled(marks);
      assert Spells(marks, gaps, blocks, total);
    }
    if InLanguage(marks, total) {
      var gaps: seq<nat>, blocks: seq<nat> :| Spells(marks, gaps, blocks, total);
      SpelledRuns(gaps, blocks);
    }
  }

  /** Originals appear in order. */
  ghost predicate Ascending(marks: seq<int>) {
    forall i, j :: 0 <= i < j < |marks| && marks[i] >= 0 && marks[j] >= 0 ==> marks[i] <= marks[j]
  }

  /** Each is one contiguous block. */
  ghost predicate Contiguous(marks: seq<int>) {
    forall i, k, j :: 0 <= i < k < j < |marks| && marks[i] == marks[j] >= 0 ==> marks[k] == marks[i]
  }

  /** They are the calls below `total`, and none is skipped. */
  ghost predicate Covers(marks: seq<int>, total: int) {
    (forall i :: 0 <= i < |marks| ==> -1 <= marks[i] < total) && (forall r :: 0 <= r < total ==> r in marks)
  }

  ghost predicate InBlocks(marks: seq<int>, total: int) {
    Ascending(marks) && Contiguous(marks) && Covers(marks, total)
  }

  /** What follows the latest original: nothing but itself until it is closed. */
  ghost predicate Tail(marks: seq<int>, h: Head) {
    !h.closed && h.last >= 0 ==> forall i, j :: 0 <= i < j < |marks| && marks[i] == h.last ==> marks[j] == h.last
  }

  lemma {:induction false} CoversStep(init: seq<int>, h: Head, mark: int)
    requires Covers(init, h.last + 1) && h.last >= -1 && MarkFits(h, mark)
    ensures Covers(init + [mark], HeadAfter(h, mark).last + 1)
  {
    forall r | 0 <= r < HeadAfter(h, mark).last + 1 ensures r in init + [mark] {
      assert r in init || r == mark;
    }
  }

  lemma {:induction false} AscendingStep(init: seq<int>, h: Head, mark: int)
    requires Ascending(init) && Covers(init, h.last + 1) && MarkFits(h, mark)
    ensures Ascending(init + [mark])
  {
  }

  lemma {:induction false} ContiguousStep(init: seq<int>, h: Head, mark: int)
    requires Contiguous(init) && Covers(init, h.last + 1) && Tail(init, h) && MarkFits(h, mark) && h.last >= -1
    ensures Contiguous(init + [mark]) && Tail(init + [mark], HeadAfter(h, mark))
  {
  }

  lemma {:induction false} BlocksStep(init: seq<int>, h: Head, mark: int)
    requires InBlocks(init, h.last + 1) && Tail(init, h) && MarkFits(h, mark) && h.last >= -1
    ensures var after := HeadAfter(h, mark);
            after.last >= -1 && InBlocks(init + [mark], after.last + 1) && Tail(init + [mark], after)
  {
    CoversStep(init, h, mark);
    AscendingStep(init, h, mark);
    ContiguousStep(init, h, mark);
  }

  lemma {:induction false} RunsInBlocks(marks: seq<int>)
    requires Runs(marks)
    ensures var h := HeadOf(marks); h.last >= -1 && InBlocks(marks, h.last + 1) && Tail(marks, h)
  {
    if |marks| > 0 {
      var init, mark := marks[..|marks| - 1], marks[|marks| - 1];
      LastOff(marks);
      RunsInBlocks(init);
      BlocksStep(init, HeadOf(init), mark);
    }
  }

  // ---- the attribution loop runs this automaton ---------------------------------------------------------

  /** What the loop demands of a row by itself. */
  ghost predicate RowSound(lane: Lane, window: Window, row: Row, index: nat) {
    && row.item.ordinal == index + 1
    && (if row.item.cohort == Control then
          row.raw.command == ControlCommand && row.item.originalOrdinal.None? && row.item.digest.None?
        else
          && row.item.originalOrdinal.Some? && 0 <= row.item.originalOrdinal.value < Reserved(lane, row.item.cohort)
          && row.item.digest == Some(Command(row.item.cohort, row.item.originalOrdinal.value))
             && row.raw.command == ApplicationOriginal)
    && row.item.windowClass == Classify(row.raw.beforeBegin, row.raw.afterCommit, window.start, window.stop)
    && row.item.changed == row.raw.changed && row.item.bracketElapsed == row.raw.bracketElapsed
    && row.item.insideElapsed == row.raw.insideElapsed
  }

  ghost predicate AllSound(lane: Lane, window: Window, rows: seq<Row>) {
    forall i :: 0 <= i < |rows| ==> RowSound(lane, window, rows[i], i)
  }

  lemma {:induction false} AdmitSplits(lane: Lane, window: Window, rows: seq<Row>, row: Row)
    requires 0 <= lane.warmupCalls
    ensures AdmitAttribution(lane, window, rows, row).Met? <==>
              RowSound(lane, window, row, |rows|)
              && MarkFits(Head(ProgressOf(lane, rows).lastRank, ProgressOf(lane, rows).closed), Mark(lane, row.item))
  {
  }

  lemma {:induction false} ProgressIsHead(lane: Lane, window: Window, p: Progress, row: Row, index: nat)
    requires RowSound(lane, window, row, index) && 0 <= lane.warmupCalls
    ensures var after := ProgressAfter(lane, p, row.item);
            Head(after.lastRank, after.closed) == HeadAfter(Head(p.lastRank, p.closed), Mark(lane, row.item))
  {
  }

  lemma {:induction false} LoopRuns(lane: Lane, window: Window, rows: seq<Row>)
    requires 0 <= lane.warmupCalls
    ensures AdmitAll(lane, window, rows).Met? <==> AllSound(lane, window, rows) && Runs(Marks(lane, rows))
    ensures AllSound(lane, window, rows) ==>
            Head(ProgressOf(lane, rows).lastRank, ProgressOf(lane, rows).closed) ==
            HeadOf(Marks(lane, rows))
  {
    if |rows| > 0 {
      var init, row := rows[..|rows| - 1], rows[|rows| - 1];
      LoopRuns(lane, window, init);
      AdmitSplits(lane, window, init, row);
      SoundStep(lane, window, rows);
      RunsOn(Marks(lane, init), Mark(lane, row.item));
      if RowSound(lane, window, row, |init|) {
        ProgressIsHead(lane, window, ProgressOf(lane, init), row, |init|);
      }
    }
  }

  lemma {:induction false} SoundStep(lane: Lane, window: Window, rows: seq<Row>)
    requires |rows| > 0
    ensures AllSound(lane, window, rows) <==>
              AllSound(lane, window, rows[..|rows| - 1]) && RowSound(lane, window, rows[|rows| - 1], |rows| - 1)
  {
    var init := rows[..|rows| - 1];
    assert forall i :: 0 <= i < |init| ==> init[i] == rows[i];
  }

  // ---- counting the originals ------------------------------------------------------------------------

  /** What the two counters say about the latest original, whatever was reserved. */
  ghost predicate CountersSound(lane: Lane, p: Progress) {
    && -1 <= p.lastRank && p.warmup + p.measurement == p.lastRank + 1
    && 0 <= p.warmup <= lane.warmupReserved && 0 <= p.measurement <= lane.measuredReserved
    && (p.measurement > 0 ==> p.measurement <= p.lastRank + 1 - lane.warmupCalls)
    && (p.lastRank < lane.warmupReserved || p.lastRank < lane.warmupCalls + lane.measuredReserved)
  }

  ghost predicate Counts(lane: Lane) {
    0 <= lane.warmupCalls && 0 <= lane.warmupReserved && 0 <= lane.measuredReserved
  }

  lemma {:induction false} OriginalsCounted(lane: Lane, window: Window, rows: seq<Row>)
    requires Counts(lane) && AdmitAll(lane, window, rows).Met?
    ensures CountersSound(lane, ProgressOf(lane, rows))
  {
    if |rows| > 0 {
      var init := rows[..|rows| - 1];
      OriginalsCounted(lane, window, init);
      AdmitSplits(lane, window, init, rows[|rows| - 1]);
    }
  }

  /** The counters are complete exactly when the last original was seen. */
  lemma {:induction false} CompleteAtLast(lane: Lane, window: Window, rows: seq<Row>)
    requires Counts(lane) && AdmitAll(lane, window, rows).Met?
    ensures Complete(lane, rows) <==> ProgressOf(lane, rows).lastRank == lane.warmupReserved + lane.measuredReserved - 1
  {
    OriginalsCounted(lane, window, rows);
  }

  /** The loop and its completeness check accept exactly the rows that are sound one by one and whose
      originals spell the whole language: every call of the lane in order, warmup first, one block each. */
  lemma {:induction false} AttributionExactly(lane: Lane, window: Window, rows: seq<Row>)
    requires Counts(lane)
    ensures AdmitAll(lane, window, rows).Met? && Complete(lane, rows) <==>
              AllSound(lane, window, rows) && InLanguage(Marks(lane, rows), lane.warmupReserved + lane.measuredReserved)
  {
    var total: nat := lane.warmupReserved + lane.measuredReserved;
    var admitted, sound, runs := AdmitAll(lane, window, rows).Met?, AllSound(lane, window, rows),
      Runs(Marks(lane, rows));
    var last := HeadOf(Marks(lane, rows)).last;
    assert (admitted <==> sound && runs) && (sound ==> ProgressOf(lane, rows).lastRank == last) by {
      LoopRuns(lane, window, rows);
    }
    assert admitted ==> (Complete(lane, rows) <==> last == total - 1) by {
      if admitted {
        CompleteAtLast(lane, window, rows);
      }
    }
    assert runs && last == total - 1 <==> InLanguage(Marks(lane, rows), total) by {
      RunsExactly(Marks(lane, rows), total);
    }
  }

  ghost predicate Complete(lane: Lane, rows: seq<Row>) {
    ProgressOf(lane, rows).warmup == lane.warmupReserved && ProgressOf(lane, rows).measurement == lane.measuredReserved
  }

  /** Accepted rows: each original once, in order and in one piece. */
  lemma {:induction false} AttributionInBlocks(lane: Lane, window: Window, rows: seq<Row>)
    requires Counts(lane) && AdmitAll(lane, window, rows).Met? && Complete(lane, rows)
    ensures InBlocks(Marks(lane, rows), lane.warmupReserved + lane.measuredReserved)
  {
    LoopRuns(lane, window, rows);
    OriginalsCounted(lane, window, rows);
    RunsInBlocks(Marks(lane, rows));
  }

  /** Where measured originals were reserved, completeness takes exactly the planned warmup: with fewer warmup
      calls the measured ranks are out of reach, with more they coincide with warmup ranks. */
  lemma {:induction false} CompleteNeedsWarmup(lane: Lane, window: Window, rows: seq<Row>)
    requires Counts(lane) && AdmitAll(lane, window, rows).Met? && Complete(lane, rows)
    ensures lane.measuredReserved > 0 ==> lane.warmupReserved == lane.warmupCalls
  {
    OriginalsCounted(lane, window, rows);
  }

  lemma {:induction false} MarksAt(lane: Lane, rows: seq<Row>)
    ensures |Marks(lane, rows)| == |rows|
    ensures forall i :: 0 <= i < |rows| ==> Marks(lane, rows)[i] == Mark(lane, rows[i].item)
  {
    if |rows| > 0 {
      MarksAt(lane, rows[..|rows| - 1]);
    }
  }

  lemma {:induction false} RanksApart(lane: Lane, window: Window, rows: seq<Row>, i: nat, j: nat)
    requires Counts(lane) && AdmitAll(lane, window, rows).Met? && Complete(lane, rows)
    requires i < |rows| && j < |rows| && rows[i].item.cohort == Warmup && rows[j].item.cohort == Measurement
    ensures 0 <= Rank(lane, rows[i].item) < lane.warmupCalls <= Rank(lane, rows[j].item)
  {
    LoopRuns(lane, window, rows);
    CompleteNeedsWarmup(lane, window, rows);
    assert RowSound(lane, window, rows[i], i) && RowSound(lane, window, rows[j], j);
  }

  /** Accepted rows: every warmup row precedes every measured one. */
  lemma {:induction false} WarmupFirst(lane: Lane, window: Window, rows: seq<Row>, i: nat, j: nat)
    requires Counts(lane) && AdmitAll(lane, window, rows).Met? && Complete(lane, rows)
    requires i < |rows| && j < |rows| && rows[i].item.cohort == Warmup && rows[j].item.cohort == Measurement
    ensures i < j
  {
    AttributionInBlocks(lane, window, rows);
    MarksAt(lane, rows);
    RanksApart(lane, window, rows, i, j);
    assert Ascending(Marks(lane, rows));
  }

  /** When fewer warmup calls were reserved than planned, no measured original can be attributed. */
  lemma {:induction false} ShortWarmupBlocks(lane: Lane, window: Window, rows: seq<Row>)
    requires 0 <= lane.warmupReserved < lane.warmupCalls && AdmitAll(lane, window, rows).Met?
    ensures -1 <= ProgressOf(lane, rows).lastRank < lane.warmupReserved && ProgressOf(lane, rows).measurement == 0
  {
    if |rows| > 0 {
      ShortWarmupBlocks(lane, window, rows[..|rows| - 1]);
      AdmitSplits(lane, window, rows[..|rows| - 1], rows[|rows| - 1]);
    }
  }
}
