/** The writer verdict of a lane depends on differences of its service clock only. */
module WriterShift {
  import opened WriterTrace

  /** The same bracket, its four readings `delta` later. */
  ghost predicate RawMoved(a: Interval, b: Interval, delta: int) {
    && b.ordinal == a.ordinal && b.command == a.command && b.changed == a.changed
    && b.beforeBegin == a.beforeBegin + delta && b.afterBegin == a.afterBegin + delta
    && b.beforeCommit == a.beforeCommit + delta && b.afterCommit == a.afterCommit + delta
    && b.bracketElapsed == a.bracketElapsed && b.insideElapsed == a.insideElapsed
  }

  ghost predicate Moved(rows: seq<Row>, moved: seq<Row>, delta: int) {
    |rows| == |moved| && forall i :: 0 <= i < |rows| ==>
      moved[i].item == rows[i].item
      && RawMoved(rows[i].raw, moved[i].raw, delta)
  }

  ghost predicate WindowMoved(w: Window, v: Window, delta: int) {
    v.start == w.start + delta && v.stop == w.stop + delta && v.clockReads == w.clockReads
  }

  lemma {:induction false} MovedInit(rows: seq<Row>, moved: seq<Row>, delta: int)
    requires Moved(rows, moved, delta) && |rows| > 0
    ensures Moved(rows[..|rows| - 1], moved[..|rows| - 1], delta)
    ensures moved[|rows| - 1].item == rows[|rows| - 1].item
            && RawMoved(rows[|rows| - 1].raw, moved[|rows| - 1].raw, delta)
  {
  }

  ghost predicate IntervalsMoved(a: seq<Interval>, b: seq<Interval>, delta: int) {
    |a| == |b| && forall i :: 0 <= i < |a| ==> RawMoved(a[i], b[i], delta)
  }

  lemma {:induction false} RawsMoved(rows: seq<Row>, moved: seq<Row>, delta: int)
    requires Moved(rows, moved, delta)
    ensures IntervalsMoved(Intervals(rows), Intervals(moved), delta)
  {
    if |rows| > 0 {
      MovedInit(rows, moved, delta);
      RawsMoved(rows[..|rows| - 1], moved[..|rows| - 1], delta);
    }
  }

  lemma {:induction false} OrderMoved(a: seq<Interval>, b: seq<Interval>, delta: int)
    requires IntervalsMoved(a, b, delta)
    ensures InOrder(b) <==> InOrder(a)
  {
    if |a| > 0 {
      OrderMoved(a[..|a| - 1], b[..|a| - 1], delta);
      assert RawMoved(a[|a| - 1], b[|a| - 1], delta);
      if |a| > 1 {
        assert RawMoved(a[|a| - 2], b[|a| - 2], delta);
      }
    }
  }

  lemma {:induction false} CountsAdd(a: seq<int>, b: seq<int>, stop: int)
    ensures CountBelow(a + b, stop) == CountBelow(a, stop) + CountBelow(b, stop)
    ensures CountThrough(a + b, stop) == CountThrough(a, stop) + CountThrough(b, stop)
  {
    if |b| == 0 {
      assert a + b == a;
    } else {
      CountsAdd(a, b[..|b| - 1], stop);
      assert (a + b)[..|a + b| - 1] == a + b[..|b| - 1];
    }
  }

  lemma {:induction false} CountsShift(s: seq<int>, t: seq<int>, delta: int, stop: int)
    requires |s| == |t| && forall i :: 0 <= i < |s| ==> t[i] == s[i] + delta
    ensures CountBelow(t, stop + delta) == CountBelow(s, stop) && CountThrough(t, stop + delta) == CountThrough(s, stop)
  {
    if |s| > 0 {
      CountsShift(s[..|s| - 1], t[..|s| - 1], delta, stop);
    }
  }

  lemma {:induction false} ReadsMoved(a: seq<Interval>, b: seq<Interval>, delta: int, stop: int)
    requires IntervalsMoved(a, b, delta)
    ensures CountBelow(Readings(b), stop + delta) == CountBelow(Readings(a), stop)
    ensures CountThrough(Readings(b), stop + delta) == CountThrough(Readings(a), stop)
  {
    if |a| > 0 {
      var i, j := a[|a| - 1], b[|a| - 1];
      var s, t := [i.beforeBegin, i.afterBegin, i.beforeCommit, i.afterCommit],
        [j.beforeBegin, j.afterBegin, j.beforeCommit, j.afterCommit];
      ReadsMoved(a[..|a| - 1], b[..|a| - 1], delta, stop);
      assert RawMoved(i, j, delta);
      CountsShift(s, t, delta, stop);
      CountsAdd(Readings(a[..|a| - 1]), s, stop);
      CountsAdd(Readings(b[..|a| - 1]), t, stop + delta);
    }
  }

  lemma {:induction false} ClassMoved(w: Window, v: Window, a: Interval, b: Interval, delta: int)
    requires WindowMoved(w, v, delta) && RawMoved(a, b, delta)
    ensures Classify(b.beforeBegin, b.afterCommit, v.start, v.stop)
            == Classify(a.beforeBegin, a.afterCommit, w.start, w.stop)
  {
  }

  lemma {:induction false} ProgressMoved(lane: Lane, rows: seq<Row>, moved: seq<Row>, delta: int)
    requires Moved(rows, moved, delta)
    ensures ProgressOf(lane, moved) == ProgressOf(lane, rows)
  {
    if |rows| > 0 {
      MovedInit(rows, moved, delta);
      ProgressMoved(lane, rows[..|rows| - 1], moved[..|rows| - 1], delta);
    }
  }

  lemma {:induction false} AdmitMoved(lane: Lane, w: Window, v: Window, rows: seq<Row>, moved: seq<Row>, delta: int)
    requires Moved(rows, moved, delta) && WindowMoved(w, v, delta)
    ensures AdmitAll(lane, v, moved) == AdmitAll(lane, w, rows)
  {
    if |rows| > 0 {
      MovedInit(rows, moved, delta);
      AdmitMoved(lane, w, v, rows[..|rows| - 1], moved[..|rows| - 1], delta);
      ProgressMoved(lane, rows[..|rows| - 1], moved[..|rows| - 1], delta);
      ClassMoved(w, v, rows[|rows| - 1].raw, moved[|rows| - 1].raw, delta);
    }
  }

  lemma {:induction false} SamplesMoved(w: Window, v: Window, rows: seq<Row>, moved: seq<Row>, delta: int, key: Key)
    requires Moved(rows, moved, delta) && WindowMoved(w, v, delta)
    ensures SampleOf(v, moved, key) == SampleOf(w, rows, key) && Pooled(moved) == Pooled(rows)
  {
    if |rows| > 0 {
      MovedInit(rows, moved, delta);
      SamplesMoved(w, v, rows[..|rows| - 1], moved[..|rows| - 1], delta, key);
      ClassMoved(w, v, rows[|rows| - 1].raw, moved[|rows| - 1].raw, delta);
    }
  }

  lemma {:induction false} ReportMoved(lane: Lane, w: Window, v: Window, rows: seq<Row>, moved: seq<Row>, delta: int,
                                       report: Report)
    requires Moved(rows, moved, delta) && WindowMoved(w, v, delta)
    ensures ReportMatches(lane, v, moved, report) <==> ReportMatches(lane, w, rows, report)
  {
    forall i | 0 <= i < |KEYS| ensures SampleOf(v, moved, KEYS[i]) == SampleOf(w, rows, KEYS[i]) {
      SamplesMoved(w, v, rows, moved, delta, KEYS[i]);
    }
    SamplesMoved(w, v, rows, moved, delta, Key(Control, Inside));
  }

  lemma {:induction false} ClockMoved(w: Window, v: Window, rows: seq<Row>, moved: seq<Row>, delta: int)
    requires Moved(rows, moved, delta) && WindowMoved(w, v, delta)
    ensures InOrder(Intervals(moved)) <==> InOrder(Intervals(rows))
    ensures ReadsCorrelate(v, Intervals(moved)) <==> ReadsCorrelate(w, Intervals(rows))
  {
    RawsMoved(rows, moved, delta);
    OrderMoved(Intervals(rows), Intervals(moved), delta);
    ReadsMoved(Intervals(rows), Intervals(moved), delta, w.stop);
  }

  /** Moving all service-clock readings of a lane, its window included, leaves the verdict unchanged. */
  lemma {:induction false} VerdictMoved(lane: Lane, totalCalls: int, w: Window, v: Window, rows: seq<Row>,
                                        moved: seq<Row>, delta: int, report: Report)
    requires Moved(rows, moved, delta) && WindowMoved(w, v, delta)
    ensures Verdict(lane, totalCalls, v, moved, report) == Verdict(lane, totalCalls, w, rows, report)
  {
    ClockMoved(w, v, rows, moved, delta);
    AdmitMoved(lane, w, v, rows, moved, delta);
    ProgressMoved(lane, rows, moved, delta);
    ReportMoved(lane, w, v, rows, moved, delta, report);
  }
}
