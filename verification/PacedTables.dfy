/** The tables that the paced checker updates in place, after each prefix of the rows. */
module PacedTables {
  import opened Wrappers
  import opened Recorder
  import opened PacedTrace

  /** Requests, lanes and the queue. */
  datatype Dispatcher = Dispatcher(
    items: seq<Item>, occupied: map<int, int>, fifo: seq<int>, ordinals: map<int, int>, peak: int)

  /** Clock readings and counters. */
  datatype Progress = Progress(previous: Option<int>, lastStart: Option<int>, entries: int, withdrawn: int,
    finalized: bool)

  datatype SeriesState = SeriesState(group: Group, samples: Samples, span: Span)

  const NO_DISPATCHER := Dispatcher([], map[], [], map[], 0)
  const NO_PROGRESS := Progress(None, None, 0, 0, false)
  const NO_SERIES := SeriesState(NO_GROUP, NO_SAMPLES, NO_SPAN)

  function DispatcherAfter(core: Core, d: Dispatcher, event: Event): Dispatcher {
    var fifo := FifoAfter(d.fifo, event);
    Dispatcher(
      ItemsAfter(core, d.items, event), OccupiedAfter(d.items, d.occupied, event), fifo,
      if event.Request? then d.ordinals[event.lane := event.ordinal + 1] else d.ordinals,
      if event.Request? then Max(d.peak, |fifo|) else d.peak)
  }

  ghost function DispatcherOf(core: Core, rows: seq<Row>): Dispatcher {
    if |rows| == 0 then NO_DISPATCHER else DispatcherAfter(core, DispatcherOf(core, rows[..|rows| - 1]),
      rows[|rows| - 1].event)
  }

  function ProgressAfter(p: Progress, event: Event): Progress {
    Progress(
      if Timed(event) then Some(event.at) else p.previous,
      if event.Dispatch? then Some(event.at) else p.lastStart,
      if event.Dispatch? then p.entries + 1 else p.entries,
      if event.Withdraw? then p.withdrawn + 1 else p.withdrawn,
      p.finalized || event.Finalize?)
  }

  ghost function ProgressOf(rows: seq<Row>): Progress {
    if |rows| == 0 then NO_PROGRESS else ProgressAfter(ProgressOf(rows[..|rows| - 1]), rows[|rows| - 1].event)
  }

  function SeriesAfter(x: SeriesState, s: Series, items: seq<Item>, event: Event): SeriesState {
    if Opens(s, event) then
      SeriesState(x.group.Enter(), x.samples, x.span.Tick(event.at))
    else if Closes(s, event) then
      SeriesState(x.group.Leave(ClosingOutcome(event)), x.samples.Add(event.at - OpenedAt(s, items, event),
        ClosingOutcome(event)),
                  x.span.Tick(event.at))
    else x
  }

  ghost function SeriesOf(core: Core, s: Series, rows: seq<Row>): SeriesState {
    if |rows| == 0 then NO_SERIES else
      var init := rows[..|rows| - 1];
      SeriesAfter(SeriesOf(core, s, init), s, Items(core, init), rows[|rows| - 1].event)
  }

  function Ordinal(ordinals: map<int, int>, lane: int): int {
    if lane in ordinals then ordinals[lane] else 0
  }

  // ---- the tables hold the figures of the specification ---------------------------------------------

  /** One more row moves every table once. */
  lemma {:induction false} TablesStep(core: Core, rows: seq<Row>, row: Row)
    ensures DispatcherOf(core, rows + [row]) == DispatcherAfter(core, DispatcherOf(core, rows), row.event)
    ensures ProgressOf(rows + [row]) == ProgressAfter(ProgressOf(rows), row.event)
    ensures Items(core, rows + [row]) == ItemsAfter(core, Items(core, rows), row.event)
    ensures forall s :: SeriesOf(core, s, rows + [row]) == SeriesAfter(SeriesOf(core, s, rows), s, Items(core, rows),
            row.event)
  {
    assert (rows + [row])[..|rows|] == rows;
  }

  lemma {:induction false} DispatcherCell(core: Core, rows: seq<Row>)
    ensures var d := DispatcherOf(core, rows);
            && d.items == Items(core, rows) && d.occupied == Occupied(core, rows) && d.fifo == Fifo(rows)
               && d.peak == PeakQueue(rows)
  {
    if |rows| > 0 {
      DispatcherCell(core, rows[..|rows| - 1]);
    }
  }

  lemma {:induction false} OrdinalCell(core: Core, rows: seq<Row>, lane: int)
    ensures Ordinal(DispatcherOf(core, rows).ordinals, lane) == NextOrdinal(rows, lane)
  {
    if |rows| > 0 {
      OrdinalCell(core, rows[..|rows| - 1], lane);
    }
  }

  /** The latest start, if any. */
  ghost function LastStart(starts: seq<int>): Option<int> {
    if |starts| == 0 then None else Some(starts[|starts| - 1])
  }

  lemma {:induction false} ProgressCell(rows: seq<Row>)
    ensures var p := ProgressOf(rows);
            && p.previous == Previous(rows) && p.lastStart == LastStart(Starts(rows))
            && p.entries == Count(rows, IsDispatch()) && p.withdrawn == Count(rows, IsWithdraw())
            && p.finalized == (Count(rows, IsFinalize()) > 0)
  {
    if |rows| > 0 {
      ProgressCell(rows[..|rows| - 1]);
    }
  }

  lemma {:induction false} SeriesCell(core: Core, s: Series, rows: seq<Row>)
    ensures var x := SeriesOf(core, s, rows);
            x.group == SeriesGroup(s, rows) && x.samples == SeriesSamples(core, s, rows)
              && x.span == SeriesSpan(s, rows)
  {
    if |rows| > 0 {
      var init, event := rows[..|rows| - 1], rows[|rows| - 1].event;
      SeriesCell(core, s, init);
      var x := SeriesOf(core, s, init);
      assert x == SeriesState(SeriesGroup(s, init), SeriesSamples(core, s, init), SeriesSpan(s, init));
      assert SeriesOf(core, s, rows) == SeriesAfter(x, s, Items(core, init), event);
      if Opens(s, event) {
        assert !Closes(s, event) && Timed(event);
      }
    }
  }
}
