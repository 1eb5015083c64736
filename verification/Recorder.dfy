/** The counters, latency samples and clock span that every recorder keeps. */
module Recorder {
  import opened Wrappers
  import opened Clock

  function Max(a: int, b: int): int {
    if a < b then b else a
  }

  /** Counters of one series of observations. */
  datatype Group = Group(entered: int, settled: int, succeeded: int, rejected: int, active: int, peak: int) {
    function Enter(): Group {
      this.(entered := entered + 1, active := active + 1, peak := Max(peak, active + 1))
    }

    function Leave(outcome: Outcome): Group {
      Group(entered, settled + 1,
            if outcome == Succeeded then succeeded + 1 else succeeded,
            if outcome == Succeeded then rejected else rejected + 1,
            active - 1, peak)
    }
  }

  /** Latencies of one series, in the order in which they settled. */
  datatype Samples = Samples(all: seq<int>, success: seq<int>) {
    function Add(elapsed: int, outcome: Outcome): Samples {
      Samples(all + [elapsed], if outcome == Succeeded then success + [elapsed] else success)
    }
  }

  /** First and last clock reading of a series. */
  datatype Span = Span(first: Option<int>, last: Option<int>) {
    function Tick(at: int): Span {
      Span(if first.None? then Some(at) else first, Some(at))
    }

    function Elapsed(): Option<int> {
      if first.Some? && last.Some? then Some(last.value - first.value) else None
    }
  }

  const NO_GROUP := Group(0, 0, 0, 0, 0, 0)
  const NO_SAMPLES := Samples([], [])
  const NO_SPAN := Span(None, None)
}
