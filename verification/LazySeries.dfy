/** One latency series, updated in place; its list of successes is copied only at the first rejection. */
module LazySeries {
  import opened Wrappers
  import opened Clock
  import opened Percentiles
  import opened Recorder
  import Q = PacedTrace

  class Series {
    var entered: int
    var settled: int
    var active: int
    var peak: int
    var succeeded: int
    var rejected: int
    var all: seq<int>
    var success: Option<seq<int>>
    var first: Option<int>
    var last: Option<int>
    /** Both lists, kept eagerly. */
    ghost var eager: Samples

    function Figures(): Group
      reads this
    {
      Group(entered, settled, succeeded, rejected, active, peak)
    }

    function Spanned(): Span
      reads this
    {
      Span(first, last)
    }

    ghost predicate Valid()
      reads this
    {
      && all == eager.all && 0 <= rejected
      && (success.None? <==> rejected == 0)
      && eager.success == (if success.None? then all else success.value)
    }

    constructor ()
      ensures Valid() && Figures() == NO_GROUP && eager == NO_SAMPLES && Spanned() == NO_SPAN
    {
      entered, settled, active, peak, succeeded, rejected := 0, 0, 0, 0, 0, 0;
      all, success, first, last, eager := [], None, None, None, NO_SAMPLES;
    }

    method Touch(at: int)
      modifies this`first, this`last
      ensures Spanned() == old(Spanned()).Tick(at)
    {
      if first.None? {
        first := Some(at);
      }
      last := Some(at);
    }

    method Begin(at: int)
      requires Valid()
      modifies this
      ensures Valid() && eager == old(eager)
      ensures Figures() == old(Figures()).Enter() && Spanned() == old(Spanned()).Tick(at)
    {
      entered := entered + 1;
      active := active + 1;
      peak := Max(peak, active);
      Touch(at);
    }

    /** Settle an observation opened at `start`; refuses, unchanged, when none is open or it ends too early. */
    method Terminal(start: int, at: int, outcome: Outcome) returns (settles: bool)
      requires Valid()
      modifies this
      ensures settles == (at >= start && old(active) > 0)
      ensures Valid()
      ensures settles ==> Figures() == old(Figures()).Leave(outcome) && eager == old(eager).Add(at - start, outcome)
                          && Spanned() == old(Spanned()).Tick(at)
      ensures !settles ==> Figures() == old(Figures()) && eager == old(eager) && Spanned() == old(Spanned())
    {
      settles := at >= start && active > 0;
      if settles {
        var elapsed := at - start;
        if outcome == Rejected && success.None? {
          success := Some(all);
        } else if outcome == Succeeded && success.Some? {
          success := Some(success.value + [elapsed]);
        }
        all := all + [elapsed];
        settled := settled + 1;
        active := active - 1;
        if outcome == Succeeded {
          succeeded := succeeded + 1;
        } else {
          rejected := rejected + 1;
        }
        Touch(at);
        eager := eager.Add(elapsed, outcome);
      }
    }

    /** The report of the series is that of the eager lists. */
    method Report() returns (report: Q.SeriesReport)
      requires Valid()
      ensures report == Q.ReportSeries(Figures(), eager, Spanned())
    {
      var latency := Summarize(all);
      var successful := if success.None? then latency else Summarize(success.value);
      report := Q.SeriesReport(entered == 0, Spanned().Elapsed(), Figures(),
                               if settled == 0 then None else Some((rejected, settled)), latency, successful);
    }
  }
}
