/** The slot and the counts that the timer checker keeps, after each prefix of the merged steps. */
module TimerTables {
  import opened Wrappers
  import opened TimerTrace

  /** The queue, the clock and the live timer. */
  datatype Slot = Slot(queued: int, lastDispatch: Option<int>, active: Option<Live>, expected: Option<int>,
    latest: Option<int>)

  datatype Counts = Counts(attempts: int, armed: int, fired: int, cancelled: int)

  const EMPTY_SLOT := Slot(0, None, None, None, None)
  const NO_COUNTS := Counts(0, 0, 0, 0)

  function SlotAfter(s: Slot, step: Step): Slot {
    var latest := if Reading(step).Some? then Reading(step) else s.latest;
    match step
    case Paced(row) =>
      Slot(s.queued + QueueChange(row.event), if row.event.Dispatch? then Some(row.event.at)
        else s.lastDispatch, s.active,
           if row.event.Dispatch? then None else s.expected, latest)
    case Timer(event) =>
      Slot(s.queued, s.lastDispatch, LiveAfter(s.active, event),
           if event.Fire? && s.queued > 0 then Some(event.at) else s.expected, latest)
  }

  ghost function SlotOf(steps: seq<Step>): Slot {
    if |steps| == 0 then EMPTY_SLOT else SlotAfter(SlotOf(steps[..|steps| - 1]), steps[|steps| - 1])
  }

  function CountsAfter(n: Counts, step: Step): Counts {
    if step.Paced? then n else
      match step.event
      case Arm(_, _, _, _) => n.(attempts := n.attempts + 1)
      case Armed(_) => n.(armed := n.armed + 1)
      case Fire(_, _) => n.(fired := n.fired + 1)
      case Cancel(_, _) => n.(cancelled := n.cancelled + 1)
      case Finalize => n
  }

  ghost function CountsOf(steps: seq<Step>): Counts {
    if |steps| == 0 then NO_COUNTS else CountsAfter(CountsOf(steps[..|steps| - 1]), steps[|steps| - 1])
  }

  lemma {:induction false} SlotCell(steps: seq<Step>)
    ensures SlotOf(steps) == Slot(Queued(steps), LastDispatch(steps), Active(steps), Expected(steps), Latest(steps))
  {
    if |steps| > 0 {
      SlotCell(steps[..|steps| - 1]);
    }
  }

  lemma {:induction false} CountsCell(steps: seq<Step>)
    ensures CountsOf(steps) == Counts(Count(steps, IsArm()), Count(steps, IsArmed()), Count(steps, IsFire()),
            Count(steps, IsCancel()))
  {
    if |steps| > 0 {
      CountsCell(steps[..|steps| - 1]);
    }
  }
}
