# Capacity trace checkers, modelled and proved

The qualification code of this repository accepts or refuses event logs of a capacity run. Its branches are
short; what they enforce together is global. This project models those checkers in Dafny and proves what
acceptance means.

- **Three layers of one run.** `ParentTrace` is the staged recorder, `PacedTrace` the FIFO dispatcher bound to
  it, `TimerTrace` the pacing timer log merged with the dispatcher's. Each `*Trace` module says declaratively, as
  a function of the rows seen so far, which row may come next and with which code a log is refused. Each
  `*Replay` module is the checker as it runs: one pass that updates counters, maps, queues and series objects in
  place, proved to reach the declarative verdict, refusal code included. Each `*Laws` module proves what an
  accepted log says as a whole: Little's law, conservation across the measurement window, the dispatcher
  invariant, rate bounds, exact row counts, the binding of timers to dispatches. `CrossLayer` and
  `LaneDispatch` relate the layers. `ParentCeiling` shows that the declared ceiling is reached.
- **The exact languages.** What each checker accepts is stated a second time, over row positions alone and without any
  figure carried from row to row: `ParentPositions`, `PacedPositions`, `TimerPositions` and `BalancePositions` say which logs
  are well formed and what they report, in the vocabulary of `Positions` (how many positions are of a kind, what they
  read, the first and the last of them, the highest level between two). `ParentExact`, `PacedExact`, `TimerExact`,
  `BalanceExact` and `WriterExact` prove that a log is accepted if and only if it is so described; `ParentPlaces`,
  `ParentFigures`, `PacedPlaces`, `PacedFigures`, `TimerPlaces` and `TimerStates` are the steps on the way, and `CoreCalls`
  ties each request to the parent rows it stands for.
- **Balance barriers.** `BalanceTrace`, `BalanceReplay`, `BalanceLaws`: all lanes meet at three barriers, ordered
  against the parent log.
- **Writer windows.** `WriterTrace`, `WriterReplay`, `WriterLaws`, `WindowLaws`: the run-length automaton that
  attributes writer rows to original calls, and the classes of rows against the measurement window.
- **Clock independence.** `ParentShift`, `PacedShift`, `TimerShift`, `BalanceShift`, `WriterShift`: moving a clock by a
  constant changes no verdict. `RunShift` moves the four parent-clock logs of a run together.
- **Resource arithmetic.** `ResourcePlan`, `ResourceLaws`: the ceilings and the minimum span of a plan, proved sound
  for the checkers above. `SampleRun`, with `SampleParent`, `SamplePaced`, `SampleBalance` and `TimerIdle`, builds for
  every plan runs that all four checkers accept.
- **Protocols.** `LaneProtocol`, `LaneLaws`, `LaneHistory`, `LaneOriginals`, `PayerTrace`: the payer lane's tickets over
  every sequence of calls; `LaneHistory` gives the whole state, and when a lane is held, from what became of the calls.
  `Exchange`, `ExchangeLaws`, `Provider`, `ActivationBarrier`: commands and replies over every interleaving of partial
  writes and chunked reads. `ExchangeExact` and `ProviderExact` say exactly which step is accepted, from the bytes;
  `ExchangeRuns` and `ProviderRuns` build a passing run for every way to cut the bytes.
- **JSON.** `Json`, `JsonReading`, `JsonEquality`, `JsonStack`: three equalities that agree. `JsonFrame`,
  `JsonFrameLaws`, `JsonSpelling`: the byte scanner against printers and against the tree walk behind it.

`ParentTables`, `PacedTables` and `TimerTables` describe the tables that the passes update, and `LazySeries` the
latency series they hold. `Percentiles`, `Recorder`, `Counting`, `Pipes`, `Clock` and `Wrappers` are shared. Every
lemma turns automatic induction off: each inductive proof is spelled out in its body.

Clock readings are the type `Nanos`, naturals below 2^128. A checker's `require` is a `Requirement` that carries
a code; the order of the checks is that of the source, so the code of a refusal is the first one that fails.

Some results say that a check can never be what refuses a log, because the other checks imply it: the row ceilings
of all logs, the sample cap and queue bound of REQUEST, the timer log's queue bound and delay bound, the ordinal
bound of FINISH, the terminal order of a series, the clock-read bound, and the cross-lane dispatch counts. Two
properties hold only under a condition that is not obvious, and it is shown to be needed. A run spans the planned
minimum when it enters the source for every requested call (`RunSpan`, `FullRunMeaning`), and that bound is reached
(`SpanReached`); the planned-calls flag alone does not give it (`FlagAloneMisses`). A printed frame passes the scanner
when no DEL character stands unescaped (`SpelledFrame`); one that does is refused (`RawDelRefused`).

## Model

| member | source | states |
|---|---|---|
| ParentReplay.CheckParent | qualification/native_capacity_paced_timer_envelope_data_v1.py:189-295 | The one-pass checker with its mutable counters reaches, on every trace and declared recording, exactly the verdict (acceptance, first refusal code, check) that the declarative figures of `ParentTrace` define |
| ParentReplay.Replay.Run | qualification/native_capacity_paced_timer_envelope_data_v1.py:206-256 | The pass refuses with the code of the first row that may not follow the rows before it, and otherwise leaves every table at the figures of the whole log |
| ParentReplay.Replay.Accept | qualification/native_capacity_paced_timer_envelope_data_v1.py:207-210 | One row is admitted exactly when its sequence number, its place before FINALIZE, its clock reading and its own branch allow it; then all tables move to the figures of the longer log |
| ParentReplay.Replay.OnStartWarmup | qualification/native_capacity_paced_timer_envelope_data_v1.py:211-213 | The warmup opens only in CREATED, and times the run |
| ParentReplay.Replay.OnStartMeasurement | qualification/native_capacity_paced_timer_envelope_data_v1.py:214-218 | The window opens only from CREATED or WARMUP, snapshots the live warmup and restarts every window peak at the live count |
| ParentReplay.Replay.OnStopMeasurement | qualification/native_capacity_paced_timer_envelope_data_v1.py:219-222 | The window closes only while measuring and strictly later than it opened, and snapshots both cohorts |
| ParentReplay.Replay.OnBegin | qualification/native_capacity_paced_timer_envelope_data_v1.py:223-235 | An observation begins only in its stage's cohort, with the next ordinal and within both capacities |
| ParentReplay.Replay.OnFinish | qualification/native_capacity_paced_timer_envelope_data_v1.py:236-248 | An observation finishes only while live; its latency and outcome reach its own phase, cohort and side of the window |
| ParentReplay.Replay.OnBalanceCheck | qualification/native_capacity_paced_timer_envelope_data_v1.py:249-252 | A balance check is counted once in total, in its stage and in its cohort |
| ParentReplay.Replay.OnFinalize | qualification/native_capacity_paced_timer_envelope_data_v1.py:253-255 | The log ends only drained, in DRAINING and at its last row |
| ParentReplay.Replay.Report | qualification/native_capacity_paced_timer_envelope_data_v1.py:263-290 | The recording built from the tables is the one the whole log determines |
| ParentLaws.ActiveIsInFlight | qualification/native_capacity_paced_timer_envelope_data_v1.py:206-241 | After every prefix the `active` counter of a phase is its number of begun and unfinished observations |
| ParentLaws.SettledPlusAges | qualification/native_capacity_paced_timer_envelope_data_v1.py:206-255 | Invariant of Little's law: after every prefix, settled latencies plus the ages of the live observations equal the in-flight count integrated over time |
| ParentLaws.RowsLittlesLaw | qualification/native_capacity_paced_timer_envelope_data_v1.py:206-255 | On a finalized log the recorded latencies of a phase sum to its in-flight area, at most its peak times the run |
| ParentLaws.LittlesLaw | qualification/native_capacity_paced_timer_envelope_data_v1.py:206-291 | On every accepted trace the same, in the reported figures: latency sum of both cohorts <= `peakInFlightAcrossCohorts` * `runNanoseconds` |
| ParentLaws.PeakIsMaximum | qualification/native_capacity_paced_timer_envelope_data_v1.py:233 | The reported peak bounds the in-flight count after every prefix and is reached after one |
| ParentLaws.WindowPeakIsMaximum | qualification/native_capacity_paced_timer_envelope_data_v1.py:218-234 | The reported window peak is the maximum of the in-flight count over exactly the prefixes that are measuring |
| ParentLaws.CohortPeakIsMaximum | qualification/native_capacity_paced_timer_envelope_data_v1.py:231-242 | The reported peak of a cohort's phase bounds the number of its live observations after every prefix and is reached after one |
| ParentLaws.BoundaryOrder | qualification/native_capacity_paced_timer_envelope_data_v1.py:211-222 | Boundaries occur in order, the stop strictly after the start, and the run is timed from the first row |
| ParentLaws.OpenKeys | qualification/native_capacity_paced_timer_envelope_data_v1.py:228-240 | Live observations carry ordinals already issued and began no later than the last row |
| ParentLaws.EntriesConserved | qualification/native_capacity_paced_timer_envelope_data_v1.py:231-244 | Per cohort and phase: entered = settled + live, settled = succeeded + rejected, and one latency is kept per terminal |
| ParentLaws.CohortsAddUp | qualification/native_capacity_paced_timer_envelope_data_v1.py:231-241 | The two cohorts of a phase add up to the phase, entries and live counts |
| ParentLaws.InsideBalance | qualification/native_capacity_paced_timer_envelope_data_v1.py:218-248 | While measuring: warmup live at the start = its terminals inside + its live ones; measured entries = terminals inside + live |
| ParentLaws.DrainBalance | qualification/native_capacity_paced_timer_envelope_data_v1.py:222-248 | While draining: live at the stop = terminals since + live |
| ParentLaws.AcrossTheStop | qualification/native_capacity_paced_timer_envelope_data_v1.py:218-248 | The balances of the window stay true of the counts frozen at the stop |
| ParentLaws.WindowConservation | qualification/native_capacity_paced_timer_envelope_data_v1.py:276-284 | On every accepted recording: measured entries = terminals inside + in flight at stop; terminals after the stop = in flight at stop for both cohorts; warmup at start = terminals inside + in flight at stop; every tally splits into successes and rejections |
| ParentLaws.CapacityKept | qualification/native_capacity_paced_timer_envelope_data_v1.py:230-251 | No phase ever exceeds the sample bound and the ordinals count the entries of all phases |
| ParentLaws.RowCeiling | qualification/native_capacity_paced_timer_envelope_data_v1.py:193-194 | A complete log has exactly 2 rows per observation, one per balance check and its 3 or 4 boundaries, hence at most 7S + 4: the declared ceiling never decides |
| ParentCeiling.CeilingReached | qualification/native_capacity_paced_timer_envelope_data_v1.py:189-194 | The ceiling is tight: for every admitted pair of limits there is an accepted trace with exactly 7S + 4 rows |
| ParentLaws.FinishOrdinalNeverRefuses | qualification/native_capacity_paced_timer_envelope_data_v1.py:238 | A live observation always passes the ordinal bound of FINISH |
| ParentExact.AdmittedExactly | qualification/native_capacity_paced_timer_envelope_data_v1.py:206-257 | A log is admitted and complete exactly when, by row positions alone, boundaries stand once and in order, every BEGIN takes the next ordinal in its stage's cohort within both capacities, every FINISH ends a BEGIN row not yet ended and no earlier than it began, and FINALIZE is last with nothing open |
| ParentExact.RebuildIs | qualification/native_capacity_paced_timer_envelope_data_v1.py:258-290 | The rebuilt recording is the one the positions say: in each phase and cohort the successes (rejections) are the number of FINISH rows with that outcome whose own BEGIN row names them; the window tallies count those between START and STOP and those after; the ratio is that count of successes over the window; latencies, spans, peaks, durations and balance checks likewise |
| ParentExact.AcceptedExactly | qualification/native_capacity_paced_timer_envelope_data_v1.py:189-295 | A parent trace is accepted with a check exactly when its limits are in range, its log is well formed by positions, and recording and check are those the positions say; no ceiling refuses more |
| ParentShift.VerdictMoved | qualification/native_capacity_paced_timer_envelope_data_v1.py:206-295 | Moving all readings of the parent log by a constant, within range, changes neither verdict, check nor demanded recording |
| LazySeries.Series.constructor | qualification/native_capacity_paced_timer_envelope_data_v1.py:88-90 | A new series has no figures, no samples and no span |
| LazySeries.Series.Touch | qualification/native_capacity_paced_timer_envelope_data_v1.py:93-96 | The first reading is kept, the last replaced |
| LazySeries.Series.Begin | qualification/native_capacity_paced_timer_envelope_data_v1.py:99-103 | One more entered and active, the peak raised when exceeded; samples untouched |
| LazySeries.Series.Terminal | qualification/native_capacity_paced_timer_envelope_data_v1.py:106-117 | Settles exactly when an observation is active and ends no earlier than it began; the success list copied at the first rejection always equals the list of successes kept eagerly; a refusal changes nothing |
| LazySeries.Series.Report | qualification/native_capacity_paced_timer_envelope_data_v1.py:120-138 | The report from the lazily split list is the summary of the filtered successes |
| Percentiles.SummarizeMeaning | qualification/native_capacity_paced_timer_envelope_data_v1.py:78-85 | A summary reports the extremes, and each percentile is the least sample that at least p% of the samples do not exceed; min <= p50 <= p95 <= p99 <= max |
| Percentiles.SummarizePermutation | qualification/native_capacity_paced_timer_envelope_data_v1.py:78-85 | The summary depends only on the multiset of samples |
| Percentiles.NearestRankAscending | qualification/native_capacity_paced_timer_envelope_data_v1.py:82-83 | The nearest rank of an ascending list is the percentile in that sense, for every p from 1 to 100 |
| Percentiles.RankSpellingsAgree | qualification/native_capacity_managed_workload_v3.py:409-416 | The ranks ceil(np/100) - 1 and floor((np - 1)/100) give the same summary on every sample list |
| PacedReplay.CheckPaced | qualification/native_capacity_paced_timer_envelope_data_v1.py:307-472 | The FIFO dispatcher replay with its mutable tables reaches exactly the declarative verdict on every plan, parent trace, log and report |
| PacedReplay.CheckRows | qualification/native_capacity_paced_timer_envelope_data_v1.py:389-471 | The same for the rows alone, given the plan and the parent's measured calls |
| PacedReplay.CollectCalls | qualification/native_capacity_paced_timer_envelope_data_v1.py:383-388 | The loop collects the measured funded calls in order and how the finished ones ended |
| PacedReplay.Replay.Run | qualification/native_capacity_paced_timer_envelope_data_v1.py:400-457 | The pass stops with the first refusal, or leaves every table at the figures of the whole log |
| PacedReplay.Replay.OnRequest | qualification/native_capacity_paced_timer_envelope_data_v1.py:409-424 | A request takes the next number, a free lane, the lane's next ordinal and a finished parent call, joins the queue and may raise its peak; otherwise the code of the first failing check |
| PacedReplay.Replay.OnWaitBegin | qualification/native_capacity_paced_timer_envelope_data_v1.py:425-429 | A wait begins only for a reserved request inside its call's bracket |
| PacedReplay.Replay.OnDispatch | qualification/native_capacity_paced_timer_envelope_data_v1.py:430-437 | A dispatch takes the oldest, waiting request, inside its bracket and a full gap after the last start; it ends the wait and begins the source call |
| PacedReplay.Replay.OnSourceTerminal | qualification/native_capacity_paced_timer_envelope_data_v1.py:438-444 | A source call ends inside its bracket with its parent call's outcome and frees the lane |
| PacedReplay.Replay.OnWithdraw | qualification/native_capacity_paced_timer_envelope_data_v1.py:445-453 | Only the oldest queued request of a rejected call is withdrawn, and it records a wait exactly when it was waiting |
| PacedReplay.Replay.OnFinalize | qualification/native_capacity_paced_timer_envelope_data_v1.py:454-457 | FINALIZE is the last row |
| PacedReplay.Replay.PlannedCallsCompleted | qualification/native_capacity_paced_timer_envelope_data_v1.py:461 | Answers whether every lane used all its ordinals |
| PacedReplay.Replay.CheckEnd | qualification/native_capacity_paced_timer_envelope_data_v1.py:458-460 | The final counters are compared as declared |
| PacedReplay.Replay.Reports | qualification/native_capacity_paced_timer_envelope_data_v1.py:463-464 | Both series reports are those the whole log determines |
| PacedLaws.DispatcherInvariant | qualification/native_capacity_paced_timer_envelope_data_v1.py:400-457 | After every prefix the queue holds exactly the reserved and waiting requests, in request order, and every occupied lane is held by its one busy request |
| PacedLaws.QueueWithinLanes | qualification/native_capacity_paced_timer_envelope_data_v1.py:400-424 | By pigeonhole the queue is never longer than the number of lanes |
| PacedLaws.QueueBoundNeverRefuses | qualification/native_capacity_paced_timer_envelope_data_v1.py:423 | The queue bound of REQUEST can never be the cause of a refusal |
| PacedLaws.StatesCounted | qualification/native_capacity_paced_timer_envelope_data_v1.py:425-453 | The live observations of the wait and source series are the waiting and the entered requests; dispatches and withdrawals are visible in the states |
| PacedLaws.RequestsConserved | qualification/native_capacity_paced_timer_envelope_data_v1.py:458-460 | With queue and lanes empty, requested = dispatched + withdrawn and both series are closed, so their zero checks are implied |
| PacedLaws.QueuePeakIsMaximum | qualification/native_capacity_paced_timer_envelope_data_v1.py:423-442 | The reported queue peak bounds the length of the FIFO after every prefix and is reached after one |
| PacedLaws.SeriesPeakIsMaximum | qualification/native_capacity_paced_timer_envelope_data_v1.py:99-117 | The reported peak of the wait (source) series bounds the number of requests waiting (in the source) after every prefix and is reached after one |
| PacedLaws.SeriesConserved | qualification/native_capacity_paced_timer_envelope_data_v1.py:99-117 | entered = settled + active and settled = succeeded + rejected in both series |
| PacedLaws.RowCeiling | qualification/native_capacity_paced_timer_envelope_data_v1.py:389-457 | A complete log has exactly 4 * dispatched + 3 * withdrawn-after-wait + 2 * withdrawn-before-wait + 1 rows, so 4S + 1 never decides |
| PacedLaws.OrdinalsCountRequests | qualification/native_capacity_paced_timer_envelope_data_v1.py:411-422 | The ordinals used by the lanes add up to the requests |
| PacedLaws.PlannedCallsMeaning | qualification/native_capacity_paced_timer_envelope_data_v1.py:461 | The planned-calls flag holds exactly when requests = lanes * calls |
| PacedLaws.PlanHasRoom | qualification/native_capacity_paced_timer_envelope_data_v1.py:317-323 | An admitted plan leaves more samples than lanes * calls |
| PacedLaws.SampleCapNeverRefuses | qualification/native_capacity_paced_timer_envelope_data_v1.py:414-415 | For an admitted plan the sample cap of REQUEST can never be the cause of a refusal |
| PacedLaws.GapsKept | qualification/native_capacity_paced_timer_envelope_data_v1.py:430-437 | Consecutive starts are at least one gap apart, one start per dispatch |
| PacedLaws.RateBound | qualification/native_capacity_paced_timer_envelope_data_v1.py:430-437 | The i-th and j-th starts are at least (j - i) gaps apart |
| PacedLaws.WindowRateBound | qualification/native_capacity_paced_timer_envelope_data_v1.py:430-437 | The set of starts in a closed window of length T has at most T / gap + 1 members |
| PacedLaws.AllBracketed | qualification/native_capacity_paced_timer_envelope_data_v1.py:425-453 | Every request, with the row that ended it: a served one has begin <= wait <= dispatch <= source terminal <= finish and the terminal's outcome is its call's; a withheld one has begin <= withdrawal <= finish, with its wait in between when the withdrawal records one, and its call was rejected; an unfinished one is in order so far and has no such row |
| PacedLaws.SeriesTerminalOrderNeverRefuses | qualification/native_capacity_paced_timer_envelope_data_v1.py:106-107 | The terminal check of a series can never be what refuses a paced row |
| CoreCalls.RequestsStandForCalls | qualification/native_capacity_paced_timer_envelope_data_v1.py:383-388 | Request r stands for the r-th BEGIN row of a measured funded call in the parent log, and its outcome and finish are those of the FINISH row of the same ordinal |
| PacedExact.RowsExactly | qualification/native_capacity_paced_timer_envelope_data_v1.py:389-471 | For an admitted plan the rows are accepted exactly when the log is well formed by row positions and the report is the one they say: a wait ends well exactly at its DISPATCH and badly at a WITHDRAW with a recorded wait, a source call as its terminal says; each sample is the closing reading less that of its own opening row; spans, peaks and counters likewise |
| PacedExact.AcceptedExactly | qualification/native_capacity_paced_timer_envelope_data_v1.py:307-472 | The whole paced verdict, as an if-and-only-if over the plan's ranges, the parent's verdict, the positions of the rows and the report |
| PacedShift.VerdictMoved | qualification/native_capacity_paced_timer_envelope_data_v1.py:383-464 | Moving the parent clock in both logs together changes neither the paced verdict nor its check |
| CrossLayer.CallsAlwaysMatch | qualification/native_capacity_paced_timer_envelope_data_v1.py:383-388 | The collected calls are exactly the measured funded calls of the parent: numbered upwards, each open or finished |
| CrossLayer.CallFigures | qualification/native_capacity_paced_timer_envelope_data_v1.py:383-388 | Latencies, successes and rejections summed over the collected calls are the parent's own figures |
| CrossLayer.ItemsAlwaysMatch | qualification/native_capacity_paced_timer_envelope_data_v1.py:416-420 | Each request carries the bracket and outcome of its own parent call |
| CrossLayer.RecordedWithinSpent | qualification/native_capacity_paced_timer_envelope_data_v1.py:425-453 | Wait and source time recorded so far fit inside the calls' time |
| CrossLayer.SourceOutcomes | qualification/native_capacity_paced_timer_envelope_data_v1.py:438-444 | The source series counts the finished requests by outcome |
| CrossLayer.WithheldRejected | qualification/native_capacity_paced_timer_envelope_data_v1.py:448-453 | Only rejected calls are withheld |
| CrossLayer.CallsConserved | qualification/native_capacity_paced_timer_envelope_data_v1.py:383-460 | On every accepted pair: total queue wait + total source latency <= total measured call latency; core successes = source successes; core rejections = source rejections + withdrawals |
| LaneDispatch.CountDispatches | qualification/native_capacity_paced_timer_outer_capture_data_v3.py:205-212 | The counting loop returns each lane's own dispatches and refuses exactly when a source call did not succeed |
| LaneDispatch.LanesShareDispatches | qualification/native_capacity_paced_timer_outer_capture_data_v3.py:205-210 | The lanes' counts add up to all dispatches |
| LaneDispatch.CrossLaneCountsImplied | qualification/native_capacity_paced_timer_outer_capture_data_v3.py:218-226 | After an accepted paced log without source rejections, the sum of the lane counts equals the declared source successes and the parent's measured successes: those cross-checks never decide |
| TimerReplay.CheckTimer | qualification/native_capacity_paced_timer_envelope_data_v1.py:483-590 | The cursor-driven checker reaches exactly the verdict defined on the merged steps of both logs |
| TimerReplay.Replay.Observe | qualification/native_capacity_paced_timer_envelope_data_v1.py:503-506 | The shared clock refuses exactly a reading that runs backwards |
| TimerReplay.Replay.MayRead | qualification/native_capacity_paced_timer_envelope_data_v1.py:513-529 | A paced row is refused, with the source's code, exactly when it breaks an expected dispatch, the clock, the live timer, the fire binding or the queue bound |
| TimerReplay.Replay.Advance | qualification/native_capacity_paced_timer_envelope_data_v1.py:508-529 | The cursor reads exactly the paced rows up to the anchor, in order, up to the first refusal |
| TimerReplay.Replay.OnArm | qualification/native_capacity_paced_timer_envelope_data_v1.py:539-550 | A timer is set only with a queue, no live timer, no pending fire, and due exactly one gap after the last dispatch with the rounded-up delay |
| TimerReplay.Replay.OnArmed | qualification/native_capacity_paced_timer_envelope_data_v1.py:551-557 | A registration returns once |
| TimerReplay.Replay.OnFire | qualification/native_capacity_paced_timer_envelope_data_v1.py:558-568 | Only the registered timer fires, not before it is due; with a queue it fixes the next dispatch's reading |
| TimerReplay.Replay.OnCancel | qualification/native_capacity_paced_timer_envelope_data_v1.py:569-575 | Only the registered timer is cancelled |
| TimerReplay.Accept | qualification/native_capacity_paced_timer_envelope_data_v1.py:531-579 | One timer row: place, anchor, the paced rows before it, its own event |
| TimerLaws.MergedSteps | qualification/native_capacity_paced_timer_envelope_data_v1.py:508-537 | The merged reading contains a prefix of the paced rows in order, and every step was admitted after the steps before it |
| TimerLaws.QueueSimulation | qualification/native_capacity_paced_timer_envelope_data_v1.py:508-529 | On an accepted paced log the integer `queued` is the FIFO length at every cursor, within the lanes, and zero at the end |
| TimerLaws.CrossBoundQueueNeverRefuses | qualification/native_capacity_paced_timer_envelope_data_v1.py:529 | So the queue bound can never refuse a row of an accepted paced log |
| TimerLaws.MergedClock | qualification/native_capacity_paced_timer_envelope_data_v1.py:503-506 | The readings of both logs, merged, never decrease |
| TimerLaws.LiveTimer | qualification/native_capacity_paced_timer_envelope_data_v1.py:539-550 | A live timer is due one gap after the latest dispatch, and excludes a pending fire |
| TimerLaws.ArmOrdinals | qualification/native_capacity_paced_timer_envelope_data_v1.py:541 | Every attempt has its own ordinal |
| TimerLaws.FireAfterGap | qualification/native_capacity_paced_timer_envelope_data_v1.py:558-563 | Every FIRE is at least one gap after the latest dispatch |
| TimerLaws.NoDispatchWhileLive | qualification/native_capacity_paced_timer_envelope_data_v1.py:522 | No DISPATCH lies between an ARM and the FIRE or CANCEL of its timer |
| TimerLaws.FireAnswered | qualification/native_capacity_paced_timer_envelope_data_v1.py:513-526 | Every FIRE with a queue has a DISPATCH at the identical reading as its next paced row |
| TimerLaws.AnswersDiffer | qualification/native_capacity_paced_timer_envelope_data_v1.py:513-568 | Two different fires with a queue are never answered by the same dispatch |
| TimerLaws.AnswerNotFirst | qualification/native_capacity_paced_timer_envelope_data_v1.py:543-568 | Before every answered fire lies another dispatch, so the answer is never the first one |
| TimerLaws.QueuedFiresCounted | qualification/native_capacity_paced_timer_envelope_data_v1.py:513-568 | The fires that found a queue, but for a pending one, are fewer than the dispatches |
| TimerLaws.RowCeiling | qualification/native_capacity_paced_timer_envelope_data_v1.py:580-582 | A complete timer log has exactly 3 * started + 1 rows |
| TimerLaws.DelayBoundImplied | qualification/native_capacity_paced_timer_envelope_data_v1.py:542-546 | 1 <= delayMs <= gap follows from the anchor, the rounding and the clock order; the declared bound never decides |
| TimerIdle.IdleAccepted | qualification/native_capacity_paced_timer_envelope_data_v1.py:495-590 | Beside every accepted, finished paced log the timer log of one final row is accepted exactly when the report starts no timer |
| TimerLaws.TimerBinding | qualification/native_capacity_paced_timer_envelope_data_v1.py:483-590 | On every accepted pair of logs: every paced row is read once and in order; the merged clock never decreases; no dispatch lies between an ARM and the FIRE or CANCEL of its timer; every FIRE is a gap after the latest dispatch; every FIRE with a queue has its dispatch at the identical reading as the next paced row, different fires have different ones, none is the first; and such fires are fewer than the dispatches |
| TimerExact.RowsExactly | qualification/native_capacity_paced_timer_envelope_data_v1.py:483-590 | Beside an accepted paced log the timer verdict succeeds exactly when the log has three rows per started timer and FINALIZE, anchors and merged clock never run backwards, each ARM stands at a nonempty queue one gap after the latest start with the least delay that reaches it, it registers, and it fires when due or is cancelled with no start in between, a fire with a queue being answered by the next paced row at its reading; no other bound refuses more |
| TimerExact.AcceptedExactly | qualification/native_capacity_paced_timer_envelope_data_v1.py:483-590 | The same from the verdict of the paced checker: which timer logs are accepted next to logs that it accepted, and the counts of the check |
| TimerShift.VerdictMoved | qualification/native_capacity_paced_timer_envelope_data_v1.py:531-590 | Moving timer and paced log together changes neither verdict nor check |
| BalanceReplay.CheckBalance | qualification/native_capacity_paced_timer_outer_capture_data_v3.py:340-396 | The checker with its per-lane and per-barrier arrays reaches exactly the verdict defined on the event sequence |
| BalanceReplay.Replay.Check | qualification/native_capacity_paced_timer_outer_capture_data_v3.py:350-361 | An event is refused with the code of the first failing check |
| BalanceReplay.Replay.OnBegin | qualification/native_capacity_paced_timer_outer_capture_data_v3.py:356-358 | A BEGIN opens its lane's barrier and is listed under it; all other cells stay |
| BalanceReplay.Replay.OnEnd | qualification/native_capacity_paced_timer_outer_capture_data_v3.py:359-364 | An END closes it, and its duration joins its lane's and its barrier's series; all other cells stay |
| BalanceReplay.Replay.Run | qualification/native_capacity_paced_timer_outer_capture_data_v3.py:346-364 | The pass stops at the first refusal or leaves the arrays at the figures of all events |
| BalanceReplay.Context | qualification/native_capacity_paced_timer_outer_capture_data_v3.py:381-385 | The parent's starts, stops and checks are collected in order |
| BalanceReplay.PairedInOrder | qualification/native_capacity_paced_timer_outer_capture_data_v3.py:392-393 | The zip compares each END with its own check, as far as both go |
| BalanceReplay.CheckBarriers | qualification/native_capacity_paced_timer_outer_capture_data_v3.py:390-395 | Each barrier is held against its checks and those against the next barrier, in order |
| BalanceReplay.CheckPhases | qualification/native_capacity_paced_timer_outer_capture_data_v3.py:386-395 | The barriers lie around the window as demanded |
| BalanceLaws.AdmittedExactly | qualification/native_capacity_paced_timer_outer_capture_data_v3.py:346-364 | A log is admitted exactly when its clock never runs backwards, its lanes exist, and every lane's own events are BEGIN/END of barriers 0, 1, 2 in turn, each END successful and within the bound |
| BalanceLaws.CompleteLog | qualification/native_capacity_paced_timer_outer_capture_data_v3.py:341-365 | When every lane has ended, each barrier is begun and ended once per lane and there are 6 events per lane, so the declared count is implied |
| BalanceLaws.SeriesRegrouped | qualification/native_capacity_paced_timer_outer_capture_data_v3.py:363 | The per-lane and per-barrier series are the same multiset of durations |
| BalanceLaws.BeforeMeansAll | qualification/native_capacity_paced_timer_outer_capture_data_v3.py:387-389 | Comparing max with min compares every reading with every reading |
| BalanceLaws.AcceptedBarriers | qualification/native_capacity_paced_timer_outer_capture_data_v3.py:342-396 | Acceptance means: no lane begins a barrier, in time, before every lane ended the previous one and before every check of the previous one; the i-th END of a barrier is no later than its i-th check, with as many of each; and the two groupings agree |
| BalanceExact.AcceptedExactly | qualification/native_capacity_paced_timer_outer_capture_data_v3.py:340-396 | The balance verdict succeeds exactly when there is a lane, every lane runs its whole script in clock order, barrier 0 begins after the parent's first row, barrier 1 lies between the ENDs of barrier 0 and START_MEASUREMENT, barrier 2 between STOP_MEASUREMENT and the last row, the i-th END of a barrier is no later than the i-th of its own checks and those no later than the next barrier, and each summary is that of its own barrier's (lane's) durations from BEGIN to END |
| BalanceShift.VerdictMoved | qualification/native_capacity_paced_timer_outer_capture_data_v3.py:342-396 | Moving balance and parent log together changes neither verdict nor check |
| WriterLaws.CompleteAtLast | qualification/native_capacity_managed_workload_v3.py:484 | Whatever was reserved, the completeness counters are full exactly when the last original was seen |
| ResourceLaws.CapturedPlanAdmitted | qualification/native_capacity_paced_timer_resource_plan_v3.py:84-120 | Every workload the planner admits is one the envelope checker admits |
| ResourceLaws.CapturedExactly | qualification/native_capacity_paced_timer_resource_plan_v3.py:84-120 | The planner admits exactly the plans that the envelope checker admits with at most 256 calls in a lane and both budgets in range |
| ResourceLaws.RoundUpLeast | qualification/native_capacity_paced_timer_resource_plan_v3.py:161 | The rounding expression is the least multiple of the step that is at least the amount |
| ResourceLaws.FitsExactly | qualification/native_capacity_paced_timer_resource_plan_v3.py:159-173 | `fits` holds exactly when the bytes to capture are within the entry cap, and exactly when the stdout limit is not cut below them |
| ResourceLaws.QuotaHoldsParts | qualification/native_capacity_paced_timer_resource_plan_v3.py:162-170 | The quota holds every part and wastes less than one MiB |
| ResourceLaws.TimeoutCovers | qualification/native_capacity_paced_timer_resource_plan_v3.py:171-172 | The timeout covers all budgets plus 20 seconds, rounded up by less than a second, and lies between 28 and 216 seconds |
| ResourceLaws.RawEventsWithinPlan | qualification/native_capacity_paced_timer_resource_plan_v3.py:133-142 | Logs that all four checkers accept never reach `uniqueRawTimingEventsMaximum`; they have at most 7S + 4 + 7 * lanes * calls + 2 + 6 * lanes events |
| ResourceLaws.FullRunMeaning | qualification/native_capacity_paced_timer_resource_plan_v3.py:180-182 | All requested calls entered the source exactly when the planned calls were completed and none withdrawn |
| ResourceLaws.RunSpan | qualification/native_capacity_paced_timer_resource_plan_v3.py:181 | A run that enters the source for all lanes * calls spreads its starts over at least `minimumSpanForAllRequestedMeasuredStartsMs` |
| SampleRun.RunAccepted | qualification/native_capacity_paced_timer_resource_plan_v3.py:84-120 | Every captured plan has, for every number of served calls, a run that all four checkers accept with the planned-calls flag set |
| SampleRun.SpanReached | qualification/native_capacity_paced_timer_resource_plan_v3.py:181 | The minimum span is tight: every captured plan has an accepted run that enters the source for every call and takes exactly that span |
| SampleRun.FlagAloneMisses | qualification/native_capacity_paced_timer_resource_plan_v3.py:181 | Wherever two calls are planned there is an accepted run with the flag set, one call withdrawn, and starts closer together than the minimum |
| SampleParent.LogAccepted | qualification/native_capacity_paced_timer_envelope_data_v1.py:189-295 | The parent log of such a run is accepted, with the readings, outcomes and checks asked for |
| SamplePaced.LogAccepted | qualification/native_capacity_paced_timer_envelope_data_v1.py:389-471 | Its paced log is accepted, with all lanes using all ordinals |
| SampleBalance.LogAccepted | qualification/native_capacity_paced_timer_outer_capture_data_v3.py:340-396 | Its balance log is accepted beside the parent log |
| RunShift.AcceptedMoved | qualification/native_capacity_paced_timer_envelope_data_v1.py:593-610 | The four checkers accept a run exactly when they accept it with all four parent-clock logs moved by a constant, declared summaries and raw event count unchanged |
| WriterReplay.CheckIntervals | qualification/native_capacity_managed_workload_v3.py:312-322 | The loop over the brackets answers exactly whether ordinals, the four readings, the previous commit and both durations are in order |
| WriterReplay.CountReads | qualification/native_capacity_managed_workload_v3.py:449-452 | The two sums count the hook readings before and through the stop |
| WriterReplay.Attributor.Attribute | qualification/native_capacity_managed_workload_v3.py:459-475 | The run-length automaton moves exactly as declared or refuses with the source's code |
| WriterReplay.Attributor.Accept | qualification/native_capacity_managed_workload_v3.py:456-483 | One row moves the automaton, its own group and the pooled samples, and no other group |
| WriterReplay.Attributor.CheckGroups | qualification/native_capacity_managed_workload_v3.py:503-511 | The 21 declared groups are compared with the rebuilt ones |
| WriterReplay.AttributeAll | qualification/native_capacity_managed_workload_v3.py:456-483 | The loop stops at the first refusal or leaves the figures of all rows |
| WriterReplay.CheckWriters | qualification/native_capacity_managed_workload_v3.py:434-513 | The whole writer checker reaches exactly the declarative verdict |
| WriterLaws.RunsExactly | qualification/native_capacity_managed_workload_v3.py:462-475 | The automaton over rank marks with its final state accepts exactly the language C* 0+ C* 1+ ... (T-1)+ C* |
| WriterLaws.AttributionExactly | qualification/native_capacity_managed_workload_v3.py:454-484 | Whatever warmup was reserved, loop and completeness check accept exactly the rows that are sound one by one and whose marks spell that language |
| WriterLaws.AttributionInBlocks | qualification/native_capacity_managed_workload_v3.py:473-484 | So every original appears, in order, as one contiguous block |
| WriterLaws.WarmupFirst | qualification/native_capacity_managed_workload_v3.py:473-484 | In accepted rows every warmup row precedes every measured one |
| WriterLaws.CompleteNeedsWarmup | qualification/native_capacity_managed_workload_v3.py:467-484 | Where measured originals were reserved, no rows are accepted as complete unless exactly the planned warmup was reserved |
| WriterLaws.ShortWarmupBlocks | qualification/native_capacity_managed_workload_v3.py:467-475 | With fewer warmup calls reserved than planned no measured original can be attributed |
| WriterExact.AcceptedExactly | qualification/native_capacity_managed_workload_v3.py:312-513 | The writer verdict succeeds exactly when the rows are in number, every bracket declares afterCommit - beforeBegin as its whole span and beforeCommit - afterBegin as its inner one and follows those before it, the stop fits the clock reads, the rows spell the lane's originals, and each group and total summarizes the spans of its own positions, whole ones as brackets and inner ones as inside |
| WindowLaws.ClassMeaning | qualification/native_capacity_managed_workload_v3.py:423-432 | Each of the seven classes is characterised by the order of the four readings |
| WindowLaws.ClassesInOrder | qualification/native_capacity_managed_workload_v3.py:423-432 | For rows in clock order the classes come in window order, with at most one of each crossing |
| WindowLaws.DoubleCrossingExcludes | qualification/native_capacity_managed_workload_v3.py:429 | A row that crosses both boundaries leaves only BEFORE ahead of it and only AFTER behind it |
| WindowLaws.GroupsPartition | qualification/native_capacity_managed_workload_v3.py:476-483 | The 21 groups partition the rows: together they hold every duration and every change once |
| WindowLaws.InsertionPoints | qualification/native_capacity_managed_workload_v3.py:449-452 | The two sums are the lower and upper insertion points of the stop in the ordered readings |
| WindowLaws.ReadsCorrelateExactly | qualification/native_capacity_managed_workload_v3.py:449-453 | The declared clock-read count is accepted exactly when the stop fits in clock order after that many hook readings |
| WindowLaws.ClockReadBoundImplied | qualification/native_capacity_managed_workload_v3.py:442 | The declared bound on clock reads never decides |
| WriterShift.VerdictMoved | qualification/native_capacity_managed_workload_v3.py:312-513 | Moving all service-clock readings of a lane leaves the verdict and every summary unchanged |
| LaneProtocol.Lane.constructor | qualification/capacity-native-payer-lane.protocol.js:21-23 | A new lane is NEW with nothing reserved |
| LaneProtocol.Lane.DoHold | qualification/capacity-native-payer-lane.protocol.js:24 | Holding sets the flag and the phase, nothing else |
| LaneProtocol.Lane.SettlePhase | qualification/capacity-native-payer-lane.protocol.js:25-28 | Settling recomputes the phase from hold, close and active ticket |
| LaneProtocol.Lane.Claim | qualification/capacity-native-payer-lane.protocol.js:29-46 | A claim is granted exactly when the lane is free, not held, not closing, in the kind's phase and, for EXECUTE, names the next call; a refused claim changes nothing |
| LaneProtocol.Lane.Complete | qualification/capacity-native-payer-lane.protocol.js:47-57 | Only the active ticket completes; a success counts and moves the phase unless held; anything else holds the lane |
| LaneProtocol.Lane.RequestClose | qualification/capacity-native-payer-lane.protocol.js:58-63 | The first request issues the close ticket, later ones return the same |
| LaneProtocol.Lane.CompleteClose | qualification/capacity-native-payer-lane.protocol.js:64-68 | Only the pending close is completed; anything else holds the lane |
| LaneProtocol.Lane.MarkUnknown | qualification/capacity-native-payer-lane.protocol.js:76-78 | Marking unknown holds the lane |
| LaneLaws.LaneInvariant | qualification/capacity-native-payer-lane.protocol.js:21-78 | Over every call sequence, refused calls included: granted tickets are a prefix of OPEN PREPARE COMMIT SUBMIT BIND EXECUTE^(W+M), phase and counters say which, and reserved = completed + active EXECUTE + at most one UNKNOWN |
| LaneHistory.StateExactly | qualification/capacity-native-payer-lane.protocol.js:21-78 | After every sequence of calls the whole state is the one that six facts determine: how many tickets were granted, completed, completed with SUCCESS, whether a close was asked for and how it was reported, and whether some call broke the lane |
| LaneHistory.TakenExactly | qualification/capacity-native-payer-lane.protocol.js:29-68 | A claim is granted exactly when it is the next of the script on a lane not broken, not closing and with no open ticket; a completion is taken exactly when it presents the last granted ticket while that is open; a close report exactly when it presents the pending close |
| LaneHistory.HeldExactly | qualification/capacity-native-payer-lane.protocol.js:24-78 | The lane is held exactly when some call was a completion or close completion that was refused or reported UNKNOWN, whatever the kind of its ticket, or a bare mark |
| LaneHistory.PhaseCountsSuccesses | qualification/capacity-native-payer-lane.protocol.js:47-57 | On a lane that is not held every completed ticket reported SUCCESS, and its phase, active ticket and completed calls are where the script stands after that many successes |
| LaneLaws.HeldAbsorbs | qualification/capacity-native-payer-lane.protocol.js:24-28 | No sequence of calls leaves HELD or is granted a ticket in it |
| LaneLaws.ClosedExactly | qualification/capacity-native-payer-lane.protocol.js:25-28 | CLOSED holds exactly when not held, the close RETURNED and nothing is active |
| LaneLaws.FromClosed | qualification/capacity-native-payer-lane.protocol.js:25-78 | From CLOSED a call leads only to the same state or to HELD, and grants nothing |
| LaneLaws.RefusalEffect | qualification/capacity-native-payer-lane.protocol.js:29-68 | A refused claim or malformed request changes nothing; a refused completion changes only hold and phase |
| LaneLaws.TicketCompletesOnce | qualification/capacity-native-payer-lane.protocol.js:47-57 | An issued ticket completes at most once; presented again it holds the lane |
| LaneLaws.ScriptCloses | qualification/capacity-native-payer-lane.protocol.js:29-68 | The whole script can be run and closed with every call of the plan completed |
| LaneOriginals.Capture | qualification/capacity-native-payer-lane.protocol.js:103-132 | The capture loop accepts exactly the lists that follow the plan's order with one grant, one resource, fresh ids and bounded bytes |
| LaneOriginals.CapturedMeans | qualification/capacity-native-payer-lane.protocol.js:108-132 | The k-th captured original is the lane's k-th call and no request id occurs twice |
| LaneOriginals.TicketsSelectOriginals | qualification/capacity-native-payer-lane.protocol.js:29-132 | Over every call sequence the k-th EXECUTE ticket selects exactly the k-th captured original, so no request id is selected twice |
| PayerTrace.CheckPayer | qualification/native_capacity_paced_timer_outer_capture_data_v3.py:311-324 | The payer loop accepts exactly the logs with one command per step, in the script's order, each starting no earlier than the previous one ended |
| PayerTrace.PayerExactly | qualification/native_capacity_paced_timer_outer_capture_data_v3.py:311-324 | A log of the right length is accepted exactly when it is INIT, the five set-up steps, one EXECUTE per call, CLOSE with the returned status and RELEASE_IPC with the releasing status, all others observed, numbered from one and never overlapping |
| PayerTrace.CommandsNeverOverlap | qualification/native_capacity_paced_timer_outer_capture_data_v3.py:322-324 | No two commands overlap, so together they take no longer than the log spans |
| PayerTrace.PayerTimesTickets | qualification/native_capacity_paced_timer_outer_capture_data_v3.py:312-313 | Between INIT and CLOSE the accepted log times exactly the tickets the lane grants, and a plan of at most 256 calls never needs more than 264 commands |
| Exchange.FirstNewline | qualification/api-credit-linux-acceptance.py:552-553 | The index of the first newline of a buffer that has one |
| Exchange.Endpoint.constructor | qualification/api-credit-linux-acceptance.py:504-507 | An exchange starts with an empty history, at the first command, nothing sent or read |
| Exchange.Endpoint.OnWritable | qualification/api-credit-linux-acceptance.py:519-533 | A partial write adds its step to the history and succeeds exactly when the run so far goes on; the fields stay where the run leads |
| Exchange.Endpoint.OnLine | qualification/api-credit-linux-acceptance.py:552-568 | A complete line must be the reply expected, to a command written in full; then the next command is set up, after the provider's activation at the third reply |
| Exchange.Endpoint.OnReadable | qualification/api-credit-linux-acceptance.py:534-568 | The same for a chunk: it is bounded by the expected bytes and all its complete lines are processed in order |
| ExchangeLaws.BarrierInvariant | qualification/api-credit-linux-acceptance.py:508-568 | Under every interleaving of partial writes and chunked reads: bytes sent are the answered commands plus a prefix of the current one; bytes read are the matched replies plus a newline-free remainder |
| ExchangeLaws.EndpointSound | qualification/api-credit-linux-acceptance.py:508-568 | The barrier invariant holds of the object after every sequence of its method calls |
| ExchangeLaws.RepliesAndCommands | qualification/api-credit-linux-acceptance.py:528-559 | repliesMatched <= commandsWritten <= repliesMatched + 1 |
| ExchangeLaws.NoByteBeforeReply | qualification/api-credit-linux-acceptance.py:552-568 | A byte of command k is sent only after every reply before k was read and matched in full |
| ExchangeLaws.ActivatedOnce | qualification/api-credit-linux-acceptance.py:561-566 | The provider is activated exactly once, after the third reply and before any byte of the fourth command |
| ExchangeLaws.PassingRun | qualification/api-credit-linux-acceptance.py:569-579 | A passing run has exactly one more command than replies, sent every command and read every reply whole and in order, and nothing else |
| ExchangeExact.StepExactly | qualification/api-credit-linux-acceptance.py:519-568 | A run goes on exactly when the bytes so far allow it: a write when it takes some bytes and stays inside the command that the newlines read call for; a read when all bytes read are whole one-line replies, each to a command sent in full and with a command to follow, plus a rest without newline, within the total, and the provider acknowledges where its activation is due |
| ExchangeExact.RunsExactly | qualification/api-credit-linux-acceptance.py:508-568 | A sequence of steps is a run exactly when the bytes before each step allow it |
| ExchangeExact.PassesExactly | qualification/api-credit-linux-acceptance.py:569-579 | A run passes exactly when all bytes of all commands were taken and all bytes of all replies read, with one command more than replies and a third reply where there is a provider |
| ExchangeRuns.EveryCuttingPasses | qualification/api-credit-linux-acceptance.py:508-579 | Every script with one more command than replies, nonempty commands and one-line replies has a passing run for every cutting of its bytes into writes and reads |
| ExchangeRuns.OnlyPlayablePasses | qualification/api-credit-linux-acceptance.py:508-579 | No other script has a passing run |
| Provider.Process.PumpRead | qualification/api-credit-linux-acceptance.py:361-369 | Output must extend the awaited reply, and completes it only with nothing left to write |
| Provider.Process.PumpWrite | qualification/api-credit-linux-acceptance.py:386-398 | A partial write moves the offset; the last byte counts the command |
| Provider.Process.BeginActivation | qualification/api-credit-linux-acceptance.py:403-408 | Activation is entered once, after the startup reply, with nothing pending |
| Provider.Process.EndActivation | qualification/api-credit-linux-acceptance.py:409-411 | It returns with exactly two replies and one command |
| Provider.Process.BeginClose | qualification/api-credit-linux-acceptance.py:413-418 | The close is entered only after the activation matched |
| Provider.Process.PumpBootstrap | qualification/api-credit-linux-acceptance.py:394-398 | A start-up pipe that took its bytes is closed |
| Provider.ProviderInvariant | qualification/api-credit-linux-acceptance.py:343-424 | Under every interleaving: commands and replies alternate, bytes on both pipes are a prefix of the plan's, and no reply is matched before its command is written in full |
| Provider.ProcessSound | qualification/api-credit-linux-acceptance.py:343-424 | The invariant holds of the object after every sequence of its method calls |
| Provider.OperationsOnce | qualification/api-credit-linux-acceptance.py:403-418 | Activation and close are entered at most once each, in order, each only when exactly the bytes before it have passed |
| ProviderExact.EventExactly | qualification/api-credit-linux-acceptance.py:343-418 | When each event is accepted, from the events and bytes so far: output when it extends the replies called for and completes them only with both start-up pipes closed and every command taken; activation and its return when exactly the replies before them were read; the close exactly after that return |
| ProviderRuns.CompletesExactly | qualification/api-credit-linux-acceptance.py:403-424 | A run is complete exactly when both operations were entered and all three replies were read; then both commands were taken whole |
| ProviderRuns.EveryCuttingCompletes | qualification/api-credit-linux-acceptance.py:291-424 | Every plan of nonempty commands and replies has a complete run for every cutting of its bytes |
| ActivationBarrier.ActivationBetween | qualification/api-credit-linux-acceptance.py:508-568 | The two machines together, under every interleaving on all four pipes: until the third reply matched the provider was sent nothing and said only its startup reply; from then on its whole activation command was sent and its whole activation reply read, and that is so before any byte of the fourth command |
| ActivationBarrier.AlwaysStands | qualification/api-credit-linux-acceptance.py:508-568 | After every joint step the provider stands exactly where the exchange's activation count says: before its one activation or after it |
| JsonReading.TextReads | qualification/native_capacity_managed_workload_v3.py:56-57 | A compact text is read in one way only: where it begins determines where it ends and what it is |
| JsonReading.PrintReads | qualification/native_capacity_managed_workload_v3.py:56-57 | Compact printing is injective, fields in their order |
| JsonEquality.SameIsNormal | qualification/native_capacity_paced_timer_envelope_data_v1.py:40-48 | Recursive `same` holds exactly when the trees are equal up to the order of keys |
| JsonEquality.CanonicalExactly | qualification/native_capacity_managed_workload_v3.py:56-57 | Equal canonical bytes hold exactly when recursive `same` holds |
| JsonStack.LookAt | qualification/native_capacity_paced_timer_managed_command_data_v3.py:45-63 | One popped pair is decided, or replaced by the pairs that stand for it |
| JsonStack.StackSame | qualification/native_capacity_paced_timer_managed_command_data_v3.py:41-64 | The explicit-stack `same` terminates and answers True exactly for trees that are `same` and within every budget; it raises only beyond a budget |
| JsonFrame.Frame | qualification/native_capacity_paced_timer_outer_capture_data_v3.py:76-101 | The scanning loop answers exactly whether the declarative scan ends unquoted at depth zero |
| JsonFrameLaws.FrameExactly | qualification/native_capacity_paced_timer_outer_capture_data_v3.py:76-101 | A compact object text with its newline passes exactly when it fits, every byte is printable with no space outside strings, and brackets nest at most 32 deep |
| JsonFrameLaws.PrintedFrame | qualification/native_capacity_paced_timer_outer_capture_data_v3.py:76-101 | The canonical print of any object passes exactly when it fits and nests at most 32 deep: no string can make it fail |
| JsonFrameLaws.FrameBoundsVisits | qualification/native_capacity_managed_workload_v3.py:370-390 | A frame that passed the scanner can never fail the depth bound of the tree walk |
| JsonSpelling.SpelledFrame | qualification/native_capacity_paced_timer_outer_capture_data_v3.py:76-101 | For any printer whose strings use the spellings of section 7 of RFC 8259: the frame passes exactly when it fits, nests at most 32 deep and no DEL stands as itself; for values free of DEL the spelling cannot matter |
| JsonSpelling.RawDelRefused | qualification/native_capacity_paced_timer_outer_capture_data_v3.py:76-101 | The condition is needed: an object with one DEL spelled as itself is refused at any size, while its canonical print passes |
| JsonSpelling.SpelledVisits | qualification/native_capacity_managed_workload_v3.py:370-390 | Any such spelling that passes is walked to the bottom within the depth bound |
| JsonSpelling.WriteSpells | qualification/native_capacity_managed_workload_v3.py:56-57 | The canonical print is one of those spellings |

## Left out

- JSON shapes: exact field sets, types, versions and the constant authority and scope fields are not modelled; events and reports are typed values, so unknown kinds and missing fields cannot be written down.
- Regular expressions, SHA-256, base64 and source pins: identifiers are opaque; the digest of an original command is modelled as the pair (cohort, ordinal) it is computed from, under a fixed run and lane.
- Lane names: lanes are numbers; the uniqueness and form of their names are left to the caller.
- `declared_post_stop`, the post-stop ledger counts and the inner-core flags of the paced report: field-by-field admission of figures that no event determines.
- `validate_parent_timing_data`: a second copy of the parent replay with the same arithmetic.
- The 3136-sample bound of `metric_summary` and `require_metric`: it equals the row bound 12 * 256 + 64 and is met by every admitted log.
- The status strings, page and counter fields of the writer report beyond those in `WriterTrace.Report`.
- The remaining report fields of `resource_plan` (reservations listed one by one, free-space sums, connection counts), `storage_policy`, `entry_plan`, `_plain`, and the plan's hash.
- Exchange modes without commands (journal start, offer refusal, recorded results), descriptors, selectors, deadlines, standard error markers and process exit: operating-system calls; a write or a read is one step that names what was taken or delivered.
- Of the provider inside the exchange only its output and control pipes are modelled; its standard error and its liveness checks are not.
- A second close of the provider: `BeginClose` refuses it because an operation was entered, the source because the close was already entered.
- End of file on a pipe: a read of no bytes is a step that moves nothing, in `Exchange` always and in `Provider` while a reply is awaited.
- ProviderExact.EventExactly: asks that no command and no reply of the plan is empty; an empty command can never be written and an empty reply never matched by a read of some bytes.
- JavaScript argument shapes (proxies, prototypes, negative zero, extra properties) beyond "no branch accepts it"; the text form and constant fields of an original are one flag.
- Node counts and array bounds of `capture_tree_in_place` and `bounded`: only their depth bound is related to the scanner.
- JSON text that is not compact, and numbers that are not integers: the parser refuses them after the scanner; parsing itself is not modelled.
- Characters outside ASCII: the checkers refuse them.
- ParentReplay.Replay.OnBegin: after a refusal the fields are left as the refused step wrote them and the contract says nothing about them, because the source raises and drops the state; the same holds of every `On...` method of the replays.
- Exchange.Endpoint.OnReadable: after a failed check the contract says only that it failed, because the source raises and reports.
- BalanceReplay.CheckBalance: requires a nonempty parent log, because the source calls it only with a log the parent checker accepted.
- LaneDispatch.CountDispatches: requires an accepted paced log, because the source counts only after the envelope checker accepted it; the contents of the counts after a refusal are not described.
- Ledger, journal, SQLite, HTTPS and Gate-B components, and the earlier variants of the planner and the outer capture.
