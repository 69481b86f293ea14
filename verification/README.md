# loadr coordination, verified

loadr is a distributed load generator. A controller reserves agents, hands each a partition of a
test plan, starts the fleet on one clock and merges the metrics the agents stream back. This
project models that coordination protocol in Dafny and proves what it promises over every
schedule. Two smaller cores are modelled beside it: the `${...}` template parser and the
access-log importer.

`dafny verify dfyconfig.toml` checks everything.

## How the model is built

**The uplink window** (`UplinkWindow`, `Wakeups`). Each agent buffers sequence-stamped messages
until they are acknowledged. `UplinkWindow` has the window's atomic sections as functions, and the
class `Uplink` whose methods perform them. `Wakeups` adds the two `Notify` objects: every lock
section and every notification is its own step, so a notification can be owed while others run.

**Delivery** (`Delivery`). One agent id's link to the controller: the process and its window, every
stream it ever opened with the frames in flight both ways, and the controller's seat (live session,
incarnation, deduplication cursor). Streams die, acknowledgements are dropped and the process
restarts at any step. `logs` and `admitted` are history.

**Runs** (`RunLifecycle`, `ControllerRun`). The controller's view of a run: the preparation
barrier, failure recorders, loss and resume, completion and the frozen summary. A function is one
critical section. What a task still has to do after releasing its locks is state: owed checks, owed
finalizations, a sweep in progress. `ControllerRun.Record` is the mutable object.

**Agents** (`AgentSlot`, `AgentProcess`). The shared slot, detached preparation and run tasks, and
the messages they still have to enqueue. `AgentProcess.Process` is the mutable object.

**The fleet** (`Fleet`, `Registry`). All of the above as one transition system with 21 kinds of
step. `FleetInv` is its inductive invariant, the `Fleet*Proof` modules prove each kind of step
keeps it, and `FleetGuarantees` states the results for every state that any schedule reaches.
`Registry.Table` is the controller's mutable agent table.

**Control commands** (`ControlBarrier`), **templates** (`Utf8`, `Template`, `TemplateInverse`),
**calendar and traffic shape** (`Calendar`, `TrafficShape`) stand alone.

### What the steps assume

- Agent and run ids are natural numbers; run ids are never reused. Incarnations of one agent id are
  numbered in the order the processes start, and an older one does not register after a newer one.
- A stream delivers in order in both directions and may stop at any point. Downlink messages other
  than those on the current stream are never read.
- Registration with its follow-up, submission with its assignments, and finalization with the
  release of reservations are single steps. The source takes several locks in each. If the
  registration's phase check and its send were split around a barrier commit, an `Assignment` could
  follow a `Halt` and precede a `Start` on one stream, and `OneEngineAtATime` would not follow.
- Applying an admitted message is a step of its own, so messages of one agent may be applied out of
  order, also across sessions. That allows more than the source does.
- Heartbeats, liveness deadlines, the preparation timeout, engine outcomes and message loss are
  choices of the schedule. A metrics delta is an integer label; merging adds it to a multiset.
- Numbers are unbounded; sequence numbers and counters do not wrap.

## Model

| member | source | states |
|---|---|---|
| `UplinkWindow.PushKeeps` | crates/loadr-agent/src/uplink.rs:167-187 | an accepted push takes the next number and goes to the back; a full or closed window refuses and changes nothing; the byte budget is exceeded by at most the newest entry |
| `UplinkWindow.AckKeeps` | crates/loadr-agent/src/uplink.rs:191-221 | an acknowledgement retires exactly the numbers up to its own, frees exactly their bytes and keeps the cursor on the same entry; one beyond what was sent changes nothing |
| `UplinkWindow.AckIsCumulative` | crates/loadr-agent/src/uplink.rs:191-221 | two acknowledgements are the larger one, and a repeated one does nothing |
| `UplinkWindow.EveryOperationSequence` | crates/loadr-agent/src/uplink.rs:39-274 | over every sequence of operations the window stays well formed and in budget, and each epoch's writer emits increasing numbers that skip only acknowledged ones |
| `UplinkWindow.Uplink.constructor` | crates/loadr-agent/src/uplink.rs:95-118 | a new uplink is the empty window |
| `UplinkWindow.Uplink.TryPush` | crates/loadr-agent/src/uplink.rs:167-187 | performs the push section |
| `UplinkWindow.Uplink.AckThrough` | crates/loadr-agent/src/uplink.rs:191-221 | performs the acknowledgement section, byte for byte |
| `UplinkWindow.Uplink.RetireThrough` | crates/loadr-agent/src/uplink.rs:204-212 | the pop loop retires exactly the covered prefix |
| `UplinkWindow.Uplink.BeginEpoch` | crates/loadr-agent/src/uplink.rs:225-235 | a new epoch replays from the oldest unacknowledged message |
| `UplinkWindow.Uplink.TakeUnsent` | crates/loadr-agent/src/uplink.rs:244-266 | the live epoch gets its next unwritten entry; a superseded one gets nothing and moves nothing |
| `UplinkWindow.Uplink.Shut` | crates/loadr-agent/src/uplink.rs:270-274 | closing keeps what is pending |
| `WakeupsProof.ActKeeps` | crates/loadr-agent/src/uplink.rs:134-274 | every lock section, notification, wait, resume, send and abort keeps the wakeup invariant |
| `WakeupsProof.NoLostWakeup` | crates/loadr-agent/src/uplink.rs:134-274 | in every schedule the current writer waits with work to do only while a wakeup is on its way, and a producer waits with room or after close only while a notification is owed; once all have run, the writer waits only on a drained open window |
| `WakeupsProof.AbortNotifiedKeeps` | crates/loadr-agent/src/uplink.rs:293-335 | aborting a notified writer forwards its notification |
| `WakeupsProof.StaleCheckKeeps` | crates/loadr-agent/src/uplink.rs:244-266 | a superseded writer hands the permit on when it leaves |
| `DeliveryProof.TakeSeatKeeps` | crates/loadr-agent/src/controller.rs:374-415 | a registration keeps the delivery invariant: a reconnect continues the cursor, a restart begins at 0 |
| `DeliveryProof.AdmitKeeps` | crates/loadr-agent/src/controller.rs:659-710 | admitting the next number keeps the record exact: each incarnation's admissions stay a stamped prefix of its log |
| `DeliveryProof.ReceiveKeeps` | crates/loadr-agent/src/controller.rs:715-732 | receiving any frame on any stream, with or without its acknowledgement, keeps the delivery invariant |
| `DeliveryProof.LiveFrameIsNext` | crates/loadr-agent/src/controller.rs:691-701 | a frame on the live session is at most one past the cursor, and carries that number's message |
| `DeliveryProof.RunKeeps` | crates/loadr-agent/src/uplink.rs:39-335 | the delivery invariant holds after every schedule of sends, losses, reconnects and restarts |
| `DeliveryProof.ExactlyOnce` | crates/loadr-agent/src/controller.rs:650-732 | per incarnation the admissions are 1, 2, 3, ... in order, each carrying what that process enqueued there, and every admission is applied once or still owed |
| `DeliveryProof.NoLoss` | crates/loadr-agent/src/uplink.rs:1-30 | what the live process enqueued is the admitted prefix followed by a suffix of its window |
| `DeliveryProof.DefensiveBranchesUnreachable` | crates/loadr-agent/src/controller.rs:691-701 | no sequence gap is ever seen on a live session, and no acknowledgement beyond what was sent |
| `DeliveryProof.StaleStreamIsFenced` | crates/loadr-agent/src/controller.rs:652-667 | a superseded stream's traffic moves no cursor, applies nothing and acknowledges nothing |
| `RunLifecycle.StepKeeps` | crates/loadr-agent/src/controller.rs:627-1170 | every critical section keeps the run invariant and only evolves the run |
| `RunLifecycle.RecordPrepFailureKeeps` | crates/loadr-agent/src/controller.rs:627-640 | recording a failure keeps the invariant that a committed run has none |
| `RunLifecycle.CommitKeeps` | crates/loadr-agent/src/controller.rs:1411-1436 | the barrier's commit keeps the invariant: all ready, no failure, an empty aggregate |
| `RunLifecycle.SweepSettleKeeps` | crates/loadr-agent/src/controller.rs:1146-1168 | settling a sweep keeps the invariant on both sides of the start |
| `RunLifecycle.RestartedKeeps` | crates/loadr-agent/src/controller.rs:456-495 | a restart of a participant keeps the invariant |
| `RunSafety.NoStartAfterFailure` | crates/loadr-agent/src/controller.rs:620-640 | once a preparation failure, an early stop or the timeout is decided, no later step commits a start |
| `RunSafety.NoFailureAfterStart` | crates/loadr-agent/src/controller.rs:1419-1434 | a committed run records no preparation failure, is never finalized by the barrier and keeps its start time |
| `RunSafety.OnlyTheBarrierStarts` | crates/loadr-agent/src/controller.rs:872-878 | a pending run becomes running only by the barrier's commit, never by a `started` event |
| `RunSafety.FirstFailureDecides` | crates/loadr-agent/src/controller.rs:633-636 | the first recorded failure is never replaced; the run settles with its verdict, or fails on the timeout |
| `RunSafety.LossFollowsPolicy` | crates/loadr-agent/src/controller.rs:1151-1168 | under `abort` a loss after the start owes the failed verdict until the run is settled; under `continue` it owes only a check |
| `RunSafety.OwedUntilSettled` | crates/loadr-agent/src/controller.rs:953-957 | an owed finalization stays owed until the run is settled |
| `RunSafety.TerminalFreeze` | crates/loadr-agent/src/controller.rs:953-1003 | a terminal state, its summary and its contributors appear together and never change; the contributors are exactly the agents in the summary |
| `RunSafety.NoMissedCompletion` | crates/loadr-agent/src/controller.rs:923-951 | a committed, unsettled run whose agents have all reported or been lost has a check, a finalization or a sweep outstanding |
| `RunSafety.CheckVerdict` | crates/loadr-agent/src/controller.rs:925-951 | exactly when a check decides, and when its verdict is finished or failed |
| `ControllerRun.EveryoneReported` | crates/loadr-agent/src/controller.rs:932-935 | the loop over the assigned agents |
| `ControllerRun.AnyReported` | crates/loadr-agent/src/controller.rs:936-937 | the scan of the terminal kinds |
| `ControllerRun.EveryoneReady` | crates/loadr-agent/src/controller.rs:1419 | the scan of the preparation phases |
| `ControllerRun.Decide` | crates/loadr-agent/src/controller.rs:929-950 | complete or not, and the verdict |
| `ControllerRun.Record.constructor` | crates/loadr-agent/src/controller.rs:1588-1632 | a new run is pending with every agent assigned |
| `ControllerRun.Record.RecordFailure` | crates/loadr-agent/src/controller.rs:627-640 | records at most the first failure, only while pending, and says whether it did |
| `ControllerRun.Record.HandleReady` | crates/loadr-agent/src/controller.rs:826-855 | marks the agent ready only for its own partition of an unsettled run |
| `ControllerRun.Record.HandleStarted` | crates/loadr-agent/src/controller.rs:872-878 | the `started` event's section |
| `ControllerRun.Record.HandleMetrics` | crates/loadr-agent/src/controller.rs:760-789 | merges and records contribution together, or drops the delta after the freeze |
| `ControllerRun.Record.HandleEnded` | crates/loadr-agent/src/controller.rs:895-917 | records the terminal event and owes a check |
| `ControllerRun.Record.Check` | crates/loadr-agent/src/controller.rs:925-951 | the completion section and the verdict it hands on |
| `ControllerRun.Record.Settle` | crates/loadr-agent/src/controller.rs:953-995 | the first finalization writes summary and state; a later one changes nothing |
| `ControllerRun.Record.SelectLost` | crates/loadr-agent/src/controller.rs:1122-1137 | the loop picks exactly the expired agents the run still counts on |
| `ControllerRun.Record.MarkLost` | crates/loadr-agent/src/controller.rs:1138-1143 | marks one of them |
| `ControllerRun.Record.ApplyLossPolicy` | crates/loadr-agent/src/controller.rs:1156-1168 | the run's loss policy |
| `ControllerRun.Record.SettleSweep` | crates/loadr-agent/src/controller.rs:1144-1168 | a loss before the start is a preparation failure, after it a matter of policy |
| `ControllerRun.Record.TerminateParticipation` | crates/loadr-agent/src/controller.rs:456-495 | settles a restarted process's part in the run |
| `ControllerRun.Record.Resume` | crates/loadr-agent/src/controller.rs:568-592 | only a credible claim clears the lost mark |
| `ControllerRun.Record.Poll` | crates/loadr-agent/src/controller.rs:1407-1440 | one pass of the barrier's loop, commit included |
| `ControllerRun.Record.FailPreparation` | crates/loadr-agent/src/controller.rs:1480-1497 | the barrier's failure path settles at most once |
| `ControllerRun.Record.StopRequested` | crates/loadr-agent/src/controller.rs:1702-1713 | a stop before the start goes to the barrier, otherwise to the agents |
| `ControllerRun.Record.StopAcknowledged` | crates/loadr-agent/src/controller.rs:1825-1830 | marks an unsettled run stopping |
| `AgentSlotProof.CancelledNeverRuns` | crates/loadr-agent/src/agent.rs:408-459 | a preparation that was cancelled, or an engine that was disarmed, never runs in any later schedule |
| `AgentSlotProof.RunsOnceOnItsStart` | crates/loadr-agent/src/agent.rs:738-779 | each task runs at most once, at a time a Start for its run named |
| `AgentSlotProof.StartsWereReceived` | crates/loadr-agent/src/agent.rs:388-407 | every Start the process acted on is one it received |
| `AgentSlotProof.StepKeeps` | crates/loadr-agent/src/agent.rs:358-779 | every handler and task step keeps the slot invariant |
| `AgentExclusive.AtMostOneStarted` | crates/loadr-agent/src/agent.rs:546-590 | at most one engine of a process is started and unfinished, and the slot names it |
| `AgentExclusive.AssignmentKeeps` | crates/loadr-agent/src/agent.rs:546-590 | claiming, keeping or refusing the slot preserves that |
| `AgentExclusive.ClearsKeeps` | crates/loadr-agent/src/agent.rs:746-753 | a leaving run task preserves that, although it compares run ids and not tasks |
| `AgentProcess.Process.constructor` | crates/loadr-agent/src/agent.rs:147-170 | a new process is idle |
| `AgentProcess.Process.HandleAssignment` | crates/loadr-agent/src/agent.rs:546-590 | claim the slot, ignore a duplicate, refuse while busy |
| `AgentProcess.Process.HandleStart` | crates/loadr-agent/src/agent.rs:388-407 | fire the start channel once, or latch the time |
| `AgentProcess.Process.HandleHalt` | crates/loadr-agent/src/agent.rs:408-459 | cancel, disarm or leave running, and acknowledge |
| `AgentProcess.Process.PreparationFailed` | crates/loadr-agent/src/agent.rs:609-631 | free the slot and report unless cancelled |
| `AgentProcess.Process.PreparationDone` | crates/loadr-agent/src/agent.rs:633-674 | arm and report readiness, or discard the engine |
| `AgentProcess.Process.Begin` | crates/loadr-agent/src/agent.rs:759-764 | the started engine runs |
| `AgentProcess.Process.Leave` | crates/loadr-agent/src/agent.rs:746-758 | clear the slot only when it is armed for this run |
| `Registry.Table.Admit` | crates/loadr-agent/src/controller.rs:659-710 | decision, cursor and acknowledgement are those of the delivery model; nothing else changes |
| `Registry.Table.Register` | crates/loadr-agent/src/controller.rs:372-415 | cursor, reservation and follow-up for a new, reconnecting or restarted process |
| `Registry.Table.MarkDisconnected` | crates/loadr-agent/src/controller.rs:642-649 | only the live session can mark its agent disconnected |
| `Registry.Table.Reserve` | crates/loadr-agent/src/controller.rs:1032-1064 | takes exactly the available agents, or reports busy or none and takes nothing |
| `Registry.Table.Release` | crates/loadr-agent/src/controller.rs:1018-1027 | clears exactly this run's reservations |
| `FleetTheorems.StepKeeps` | crates/loadr-agent/src/controller.rs:352-1170 | every step of the composed fleet keeps the global invariant |
| `FleetTheorems.AfterKeeps` | crates/loadr-agent/src/controller.rs:352-1170 | so does every schedule, and every run only evolves along it |
| `FleetGuarantees.EvidenceFollowsCommit` | crates/loadr-agent/src/controller.rs:1428-1433 | no `started`, metrics or terminal event is ever enqueued for a run the barrier has not committed |
| `FleetGuarantees.OnlyTheBarrierStarts` | crates/loadr-agent/src/controller.rs:1411-1436 | when a run starts, each participant's own readiness report has been applied and resetting the aggregate discards nothing |
| `FleetGuarantees.OneClock` | crates/loadr-agent/src/controller.rs:1464-1478 | every Start of a run, broadcast or replayed, at any time, carries the one committed timestamp |
| `FleetGuarantees.OnePartition` | crates/loadr-agent/src/controller.rs:526-546 | every Assignment of a run, first or replayed, names the agent's own index of one fixed split; indices and agents correspond one to one and every index has its agent |
| `FleetGuarantees.NoStartAfterFailure` | crates/loadr-agent/src/controller.rs:620-640 | a run that failed before its start is never started on any agent: no Start exists and none of its engines runs |
| `FleetGuarantees.ReservedWhileNeeded` | crates/loadr-agent/src/controller.rs:382-397 | a committed run's participants stay reserved for it until they report, are lost or the run settles, across reconnects |
| `FleetGuarantees.ExclusiveReservations` | crates/loadr-agent/src/controller.rs:1029-1064 | two unsettled runs never count on the same agent, and no reservation outlives its run |
| `FleetGuarantees.OneEngineAtATime` | crates/loadr-agent/src/agent.rs:546-590 | no process ever has two started, unfinished engines, and a started engine's run is committed |
| `FleetGuarantees.ExactDelivery` | crates/loadr-agent/src/controller.rs:650-732 | in the composed fleet, for every agent: each incarnation's admissions are 1, 2, 3, ... of its log, applied once or still owed; nothing the live process enqueued is lost; the gap branch and the acknowledgement-from-nowhere branch are unreachable |
| `FleetGuarantees.ExactMerge` | crates/loadr-agent/src/controller.rs:740-795 | of each incarnation's log a prefix is admitted in order, and of its deltas every one is merged, dropped after the freeze or still to be applied, exactly once; a summary is what was merged |
| `FleetGuarantees.FrozenForever` | crates/loadr-agent/src/controller.rs:953-1003 | a settled run's verdict, summary and contributors survive every later schedule |
| `FleetGuarantees.CompletionIsWatched` | crates/loadr-agent/src/controller.rs:923-951 | completion is never missed in the composed fleet |
| `ControlBarrier.SharesSplitTheTotal` | crates/loadr-agent/src/controller.rs:173-179 | the shares add up to the total, differ by at most one, larger ones first |
| `ControlBarrier.CompleteMeansEveryoneAnswered` | crates/loadr-agent/src/controller.rs:1768-1774 | comparing counts is the same as everyone addressed having answered |
| `ControlBarrier.StepKeeps` | crates/loadr-agent/src/controller.rs:1732-1821 | every step of the command protocol keeps its invariant |
| `ControlBarrier.SuccessMeansEveryAgentApplied` | crates/loadr-agent/src/controller.rs:1732-1832 | whatever is lost, delayed or reordered, success means every addressed agent applied its own message; for scale the applied values add up to the total |
| `Utf8.LeadGivesLength` | crates/loadr-config/src/template.rs:147-154 | the first byte tells the character's length |
| `Template.ScanBraces` | crates/loadr-config/src/template.rs:60-74 | the inner loop finds the byte that closes the opening |
| `Template.ClosingOnBytes` | crates/loadr-config/src/template.rs:60-74 | counting braces over bytes and over characters stops at the same place |
| `Template.ReadExpression` | crates/loadr-config/src/template.rs:58-88 | one expression: its trimmed code and what follows, or the error with its byte offset |
| `Template.Parse` | crates/loadr-config/src/template.rs:45-102 | the byte loop computes exactly the grammar's result on characters, and never slices inside a character |
| `Template.Render` | crates/loadr-config/src/template.rs:123-138 | literals and resolved values in order, or the first unresolved expression |
| `TemplateInverse.ClosingIsFirst` | crates/loadr-config/src/template.rs:60-77 | the scan stops at j exactly when j is the first place where the brace depth falls to zero |
| `TemplateInverse.EscapeRoundTrip` | crates/loadr-config/src/template.rs:3-6 | every string survives escaping, parsing and rendering, whatever the resolver |
| `TemplateInverse.PrintParseInverse` | crates/loadr-config/src/template.rs:45-102 | parsing a printed part list gives it back if and only if it is well formed, and the well-formed lists are exactly those the parser can produce |
| `TemplateInverse.PrintingIsCanonical` | crates/loadr-config/src/template.rs:45-102 | printing a parsed template and parsing it again changes nothing |
| `TemplateInverse.DollarBeforeExpression` | crates/loadr-config/src/template.rs:52-57 | a literal `$` before an expression is the list that does not survive |
| `TemplateInverse.ErrorsAreJustified` | crates/loadr-config/src/template.rs:75-81 | an error's offset is that of an opening that never closes, or that closes on blanks |
| `Calendar.NextDayIsOneMore` | crates/loadr-convert/src/accesslog.rs:80-88 | the next date is one day later, in every year of the proleptic Gregorian calendar |
| `Calendar.EpochIsZero` | crates/loadr-convert/src/accesslog.rs:79-88 | 1970-01-01 is day 0 |
| `Calendar.DaysFollowDates` | crates/loadr-convert/src/accesslog.rs:80-88 | day numbers are in calendar order and no two dates share one |
| `Calendar.EveryDayHasADate` | crates/loadr-convert/src/accesslog.rs:80-88 | every integer is the number of a date |
| `Calendar.DaysAreTheOnlyCount` | crates/loadr-convert/src/accesslog.rs:80-88 | any count that is 0 at the epoch and adds one per date is this one |
| `TrafficShape.Count` | crates/loadr-convert/src/accesslog.rs:195-218 | buckets, endpoint counts and all warning counters are exact, endpoints stand in first-seen order, and the buckets as well as the endpoint counts add up to the total |
| `TrafficShape.BucketsSumToTotal` | crates/loadr-convert/src/accesslog.rs:215-217 | over any stretch of time that covers them the per-second buckets add up to the total, as the endpoint counts do |
| `TrafficShape.RankedIsInOrder` | crates/loadr-convert/src/accesslog.rs:236-238 | the ranking is a permutation by descending count, ties in first-seen order |
| `TrafficShape.AnyStableSortAgrees` | crates/loadr-convert/src/accesslog.rs:238 | any permutation in rank order is this ranking, whichever stable sort runs |
| `TrafficShape.TopIsKept` | crates/loadr-convert/src/accesslog.rs:239-240 | no dropped endpoint outranks a kept one, and only the cap drops any |
| `TrafficShape.KeptRequests` | crates/loadr-convert/src/accesslog.rs:239-241 | the ranking has one entry per endpoint; kept requests are at most the total, and equal it exactly when no endpoint is dropped |
| `TrafficShape.SumKept` | crates/loadr-convert/src/accesslog.rs:241 | the sum of the kept counts |
| `TrafficShape.Extremes` | crates/loadr-convert/src/accesslog.rs:228-231 | the first and last second and the peak |
| `TrafficShape.Convert` | crates/loadr-convert/src/accesslog.rs:185-241 | an error exactly when the log has no request, otherwise a shape that describes exactly its requests, with exact warning counters, endpoint total and kept-request sum |
| `TrafficShape.AverageIsAtMostPeak` | crates/loadr-convert/src/accesslog.rs:226-233 | the log fits in peak times duration, so the average never exceeds the peak, and the peak never the total |
| `TrafficShape.RateFollowsTheLog` | crates/loadr-convert/src/accesslog.rs:232-233 | a converted log's rate is never above its peak; it is the average to the nearest hundredth, and exactly one hundredth for any average up to that |

## Left out

- Liveness: that a pending wakeup, an owed check or a retransmission eventually runs needs fairness; the safety half, that it is always outstanding, is proved.
- Agent shutdown: closing the uplink for good and draining it; `CloseLock` is modelled for wakeups, not in the fleet.
- Metric contents: series, tags, gauges, thresholds, timelines and summaries. A delta is a label, the aggregate a multiset of them.
- `lost_ever`, abort reasons, per-agent summaries and run listings: recorded for display, never decided on.
- Pause and resume: their commands follow `ControlBarrier`; the `paused` flag is not modelled.
- Stop and kill inside the fleet are one order, `Halt`; what a running engine does with it is a choice of the schedule.
- Delivery.CanSeat: an older incarnation does not register after a newer one; two live processes with one agent id, which the source warns about, are outside the model.
- FleetGuarantees.OneEngineAtATime: relies on registration being a single step.
- ControllerRun.Record.SelectLost: one sweep at a time per run; the source's sweeper is one loop.
- Registry.Table.Reserve: labels, freshness and connection are given as the set of matching agents; the sort by agent id is in `Fleet.Eligible`.
- Fixed-width integers: sequence numbers, counters, byte sizes and years do not wrap.
- Template rendering of JSON values, which returns literal strings unrendered.
- Template.Render: the resolver is a function of the expression; a stateful resolver is not modelled.
- Timestamp, time-zone and request-line parsing: lines reach `TrafficShape` classified. `days_from_civil` is modelled for every month and day the parser accepts, but the laws are stated for dates that exist.
- TrafficShape.Convert: lines arrive classified and normalised, and the average is an exact real.
- TrafficShape.RateFollowsTheLog: rounds an exact real where the source rounds a binary float.
- Path validation, file materialization, TLS, the HTTP and gRPC transport, the CLI and the web interface.
- The HAR importer, cookies, plan validation and thresholds: heuristics, schema plumbing or floating-point code.
