# LinkAlive: a verified model

LinkAlive checks URLs on a schedule, decides from the results whether a monitor is up or down, and tells people
about it. A relational ledger is authoritative; the queues between its processes may lose or duplicate work, leases
expire, workers stop half-way and administrators change things in between. This project models the protocols that
have to survive that, and proves what they promise for every run.

A protocol is written twice. A value model has one function per database transaction or stand-alone conditional
update, a `Step` datatype and `Run`; invariants and theorems are about it. Beside it stands a class whose fields are
the tables and whose methods update them as the code does; each method is proved to turn `Value()` into the
step function of `old(Value())`. Fields marked as history variables are read by no step.

| files | what they hold |
|---|---|
| `Domain.dfy` | shared vocabulary |
| `Arithmetic.dfy`, `Bits.dfy` | quotients, powers, and bitwise operations bit by bit |
| `HealthState.dfy` | the health state machine and the window characterisation |
| `Scheduling.dfy` | the slot grid, first checks, jitter and its hash |
| `CheckLedger.dfy`, `CheckInvariants.dfy`, `CheckPreservation.dfy`, `CheckTheorems.dfy`, `CheckStore.dfy` | the check pipeline: scheduler, dispatcher, workers, administrators, network guard |
| `CheckIncidents.dfy`, `CheckJobs.dfy`, `CheckSteps.dfy` | what incidents tell, how jobs and checks end, and each transaction told from the columns before it |
| `CheckSchedule.dfy`, `CheckRuns.dfy` | the schedule of checks, and two runs in which it goes wrong |
| `Outbox.dfy`, `OutboxInvariants.dfy`, `OutboxPreservation.dfy`, `OutboxTheorems.dfy`, `OutboxLeases.dfy`, `OutboxStore.dfy` | the notification outbox: rows, leases, attempts, late successes, cancellation |
| `OutboxFailures.dfy`, `OutboxSteps.dfy` | retries and final failures, and each transaction of the outbox told from the columns before it |
| `Pipeline.dfy` | checks and messages as one machine, from results to deliveries |
| `PagedDispatch.dfy` | the outbox dispatcher's re-querying loop |
| `DestinationLimiter.dfy`, `LimiterBounds.dfy`, `LimiterRecovery.dfy`, `LimiterScripts.dfy` | the Redis limiter, what it bounds, what comes back, and its scripts |
| `KeywordSearch.dfy` | the streaming keyword search |
| `CheckerLease.dfy` | the redirect loop and the leases it holds |
| `Retention.dfy`, `RetentionColumns.dfy`, `RetentionRunner.dfy` | the retention plan, what it deletes told from the columns, and its runner |
| `NetworkGuard.dfy` | probes and outages of one observer |
| `Address.dfy`, `PublicAddress.dfy` | IPv4 and IPv6 text, blocks and public addresses |

`dafny verify dfyconfig.toml` checks everything.

## What the code does differently from its design

- Section 10.2 of PROJECT_PLAN.md (line 382) replaces both messages by one summary whenever the DOWN was not yet
  attempted. The code decides by status, so a DOWN that a dispatcher holds in RETRY with no attempt gets a recovery.
  `OutboxTheorems.UntriedDownGetsSummaryIff` says exactly when the design's rule is met, and
  `OutboxTheorems.UntriedDownMayGetRecovery` gives a run in which it is not.
- The same section (line 383) lets a binding change take effect with the next incident. The code also asks for the
  binding at the time of the resolution, and again when the success of a DOWN is stored late. When a closing message is
  written is decided by `OutboxTheorems.ClosingNeedsBindingToday` and `OutboxTheorems.LateSuccessNeedsBindingToday`;
  `OutboxTheorems.DroppedBindingSilencesRecovery` and `OutboxTheorems.LateSuccessMayLackRecovery` are the failing runs.
- When a network outage ends, `nextCheckAt` of the monitors whose results were withheld is pulled to the time of the
  probe, and its commit may come late: the time can lie at or before a slot that was already used. A slot can then be
  earlier than an older one (`CheckRuns.PullForwardMayGoBack`), or the slot that is due is taken. createDueChecks is one
  transaction, so a taken slot aborts it for every due monitor of the batch, not only for the one whose slot it is
  (`CheckRuns.PullForwardMayBlock`), and the dispatch pass of that run is skipped (`CheckStore.Store.RunOnce`).
  `CheckSchedule.DowntimeIsCoalesced` and `CheckSchedule.PullForwardDecides` say exactly when a batch gets nothing,
  `CheckSchedule.OneStuckStopsAll` how long it lasts, and `CheckSchedule.SlotsIncreaseWithoutPullForward` that slots go
  forward in every run without such a pull.

## Model

| member | source | states |
|---|---|---|
| HealthState.WindowCharacterisation | packages/domain/src/state-machine.ts:137-202 | After any history of one configuration epoch the stored health, both counters and the streak fields are what the history's windows say; an incident is open iff F consecutive failures occur with no R consecutive successes after them. |
| HealthState.EffectsFollowWindows | packages/domain/src/state-machine.ts:137-202 | OPEN and RESOLVE are emitted exactly when the window condition is entered or left, UPDATE on every failure inside it; OPEN carries the time and error of the first of exactly F trailing failures. |
| HealthState.IgnoredKeepsState | packages/domain/src/state-machine.ts:114-136 | A result moves the state iff the monitor is active and the result is scheduled, current and about the target; otherwise nothing changes and no effect is emitted. |
| HealthState.RefusedIff | packages/domain/src/state-machine.ts:64-95 | A result is refused iff a version or a threshold is no positive safe integer or a counter no natural one. |
| HealthState.LifecycleDecides | packages/domain/src/state-machine.ts:220-300 | A deleted monitor stays deleted, a change to the present lifecycle does nothing, every other change forgets what is known about the target and cancels an incident unless the monitor becomes active, and a version only goes up. |
| Scheduling.CoalescedSlotIsLatest | packages/domain/src/scheduling.ts:86-97 | The due slot is the latest grid time not after now, and exists iff something is due. |
| Scheduling.SlotAfterIsFirst | packages/domain/src/scheduling.ts:72-83 | The next slot is the first grid time after both the slot just used and now. |
| Scheduling.InitialCheckFallsInNextBucket | packages/domain/src/scheduling.ts:38-66 | The first check of a monitor lies within one interval after the start of the next wall-clock bucket, for every id, clock and ratio the function accepts. |
| Scheduling.DueThenNext | packages/domain/src/scheduling.ts:72-97 | After any downtime the due slot is followed by exactly the next grid time, the first one in the future; both calls refuse exactly the intervals that are no positive safe integers. |
| Scheduling.Fnv1a | packages/domain/src/scheduling.ts:20-27 | The loop over the code units computes the 32-bit hash that the next row is about. |
| Scheduling.OneUnitChangesHash | packages/domain/src/scheduling.ts:20-27 | Two identifiers of one length that differ in exactly one code unit never share a hash, because a step forgets neither the hash before it nor the code unit. |
| Scheduling.KnownHashes | packages/domain/src/scheduling.ts:20-27 | The hash has the published FNV-1a values of the empty text and of the letter a. |
| Scheduling.JitterFollowsHash | packages/domain/src/scheduling.ts:38-53 | The jitter lies in its window and differs from the hash by whole windows; an empty window gives none. |
| CheckPreservation.Reachable | apps/worker/src/check-processor.ts:377-611 | Every reachable state of the pipeline satisfies the invariant, whatever the interleaving. |
| CheckTheorems.SequentialRefinement | apps/worker/src/check-processor.ts:477-611 | In every run a monitor's health equals the fold of the state machine over the results of its distinct checks created since its last reset, in creation order. |
| CheckTheorems.IncidentsFollowResults | apps/worker/src/check-processor.ts:273-345 | A monitor has exactly one open incident iff its health is DOWN or RECOVERING iff its counted results contain an unrecovered failure window; otherwise it has none. |
| CheckTheorems.IncidentConstraintsHold | apps/worker/src/check-processor.ts:281-336 | First failure, detection and closing of an incident are in order, and each status has exactly its time stamps and closure reason. |
| CheckTheorems.LifecycleWritesRefine | apps/api/src/monitors/monitors.service.ts:774-870 | The hand-written updates of pause and removal do to monitor and incidents exactly what transitionLifecycle prescribes. |
| CheckTheorems.ResumeWritesRefine | apps/api/src/monitors/monitors.service.ts:545-580 | The same for resuming. |
| CheckTheorems.UpdateWritesRefine | apps/api/src/monitors/monitors.service.ts:473-526 | A change of any monitored field does exactly what resetForConfigChange prescribes; any other update leaves the pipeline alone. |
| CheckTheorems.InFlightAcrossResetNeverCounts | apps/worker/src/check-processor.ts:522-607 | Once a pause, resume, removal or configuration change takes effect, no check that exists at that moment ever moves a monitor, an incident or an observation, whatever follows and even when the configuration version is unchanged. |
| CheckTheorems.OlderThanEpochNeverCounts | apps/worker/src/check-processor.ts:522-607 | The same for any check older than its monitor's epoch, in any later state. |
| CheckTheorems.SecondResultIsDuplicate | apps/worker/src/check-processor.ts:492-496 | Storing a second result for a check changes nothing. |
| CheckTheorems.LeaseExclusion | apps/worker/src/check-processor.ts:397-415 | Through any run that ends before a running check's lease does, the row stays with its holder or has ended, and no other claim of it can succeed. |
| CheckTheorems.OneActiveCheck | apps/scheduler/src/store.ts:36-141 | A monitor never has two active checks; an active check has no result, holds a lease if it left PENDING, and becomes dispatchable once that lease has passed. |
| CheckTheorems.NothingIsStranded | apps/scheduler/src/store.ts:95-158 | After any crash or queue loss, one dispatcher and one worker complete an active check as soon as its lease has passed, iff the resulting counters fit their columns. |
| CheckTheorems.StorableIff | packages/database/prisma/schema.prisma:188-189 | The transaction of a result of a live monitor is refused only when the counter it raises is at the limit of its column. |
| CheckIncidents.OpenIncidentsTell | apps/worker/src/check-processor.ts:273-298 | In every run an open incident names the time and error of the first of the F consecutive failures that opened it and that nothing has ended since, the time of the last of them as its detection, and the error of the newest failure, all told from the stored results of its monitor. |
| CheckIncidents.IncidentRowsFollow | apps/worker/src/check-processor.ts:299-345 | In every run an incident row appears only with the result of an active check; an open row changes only its last error with a failure, is resolved at the end of the success that leaves the window condition, or is canceled by a pause, removal or configuration change of its monitor at that moment; its other columns stay and a closed row never changes. |
| CheckIncidents.HistoryCarries | apps/worker/src/check-processor.ts:561-583 | The history that health is about has the outcome, the end of the request and the error of each counted result, in order. |
| CheckJobs.JobClaimsIff | apps/worker/src/check-processor.ts:377-415 | In every run, whatever version a job names: it claims its row iff it names the row's version and the row is active and not held within a lease; otherwise no row of any table changes. |
| CheckJobs.JobDecidesByVersion | apps/worker/src/check-processor.ts:377-415 | The same from taking the job to acting on it, with any run of others in between. |
| CheckJobs.OnlyAdministratorsCancel | apps/worker/src/check-processor.ts:385-395 | In every run an active check stays itself and active, completes with the result of a worker that holds it, or is canceled by a pause, removal or configuration change of its own monitor; no stale or corrupt job cancels one. |
| CheckJobs.ResetCancelsAll | apps/api/src/monitors/monitors.service.ts:837-843 | Each of those changes, when it takes effect, cancels every active check of its monitor. |
| CheckSteps.NoMonitorIsForgotten | apps/scheduler/src/store.ts:36-93 | In every run an active monitor has a next check; once that is due and no check of it waits or runs, a batch creates one for the latest grid time, unless a network pull-forward left a used slot in the way. |
| CheckSteps.CreationStarts | apps/api/src/monitors/monitors.service.ts:382-409 | A new monitor is active under version 1, with its first check jitter behind the next multiple of its interval. |
| CheckSteps.PauseStopsResumeStarts | apps/api/src/monitors/monitors.service.ts:541-580 | A pause leaves no next check, a resumption starts afresh in the next bucket under the same version, and either repeated does nothing. |
| CheckSteps.RemovalIsFinal | apps/api/src/monitors/monitors.service.ts:582-612 | After a removal no pause, resumption, change, removal or creation finds the monitor. |
| CheckSteps.ChangeStartsVersion | apps/api/src/monitors/monitors.service.ts:473-526 | A change of a monitored field starts the next version, in the next bucket of the new interval if the monitor is active. |
| CheckSteps.ClaimingHolds | apps/scheduler/src/store.ts:116-141 | A dispatcher claims exactly the checks that nobody holds or whose holder let the lease pass, and counts the dispatch. |
| CheckSteps.HolderHandsOn | apps/scheduler/src/store.ts:143-175 | Only the dispatcher that holds a check marks it as enqueued or gives it back. |
| CheckSteps.ResultsSettleObservations | apps/worker/src/check-processor.ts:530-560 | A withheld verdict is noted once for its outage; a verdict settles exactly the observations of its monitor and version whose outage was over when the request began; a refused or late result settles none. |
| CheckSteps.OutageIsNoted | apps/worker/src/network-guard.ts:130-135 | An outage is noted once, as open since the start of the probe. |
| CheckSteps.EndAsksMissing | apps/worker/src/network-guard.ts:136-154 | The end of an outage asks exactly the live monitors whose verdict it withheld for an immediate check. |
| CheckSteps.SummaryWaits | apps/worker/src/network-guard.ts:201-216 | The summary pass asks again for the checks it waits for and closes the outage when there are none or two minutes have passed. |
| CheckSchedule.DriftFreeSchedule | apps/scheduler/src/store.ts:62-88 | Slots used since the last re-anchoring are congruent to the anchor, increase by at least one interval, and stay at least one interval before nextCheckAt. |
| CheckSchedule.DowntimeIsCoalesced | apps/scheduler/src/store.ts:36-93 | For every batch of due monitors in every state of the invariant: nothing is created iff the batch is empty or one of its monitors is stuck, its slot being used already under its version, which only a network pull-forward makes possible; otherwise each monitor gets one check, for its latest due slot, and is next due one interval later, and nothing else changes. |
| CheckSchedule.CollidesIffStuck | packages/database/prisma/schema.prisma:244-244 | Inserting the check of a due monitor violates the unique key iff a stored row of its version lies on the grid of nextCheckAt less than an interval back. |
| CheckSchedule.OneStuckStopsAll | apps/scheduler/src/store.ts:36-93 | From the moment a monitor is stuck until its next grid time, over any run in which neither an administrator nor the network guard moves it, no selection that can lock it and reaches as far as it in the order of nextCheckAt creates a check for anyone. |
| CheckSchedule.NextSlotIncreasesIff | apps/scheduler/src/store.ts:62-88 | The slot a due monitor is checked for next is later than all it ever used iff it is later than the newest one used before the last re-anchoring; after a creation, resumption or configuration change it always is. |
| CheckSchedule.SlotsIncreaseWithoutPullForward | apps/scheduler/src/store.ts:36-93 | In every run that never pulls a monitor forward its slots increase from the first to the last, across every other re-anchoring. |
| CheckSchedule.PullForwardDecides | apps/worker/src/network-guard.ts:145-211 | After either pull-forward, of the commit that ends an outage or of its summary pass, a batch gets nothing iff for one of its monitors the grid of the moment it is due from meets a used slot of its version less than an interval old; told from the state before the pull. |
| CheckSchedule.PulledSlotGoesForwardIff | apps/worker/src/network-guard.ts:145-211 | After either pull-forward the next slot of a pulled monitor is later than all it used iff the last grid time of the pull is later than the newest of them. |
| CheckRuns.PullForwardMayBlock | apps/worker/src/network-guard.ts:145-152 | A run from the creation of two monitors: a withheld result, a late commit of the probe that ends the outage, and then a batch that creates nothing although the slot of its second monitor is free. |
| CheckRuns.PullForwardMayGoBack | apps/worker/src/network-guard.ts:145-152 | The same run with a slightly earlier probe, in which a later check has an earlier slot. |
| CheckStore.Store.CreateDueChecks | apps/scheduler/src/store.ts:36-93 | If the slot of some due monitor is taken, the transaction creates nothing and changes nothing; otherwise it creates one check for each. |
| CheckStore.Store.RunOnce | apps/scheduler/src/scheduler-service.ts:18-23 | A run of the scheduler creates and then dispatches; when the creation is aborted it does nothing at all. |
| CheckStore.Store.ClaimForDispatch | apps/scheduler/src/store.ts:116-141 | The conditional update claims exactly the dispatchable rows. |
| CheckStore.Store.Dispatch | apps/scheduler/src/check-dispatcher.ts:48-70 | The loop claims, enqueues and marks or releases each candidate in turn: each accepted one is enqueued under the lease, each refused one is back without a lease, every other check stays, and the accepted ones are counted. |
| CheckStore.Store.CancelStaleCheck | apps/worker/src/check-processor.ts:454-475 | Cancels a row only while it is active. |
| CheckStore.Store.ClaimCheck | apps/worker/src/check-processor.ts:377-415 | Acts on what was read: the job is dropped if the row is done or of another version, cancels if the monitor is of another version or not watched, and else claims exactly a row that is active, unfinished and not held within a lease. |
| CheckStore.Store.ApplyEffect | apps/worker/src/check-processor.ts:273-345 | Opens an incident with the four columns of the effect if none is open; otherwise updates the last error of the newest open one or resolves it at the effect's time, and leaves every other row alone. |
| CheckStore.Store.PersistResult | apps/worker/src/check-processor.ts:477-611 | Stores a result at most once and moves health, incident and observations only while the check is still valid. |
| CheckStore.Store.SettleObservations | apps/worker/src/check-processor.ts:550-560 | A verdict settles exactly the open observations of its monitor and version whose outage had ended when the request began. |
| CheckStore.Store.EndOutage | apps/worker/src/network-guard.ts:136-154 | Ending an outage pulls exactly the live monitors it still waits for. |
| CheckStore.Store.CancelRuntimeRows | apps/api/src/monitors/monitors.service.ts:831-843 | Two loops after which the monitor has no open incident and no active check, and every row that was not one is as before. |
| CheckStore.Store.PauseMonitor | apps/api/src/monitors/monitors.service.ts:774-812 | Pausing as one transaction; pausing twice does nothing. |
| CheckStore.Store.ResumeMonitor | apps/api/src/monitors/monitors.service.ts:545-580 | Resuming as one transaction, re-anchoring the schedule. |
| CheckStore.Store.RemoveMonitor | apps/api/src/monitors/monitors.service.ts:582-612 | Removal as one transaction. |
| CheckStore.Store.UpdateMonitorConfig | apps/api/src/monitors/monitors.service.ts:473-526 | A configuration change as one transaction. |
| OutboxPreservation.Reachable | apps/worker/src/notification-processor.ts:141-517 | Every reachable state of the outbox satisfies the invariant, whatever leases expire, processes stop and stale attempts report. |
| OutboxPreservation.OpeningIsFresh | apps/worker/src/check-processor.ts:93-123 | Opening an incident never collides with an existing row of the same key. |
| OutboxPreservation.ClosingIsFresh | apps/worker/src/check-processor.ts:228-255 | Neither does resolving one. |
| OutboxTheorems.RecoveryFollowsDown | apps/worker/src/notification-processor.ts:209-219 | In every run a RECOVERY send starts only after an earlier event confirmed the DOWN of the same incident and channel and stored it as SENT, and that DOWN is SENT ever after. |
| OutboxTheorems.SentIsFinal | apps/worker/src/notification-processor.ts:305-315 | SENT is absorbing under every step, and no further attempt of a SENT row ever starts. |
| OutboxTheorems.SentWasConfirmed | apps/worker/src/notification-processor.ts:284-315 | A row is SENT only because some event of the run stored the success of one of its own attempts. |
| OutboxTheorems.RowLives | apps/worker/src/notification-processor.ts:141-517 | Over any stretch of a run a row survives, keeps its event, and its attempt count never falls. |
| OutboxTheorems.ClosingMessages | apps/worker/src/check-processor.ts:155-270 | The closing-message table: beside an undisturbed DOWN row of a resolved incident stands a live recovery iff the DOWN is SENT or undecided, a summary iff it was canceled untried, and nothing live if it failed. |
| OutboxTheorems.RecoveryAndSummaryExclude | packages/domain/src/notifications.ts:39-50 | A pair that ever had a recovery never has a summary, in any state of the run. |
| OutboxTheorems.UntriedDownGetsSummaryIff | packages/domain/src/notifications.ts:61-88 | For a DOWN that was never attempted and is undecided, a resolution writes the summary iff the row is not in RETRY, and a recovery iff it is. |
| OutboxTheorems.UntriedDownMayGetRecovery | packages/domain/src/notifications.ts:69-75 | A run in which the design's summary rule is not met. |
| OutboxTheorems.ClosingNeedsBindingToday | apps/worker/src/check-processor.ts:136-153 | For a deliverable DOWN that asked for a recovery, a closing message is written iff the channel is still bound for recovery. |
| OutboxTheorems.DroppedBindingSilencesRecovery | apps/worker/src/check-processor.ts:136-153 | A run in which a binding dropped during the incident suppresses its closing message. |
| OutboxTheorems.LateSuccessNeedsBindingToday | apps/worker/src/notification-processor.ts:336-397 | When a success of a DOWN that asked for a recovery is stored after its incident was resolved, on a channel that is on: a missing recovery is written and a fallen one put back iff the channel is bound for recovery now, any other is left alone; unless an administrator canceled it, a recovery stands afterwards iff one stood before or the channel is bound. |
| OutboxTheorems.LateSuccessMayLackRecovery | apps/worker/src/notification-processor.ts:358-366 | A run in which a DOWN that asked for a recovery becomes SENT after its incident was resolved and no recovery is written. |
| OutboxTheorems.SummaryReplacesDown | apps/worker/src/check-processor.ts:180-193 | Wherever a summary stands, the DOWN it replaces is CANCELED and stays so. |
| OutboxTheorems.AttemptAccounting | apps/worker/src/notification-processor.ts:198-279 | Deliveries of a row are numbered 1 to its attempt count, at most maxAttempts; only the newest can be running; a success means SENT or canceled, and SENT means a success; at most one reactivation. |
| OutboxTheorems.SupersededFailureIsHarmless | apps/worker/src/notification-processor.ts:461-486 | Once a newer attempt has started, an attempt's failure changes no row in any later state. |
| OutboxTheorems.LateSuccessWins | apps/worker/src/notification-processor.ts:303-397 | A confirmed attempt, however late, makes its row SENT unless it was canceled, and restores the recovery of a resolved incident. |
| OutboxTheorems.ReactivatedAtMostOnce | apps/worker/src/notification-processor.ts:375-397 | A canceled row comes back at most once in a run, and only as a recovery behind a SENT DOWN. |
| OutboxTheorems.NothingIsStranded | apps/worker/src/outbox-dispatcher.ts:21-37 | An undecided row is available to dispatchers exactly when its availability time and its lease, if any, have passed. |
| OutboxLeases.LeaseExclusion | apps/worker/src/notification-processor.ts:179-197 | Over any stretch of a run that ends within the lease of a running send, and in which neither its own failure nor any success of its row is stored, be it of a superseded attempt, no administrator acts on its monitor or channel, and no dispatcher's reading of the clock is later than its write: the row does not change, no other send of it starts and nobody can claim it. |
| OutboxFailures.FailureDecides | apps/worker/src/notification-processor.ts:443-517 | In every reachable state: when the newest attempt of a PROCESSING row fails, the row is in RETRY without a lease and available exactly the delay later if the error is retryable and fewer than three attempts started, and FAILED otherwise, a DOWN taking its waiting recovery with it; any other failure changes no row. |
| OutboxFailures.FailedWasGivenUp | apps/worker/src/notification-processor.ts:220-259 | In every run a row is FAILED only because its newest attempt failed for good, or because three attempts had started, and none of its attempts was confirmed then. |
| OutboxFailures.AllTryThrice | packages/database/prisma/schema.prisma:358-358 | Every row of every reachable state may be tried three times. |
| OutboxSteps.OpeningWrites | apps/worker/src/check-processor.ts:75-124 | Opening an incident writes one DOWN for each channel that is on and bound for it, available at once, and touches no other row. |
| OutboxSteps.ResolutionWrites | apps/worker/src/check-processor.ts:126-271 | Resolving writes one closing message for each DOWN that asked for one, was not given up, and whose channel is on and bound: a summary in the place of an untouched DOWN, a recovery otherwise; no other row changes. |
| OutboxSteps.ClaimDecides | apps/worker/src/notification-processor.ts:141-282 | A send starts iff the channel is on, the row is enqueued, due or no longer held, the DOWN of a recovery is SENT and fewer than three attempts started; it is the next attempt and holds the row for its lease, and earlier running ones become unknown. |
| OutboxSteps.SuccessDecides | apps/worker/src/notification-processor.ts:284-441 | A confirmed send makes its row SENT unless it was canceled; a DOWN whose incident is over gets a missing recovery, or back one that fell with it, iff channel and binding still call for it; no other row changes. |
| OutboxSteps.InspectionDecides | apps/worker/src/outbox-dispatcher.ts:109-140 | A due row of a channel that is off and a due recovery of a DOWN that was given up are canceled, a due recovery of an undecided DOWN is put off by two seconds, any other is cleared. |
| OutboxSteps.TakingHolds | apps/worker/src/outbox-dispatcher.ts:142-155 | A cleared row that is still due is held for the lease; any other stays. |
| OutboxSteps.HolderHandsOn | apps/worker/src/outbox-dispatcher.ts:156-187 | Only its holder enqueues a row or gives it back to be tried two seconds later. |
| OutboxSteps.MonitorWithdraws | apps/api/src/monitors/monitors.service.ts:814-852 | A pause, removal or configuration change cancels exactly the monitor's undecided rows and its open incident, and ends the tracking of its running sends. |
| OutboxSteps.ChannelWithdraws | apps/api/src/notifications/notification-channels.service.ts:178-289 | Switching a channel off does the same for its rows and forgets its bindings. |
| OutboxSteps.BindingsAreReplaced | apps/api/src/monitors/monitors.service.ts:481-490 | New bindings replace those of the monitor alone and change no message. |
| OutboxSteps.SummaryIsPostedOnce | apps/worker/src/network-guard.ts:225-258 | The summary of an outage is written once for a channel that is on, and no other row changes. |
| OutboxStore.Store.CreateOutbox | apps/worker/src/check-processor.ts:75-124 | One DOWN row per bound and enabled channel, by a loop over the bindings. |
| OutboxStore.Store.CreateRecoveryOutbox | apps/worker/src/check-processor.ts:126-271 | The loop over the DOWN rows, in any order, writes what resolving prescribes. |
| OutboxStore.Store.CloseOne | apps/worker/src/check-processor.ts:176-255 | One DOWN row's cancellation and closing message. |
| OutboxStore.Store.CancelMonitorRuntime | apps/api/src/monitors/monitors.service.ts:814-852 | Cancels the monitor's undecided rows and ends the tracking of running attempts. |
| OutboxStore.Store.TurnChannelOff | apps/api/src/notifications/notification-channels.service.ts:178-289 | Disabling or removing a channel cancels its undecided rows and drops its bindings. |
| OutboxStore.Store.InspectCandidate | apps/worker/src/outbox-dispatcher.ts:109-140 | Cancels, defers or clears a candidate; cancels and defers only rows still available. |
| OutboxStore.Store.TakeCandidate | apps/worker/src/outbox-dispatcher.ts:142-155 | Claims a cleared candidate iff it is still available. |
| OutboxStore.Store.FinishCandidate | apps/worker/src/outbox-dispatcher.ts:156-187 | Marks the row as enqueued or gives it back. |
| OutboxStore.Store.ClaimSend | apps/worker/src/notification-processor.ts:141-282 | The claim transaction, with its attempt number. |
| OutboxStore.Store.StoreSuccess | apps/worker/src/notification-processor.ts:284-334 | The success transaction. |
| OutboxStore.Store.EnsureRecoveryAfterLateDownSuccess | apps/worker/src/notification-processor.ts:336-441 | Creates or reactivates the recovery of a resolved incident, or does nothing. |
| OutboxStore.Store.StoreFailure | apps/worker/src/notification-processor.ts:443-517 | The failure transaction equals its step; `retry` holds iff the error is retryable and the attempt is not the last, and then the row of a current attempt is in RETRY and available exactly the delay later, and otherwise FAILED. |
| Pipeline.PartsAreRuns | apps/worker/src/check-processor.ts:477-611 | When the transactions of the ledger write the notification rows with them, each machine still runs as its own model says, so all its theorems hold of the whole. |
| Pipeline.IncidentsAgree | apps/worker/src/check-processor.ts:273-345 | In every run of both machines the outbox knows exactly the incidents of the ledger, each of the same monitor and open or resolved when it is. |
| Pipeline.MessagesFollowResults | apps/worker/src/check-processor.ts:155-270 | The closing table from check results: while the incident of an undisturbed DOWN is open, its monitor's counted results contain an unrecovered failure window and no closing message exists; once they contain none, the incident is resolved and the pair has exactly the closing message that the fate of the DOWN calls for. |
| Pipeline.DeliveryFollowsResults | apps/worker/src/notification-processor.ts:209-219 | Whenever the send of a closing message starts, the ledger has its incident as RESOLVED by recovery, for the same monitor; and if it is a recovery, an earlier event of the run stored a success of its DOWN. |
| PagedDispatch.Dispatcher.Dispatch | apps/worker/src/outbox-dispatcher.ts:84-194 | Without concurrent writers the re-querying loop handles exactly a prefix of the sorted backlog, each row once and as the initial state decides, ending at the limit-th send, the scan budget or the end. |
| PagedDispatch.Dispatcher.HandleCandidate | apps/worker/src/outbox-dispatcher.ts:109-187 | One available row becomes exactly its outcome, and counts as sent iff its job was queued. |
| PagedDispatch.Dispatcher.FindPage | apps/worker/src/outbox-dispatcher.ts:99-104 | A page is the beginning of the sorted available rows: no row left out was available before one of the page, or with it and created before it. |
| PagedDispatch.PageIsNext | apps/worker/src/outbox-dispatcher.ts:94-106 | After any number of handled rows the next page is the next stretch of the original backlog. |
| PagedDispatch.RestIsBacklog | apps/worker/src/outbox-dispatcher.ts:94-106 | Handled rows leave the backlog and the rest keeps its order. |
| PagedDispatch.VerdictIsStable | apps/worker/src/outbox-dispatcher.ts:116-140 | Handling some rows never changes what is decided about another. |
| PagedDispatch.EndIsUnique | apps/worker/src/outbox-dispatcher.ts:87-97 | The backlog and the limit determine where a pass ends. |
| PagedDispatch.ReadyRowsAreReached | apps/worker/src/outbox-dispatcher.ts:94-97 | A row within the scan budget is handled iff fewer than limit rows before it were sent, so waiting recoveries hide nothing. |
| PagedDispatch.ScanBudgetIs | apps/worker/src/outbox-dispatcher.ts:89-92 | Five rows are looked at for each that may be sent, at most five thousand, never fewer than may be sent. |
| DestinationLimiter.AcquireIsAllOrNothing | packages/monitoring/src/destination-limiter.ts:10-56 | An acquisition is granted iff every subject has a free slot and a free place; then every subject gains exactly the token and one count, otherwise no live token and no counter changes. |
| DestinationLimiter.ReleaseRemovesOnlyItsToken | packages/monitoring/src/destination-limiter.ts:58-69 | A release takes its own token from its own subjects and nothing else. |
| DestinationLimiter.ConcurrencyIsBounded | packages/monitoring/src/destination-limiter.ts:18-51 | With one lease length, at every instant each subject has at most maxConcurrent live tokens, and no key's time to live drops a live one. |
| LimiterBounds.GrantedTokenStays | packages/monitoring/src/destination-limiter.ts:42-51 | An unreleased token stays visible for its whole lease, whatever others do. |
| LimiterBounds.InFlightIsBounded | packages/monitoring/src/destination-limiter.ts:157-166 | Because a request ends within 30 s and a lease lasts longer, at most maxConcurrent requests are in flight to a subject. |
| LimiterBounds.WindowsAreBounded | packages/monitoring/src/destination-limiter.ts:34-52 | Each window admits at most maxPerMinute acquisitions and windows open more than 60 s apart. |
| LimiterBounds.RateIsBounded | packages/monitoring/src/destination-limiter.ts:34-52 | Any 60 seconds of any run contain at most 2 * maxPerMinute acquisitions for a subject. |
| LimiterRecovery.QuietSubjectsAreFree | packages/monitoring/src/destination-limiter.ts:10-69 | In every run, whatever crashed or was never released: a subject without a grant in the last minute has its whole window, one without a grant in the last lease all its slots, and a destination of such subjects is granted at once. |
| LimiterScripts.Server.RunAcquire | packages/monitoring/src/destination-limiter.ts:10-56 | The two loops compute the acquisition; a refusal says when the oldest token or the window of the refusing subject ends. |
| LimiterScripts.Server.CheckSubject | packages/monitoring/src/destination-limiter.ts:19-41 | One turn of the first loop refuses iff the subject is crowded or its window is full. |
| LimiterScripts.Server.RunRelease | packages/monitoring/src/destination-limiter.ts:58-69 | The loop computes the release and returns how many distinct subjects held the token. |
| LimiterScripts.DestinationSubjects | packages/monitoring/src/destination-limiter.ts:106-128 | The host and every address once each, or the error that forbids limiting. |
| KeywordSearch.InspectKeyword | packages/monitoring/src/checker.ts:191-253 | For every body, chunking and non-empty keyword: found iff the keyword occurs in the decoded first 64 KiB; never more than 64 KiB inspected; a read error is reported iff it comes earlier and the text before it lacks the keyword. |
| KeywordSearch.SearchChunks | packages/monitoring/src/checker.ts:222-233 | The loop's state: the decoder and the overlap stand for exactly what was read. |
| KeywordSearch.OverlapSuffices | packages/monitoring/src/checker.ts:229-231 | Searching behind the overlap finds exactly what is new in the whole text. |
| KeywordSearch.KeepingTheOverlap | packages/monitoring/src/checker.ts:231-231 | The next overlap is a suffix of the text so far, all of it or one code unit less than the keyword, also for keywords of length one. |
| KeywordSearch.DecodingConcatenates | packages/monitoring/src/checker.ts:217-229 | Decoding in pieces is decoding the concatenation. |
| CheckerLease.CheckUrl | packages/monitoring/src/checker.ts:400-606 | At most maxRedirects + 1 requests, never two leases, no lease without a call of release. The check ends at exactly one hop, and what the world does there decides the verdict: a refused or unreleased lease is a platform error, and an unexpected status, a missing keyword, a bad redirect, oversized headers, a refused destination and each library error have their own; success iff followable redirects lead to an acceptable response. |
| CheckerLease.FollowRedirects | packages/monitoring/src/checker.ts:450-557 | The loop ends at the one hop where no redirect can be followed, with an acceptable response or with an error that explains what happened there. |
| CheckerLease.HandleError | packages/monitoring/src/checker.ts:558-594 | A failed release supersedes whatever was thrown; otherwise the verdict is the one that the hop decides. |
| CheckerLease.PlatformFaultKeepsHealth | packages/domain/src/state-machine.ts:129-136 | A limiter or release fault never moves the health state nor emits an effect. |
| CheckerLease.SiteFaultsCount | packages/monitoring/src/checker.ts:496-594 | An unexpected status, a missing keyword, a cycle, a broken redirect or one too many, and a redirect to a refused destination move the monitor as one more failure with that error; a refused or unreleased lease and a refused address of the monitor itself move nothing. |
| CheckerLease.TargetFaultCounts | packages/domain/src/state-machine.ts:164-202 | A verdict about the target adds one failure, ends the successes, makes the monitor suspect or down, and opens an incident with the F-th. |
| CheckerLease.OtherVerdictsKeepHealth | packages/domain/src/state-machine.ts:129-136 | An inconclusive verdict or a platform error changes neither health nor counters nor incidents. |
| Retention.SelectionIsSafe | packages/database/src/retention-plan.ts:154-227 | No step selects a row that is not older than its cutoff or a parent that has children, so deletes meet no RESTRICT and keep all references. |
| Retention.EarlierCandidates | packages/database/src/retention-plan.ts:229-273 | A later step creates no new candidates for an earlier one. |
| Retention.NoLimitNoCandidate | packages/database/src/retention-runner.ts:223-232 | A step that reports limitReached = false has left no eligible row. |
| Retention.RunKeepsReferences | packages/database/src/retention-runner.ts:218-232 | Foreign keys hold throughout a run. |
| Retention.SecondRunDeletesNothing | packages/database/src/retention-runner.ts:218-232 | If all steps report false, no eligible row is left and a second run with the same cutoffs deletes nothing. |
| RetentionColumns.CandidatesAreErasable | packages/database/src/retention-plan.ts:154-227 | A step selects exactly the rows that, by their own columns, are older than its cutoff, are settled, terminal or closed where that matters, and have no children left. |
| RetentionColumns.NoCandidateLeft | packages/database/src/retention-plan.ts:154-227 | Without candidates no old result or audit row is left, and every old check, message or incident that is over still has a child. |
| RetentionColumns.RunTakesOnlyOld | packages/database/src/retention-runner.ts:218-232 | Throughout a run rows only disappear, and each that did was old by its own columns, over where that matters, and has no row left that refers to it. |
| RetentionRunner.Runner.SelectCandidates | packages/database/src/retention-plan.ts:154-227 | Selects only rows that are old, over and without children by their columns, all of them if they fit the limit, and no younger row before an older one. |
| RetentionRunner.Runner.DeleteBatch | packages/database/src/retention-runner.ts:111-162 | One batch removes the oldest candidates, as many as there are or the batch size, and never meets a reference. |
| RetentionRunner.Runner.RunStep | packages/database/src/retention-runner.ts:220-232 | The batches remove the oldest candidates up to the product of the settings; the number of batches and the limit flag are exact, and without the flag no row is left that the step must erase. |
| RetentionRunner.Runner.RunRetention | packages/database/src/retention-runner.ts:218-232 | If no step reached its limit, nothing is left that retention must delete, told from the columns; in every run each removed row was old and over by its own columns, the others stay as they are, foreign keys keep holding and the totals are exact. |
| NetworkGuard.OutagesAreDisjoint | apps/worker/src/network-guard.ts:106-171 | However probes interleave, the active outage is the only open one or none is open, and outages are non-negative, ordered, disjoint intervals. |
| NetworkGuard.HistoryOnlyGrows | apps/worker/src/network-guard.ts:119-171 | checkedAt never goes back and a closed outage never changes. |
| NetworkGuard.ProbesReport | apps/worker/src/network-guard.ts:90-105 | In every run a probe made for the stored settings reports what the references answered, or that the guard is off as those settings say. |
| NetworkGuard.CommitDecides | apps/worker/src/network-guard.ts:107-154 | A superseded probe changes nothing; a current one opens an outage at its start iff none was open and no reference answered, ends the open one with its own time iff they answered or the guard is off, and the worker learns what is stored then. |
| NetworkGuard.Guard.CommitProbe | apps/worker/src/network-guard.ts:106-171 | The commit transaction and the snapshot the worker learns. |
| Bits.MaskRoundsDown | packages/monitoring/src/url-policy.ts:60-65 | Masking a 32-bit value with the mask built for a prefix, also for prefix 0, rounds it down to a multiple of the block size. |
| Bits.OrOfDisjoint | packages/monitoring/src/url-policy.ts:55-55 | Setting low bits of a shifted value with a bitwise or adds them. |
| Address.NumeralRoundTrip | packages/monitoring/src/url-policy.ts:46-55 | Writing a number and reading it back gives the number, within the length the parser accepts. |
| Address.Ipv4RoundTrip | packages/monitoring/src/url-policy.ts:40-58 | Every 32-bit value survives formatting and parsing. |
| Address.Ipv4ReadsDotted | packages/monitoring/src/url-policy.ts:40-58 | A text is read as an IPv4 address iff it is four groups of one to three decimal digits of at most 255 with dots between them, and then as the number they stand for. |
| Address.Ipv4ToNumber | packages/monitoring/src/url-policy.ts:40-58 | The loop of shifts and ors in 32 bits computes the value of the four octets, losing nothing. |
| PublicAddress.WrittenGroupsParse | packages/monitoring/src/url-policy.ts:72-111 | Eight groups, or any groups around "::", are read as their value (sections 2.2 and 2.5.5.2 of RFC 4291). |
| PublicAddress.Ipv6RoundTrip | packages/monitoring/src/url-policy.ts:72-111 | Every 128-bit value written as eight groups survives parsing. |
| PublicAddress.ReadIpv6 | packages/monitoring/src/url-policy.ts:72-111 | The parser with its loop of shifts and ors over the groups, and its 128-bit bound. |
| PublicAddress.MaskIsRange | packages/monitoring/src/url-policy.ts:60-70 | The test that compares masked bits is membership in one numeric range, for all 32-bit values, bases and prefixes from 0 to 32. |
| PublicAddress.ShiftIsRange | packages/monitoring/src/url-policy.ts:113-117 | The shift test is membership in one numeric range, for every prefix length of section 2.3 of RFC 4291. |
| PublicAddress.BlockTextsParse | packages/monitoring/src/url-policy.ts:33-38 | The bases of the IPv6 blocks are the values of the texts the program parses for them. |
| PublicAddress.MappedParses | packages/monitoring/src/url-policy.ts:79-86 | The mapped form of a canonical dotted quad has the value ffff followed by its 32 bits. |
| PublicAddress.MappedAgrees | packages/monitoring/src/url-policy.ts:119-133 | A canonical dotted quad and its mapped form are both public or both not. |
| PublicAddress.PublicOutsideRanges | packages/monitoring/src/url-policy.ts:15-31 | A dotted quad is public iff its value lies in none of the blocked ranges. |
| PublicAddress.GroupsPublicOutsideRanges | packages/monitoring/src/url-policy.ts:125-144 | Any 128-bit value written as eight groups is public iff, when mapped, its low 32 bits lie in none of the IPv4 ranges, and otherwise it lies in the global unicast range and in none of the blocked ones. |
| PublicAddress.PublicQuads | packages/monitoring/src/url-policy.ts:15-31 | A dotted quad is public iff its octets lie in none of the private, local, reserved and multicast blocks, written out octet by octet. |
| PublicAddress.PublicGroups | packages/monitoring/src/url-policy.ts:33-38 | An IPv6 address that is not IPv4-mapped is public iff its first two groups lie in 2000::/3 and outside 2001::/23, 2001:db8::/32, 2002::/16 and 3fff::/20. |

## Left out

- Interleavings inside a transaction: each transaction, and each stand-alone conditional update, is one step with one
  time stamp of a strictly increasing clock. At the granularity of single statements the re-planning branch of
  createRecoveryOutbox (apps/worker/src/check-processor.ts:196-204) and the prerequisite read of the outbox dispatcher
  (apps/worker/src/outbox-dispatcher.ts:117-137) can race; the closing-message table is not claimed there.
- The re-planning branch itself: with a transaction as one step it cannot be taken.
- OutboxTheorems.ClosingMessages: a row counts as undisturbed only while no administrator has turned its channel off,
  unbound it or canceled its monitor's runtime; for disturbed rows the table does not hold.
- OutboxTheorems.RecoveryFollowsDown: a send is the interval between its claim and its stored outcome; what the
  provider did with an unconfirmed attempt is unknown, so delivery to a person stays at least once.
- CheckSchedule.DriftFreeSchedule: stated between re-anchorings, because each of them starts a grid of its own; what
  holds across them is said by CheckSchedule.SlotsIncreaseWithoutPullForward and CheckSchedule.PullForwardDecides.
- The summary pass of an outage waits for checks in flight; here it may come at any time after the recovery, which only
  adds runs. No run given as an example contains one.
- OutboxLeases.LeaseExclusion: a confirmed attempt wins whenever it is stored, so a superseded attempt may end a running
  send before its lease does; a dispatcher whose clock runs ahead of the database is not covered.
- PagedDispatch.Dispatcher.Dispatch: no other writer runs during the call, and the queue's answer for a row is a
  function of the row. Concurrent dispatchers are covered, step by step, in the outbox model.
- KeywordSearch.InspectKeyword: decompression and its encoded-size limit, and the abort signal, are not modelled; the
  body is the decoded chunks and the decoder is any byte-at-a-time decoder.
- CheckerLease.CheckUrl: timers, cookies and DNS are oracles; a lease that Redis granted although the client saw a
  timeout is not tracked and ends with its time to live.
- LimiterBounds.InFlightIsBounded: one Redis clock, one lease length everywhere, tokens never repeat, and a request
  that ends 30 s after its acquisition at the latest.
- The three redaction steps of retention, the advisory lock, rows skipped because another session locked them, and
  retention running beside the outbox protocol.
- Secrets: encryption, snapshots of channel settings, tombstones and which rows keep them.
- Payloads, display texts, message identifiers, audit rows and diagnostic columns of monitors.
- When the network guard withholds a result, and the contents of its summaries; withheld results, the observations they
  leave and the summary rows are in the models.
- Manual and test checks, the limits on them, accounts, sessions, web pages and all plain reads.
- The time a failed send waits is a parameter, because part of it is random.
- Queue internals: a queue may lose, delay or repeat a job at any time.
- Invalid dates, clocks of different hosts that disagree, deadlocks and lock waits.
- The numbers of JavaScript outside the safe integers. Bitwise operations work on unsigned values of 32 bits, or of any
  width for big integers; the signed values in between agree with them modulo 2^32. A right shift is a quotient, and a
  left shift of a big integer a product.
- isIP and the normalisation of addresses by URL: the family of an address and canonical subjects are parameters.
