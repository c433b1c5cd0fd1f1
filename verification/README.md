# A verified model of alertkube's delivery pipeline

alertkube accepts alerts from watchers, cloud sources and a webhook, dedupes them,
groups storms, routes them past silences and inhibitions, queues each delivery, sends it
to the sinks, retries what failed, persists its state and takes up the work again after a
restart. This project models that pipeline in Dafny and proves what it keeps over whole
runs.

Two forms are used. Objects whose methods run under one lock (the alert store, the
outbox, the breaker, the sink registry, the grouper, the router, the rule engine, the
emitter) are classes; each method equates the new state with a function of the old one, and
the guarantees are lemmas about runs of those functions. Protocols in which goroutines or
replicas interleave (dispatch pool, restarts, breaker with concurrent sends, saves, leader
hand-over) are state machines with one step for each locked section or channel operation,
and their guarantees hold for every interleaving. Every locked section is one step together
with its clock reading; the clock never goes back.

| file | models |
|---|---|
| `Alerts.dfy` | the alert record, field matching, group keys |
| `Dispatcher.dfy`, `Outbox.dfy`, `Pool.dfy` | the dispatch pool as a protocol, its durable outbox and one of its queues as objects |
| `Outcomes.dfy`, `Progress.dfy` | what the pool's outcomes mean, and that no delivery gets stuck |
| `Restart.dfy`, `Replays.dfy` | the deliveries across restarts, and how a replayed one differs from its first life |
| `AlertStore.dfy`, `StoreRuns.dfy`, `Crashes.dfy`, `Saving.dfy` | the alert store and its snapshots, over runs, restarts and crashes, and the generation-gated save |
| `Mutes.dfy`, `Stays.dfy` | which firings the store accepts, escalates and resolves, told by what went before |
| `Persist.dfy`, `Leader.dfy` | conditional saves to the ConfigMap, leadership hand-over |
| `Breaker.dfy`, `Sinks.dfy`, `Rollback.dfy` | the circuit breaker, the fan-out that feeds it, and what a refused firing leads to |
| `Group.dfy`, `GroupRuns.dfy`, `Router.dfy`, `Rules.dfy` | grouping, routing with inhibitions, correlation rules |
| `Pipeline.dfy`, `Fates.dfy`, `Incidents.dfy` | the emitter and resolver, what becomes of each alert, and what they guarantee together with the store |
| `Text.dfy`, `SlackCut.dfy`, `SlackBody.dfy`, `SlackSection.dfy` | rune-safe cuts, cuts of escaped text, the Slack detail body and what its reader sees |

Check everything with `dafny verify dfyconfig.toml`.

## Where the code falls short of its description

* `textutil.Tail` is documented to leave valid UTF-8. For limits 1 to 3 it does so only if
  some rune starts within the limit (`Text.TailKeepsValid`; `Text.TailCanSplit` is a text
  it breaks). The limit the code uses is 2800, where it always does.
* With grouping on, an alert that goes to chat sinks alone can be resolved while it keeps
  firing once per informer resync: a re-fire folded into a summary only seeds the mute and
  does not renew the deadline. `Incidents.SweptExactlyWhenUnrenewed` says for all runs when a
  sweep resolves an alert, `Incidents.UnfoldedFiringKeepsAlive` that this cannot happen to one
  that is never folded, and `Incidents.FoldedFiringCanBeSwept` gives the failing run.
* A detail value that ends in a run of backticks which is no whole number of fences closes its
  Slack code fence early, by the ticks left over (`SlackBody.FenceClosesBehindValue`,
  `SlackBody.LastTickClosesEarly`).
* With sharding on, a delivery from the producers that are not gated by shard (webhook
  receiver, derived alerts) can be lost on restart. In every history a delivery that is not
  settled when its process ends is gone after the next boot's replay exactly when no record
  of the last save carries it with an alert that the booting replica owns
  (`Restart.RestartKeepsExactlyOwned`; `Restart.ReplayKeepsOnlyOwned` is a run that loses one).
* A resolve is said to reach exactly the stateful sinks its fire did. One that the webhook
  receives is routed by its own severity, while its fire was routed after the severity
  overrides: under all routes it reaches the fire's stateful sinks if and only if the
  overrides leave its severity alone (`Incidents.OverriddenResolvesMiss`,
  `Incidents.ReceivedMeetsItsFire`).
* An escalation is meant to be sent once, and given up when every sink refuses it. Replayed from
  the outbox it counts as a firing: refused then, it is rolled back and the store forgets the
  alert, whose incident ends with no resolve (`Replays.ReplayedEscalationForgets`). A refusal
  means the same before and after a replay exactly for deliveries that were queued with
  rollback if and only if they are firings proper (`Replays.ReplayAgrees`).

## Model

| member | source | states |
|---|---|---|
| Alerts.MatchLabels | internal/alert/alert.go:310-324 | true exactly if every wanted key equals the field, or matches as a pattern on the two pattern keys |
| Alerts.GroupKey | internal/alert/alert.go:386-392 | the map of the alert's values on the grouping keys, built by the loop |
| Alerts.GroupKeySeparatesFields | internal/alert/alert.go:381-392 | two alerts share a group exactly when they agree on every grouping field |
| Alerts.FieldsAreSeparate | internal/alert/alert.go:267-284 | each of the six field keys reads its own field and no other |
| Alerts.LabelsAreRead | internal/alert/alert.go:267-284 | any other key reads its label, or nothing |
| Dispatcher.NewDispatcherInv | internal/app/dispatcher.go:141-168 | a new pool satisfies the invariant all runs keep |
| Dispatcher.JobsAreMoved | internal/app/dispatcher.go:204-253 | every step moves jobs between places: the number of places holding a job changes only for the one the step brings to life or ends |
| Dispatcher.InvStep | internal/app/dispatcher.go:93-103 | every step of every goroutine keeps conservation, lane order and the attempt ledger |
| Dispatcher.NoOvertaking | internal/app/dispatcher.go:283-327 | when a worker takes a job, all earlier submissions to its queue were accepted, and every earlier non-resolve one has left the outbox, shutdown included |
| Dispatcher.NoResolveBeforeItsFire | internal/app/dispatcher.go:173-181 | a resolve is never sent while an earlier-submitted fire of its fingerprint is pending for replay; both go to the same queue |
| Dispatcher.AcceptedIsPrefix | internal/app/dispatcher.go:283-327 | per queue the accepted submissions are a prefix of all, and nothing is dropped before stop |
| Dispatcher.OutboxIsConserved | internal/app/dispatcher_outbox.go:16-36 | pending ids are exactly the deliveries being submitted, queued, in a worker, on a retry timer or dropped at shutdown, each in one place, with its record |
| Dispatcher.DrainedOutbox | internal/app/dispatcher.go:349-385 | with queues empty and workers idle the outbox holds exactly the dropped deliveries, those on a resolve-retry timer and those whose submit is undecided |
| Dispatcher.AttemptsAreBounded | internal/app/dispatcher.go:222-253 | no id is sent more than 1+maxResolveRetries times; an id is pending or has an outcome, never both |
| Dispatcher.OutcomeIsFinal | internal/app/dispatcher.go:222-253 | the first outcome of an id (delivered, rolled back, dead-lettered) is its only one, and it is never sent again |
| Dispatcher.AttemptsAreSpent | internal/app/dispatcher.go:333-337 | with producers quiet the attempts still owed never grow and fall at every attempt |
| Dispatcher.QuietRunsEnd | internal/app/dispatcher.go:333-337 | so a quiet run makes at most the attempts owed at its start |
| Outcomes.OutcomeIsEarned | internal/app/dispatcher.go:222-253 | over every run an id is Delivered if and only if its last fan-out delivered, RolledBack if and only if that failed and its producer asked for rollback, and given up only otherwise, a resolve only after all its attempts; earlier fan-outs all failed, and only a resolve has more than one |
| Outcomes.LiveHasFailed | internal/app/dispatcher.go:333-337 | a delivery still under way keeps its order and has failed exactly once per retry |
| Progress.OneAlertOneLane | internal/app/dispatcher.go:173-181 | alerts of one fingerprint share a queue, and so do those of one object without a fingerprint |
| Progress.RoomIsShared | internal/app/dispatcher.go:141-168 | the configured queue size is divided over the workers, each queue having room for one job at least |
| Progress.NothingGetsStuck | internal/app/dispatcher.go:202-327 | in every reachable state a delivery that was not dropped can be moved on, or its queue can, by submit, timers and workers alone |
| Pool.Queue.Submit | internal/app/dispatcher.go:283-327 | dropped when closed or draining, accepted when there is room, parked otherwise; the queue becomes what the pool's state machine says |
| Pool.Queue.Wake | internal/app/dispatcher.go:319-326 | a parked producer gets a slot, or gives up on stop and sets draining |
| Pool.Queue.Receive | internal/app/dispatcher.go:204-209 | the worker takes the oldest job |
| Pool.Queue.Settle | internal/app/dispatcher.go:222-253 | a failed resolve with retries left comes back as a retry and stays recorded; any other delivery gets its one outcome and leaves the outbox |
| Pool.SubmitIsEnterThenOffer | internal/app/dispatcher.go:283-327 | the object's submit is the state machine's two steps |
| Pool.SettleIsFinishThenAck | internal/app/dispatcher.go:222-253 | the object's settle is the state machine's two steps |
| DurableOutbox.OutboxStore.Enqueue | internal/app/dispatcher.go:260-274 | a delivery with a route gets the next id and its record before it is submitted; an empty route does nothing |
| DurableOutbox.OutboxStore.Done | internal/app/dispatcher_outbox.go:28-36 | removes the record, and counts a generation only if there was one |
| DurableOutbox.OutboxStore.PendingSnapshot | internal/app/dispatcher_outbox.go:39-50 | every record exactly once, in strictly ascending id order |
| DurableOutbox.OutboxStore.ReplayPending | internal/app/dispatcher_outbox.go:79-103 | submits and records the replay of the sorted records under fresh consecutive ids |
| DurableOutbox.SortByIdSorts | internal/app/dispatcher_outbox.go:80-81 | the sort is a permutation into id order that keeps equal ids in place |
| DurableOutbox.PlanIsOwnedInOrder | internal/app/dispatcher_outbox.go:83-103 | exactly the owned, well-formed records are replayed, each as often as recorded, by ascending old id |
| DurableOutbox.RequeuedFollowsPlan | internal/app/dispatcher_outbox.go:83-103 | the submitted jobs are the plan's records in order, numbered consecutively, with the rollback of a fresh firing |
| DurableOutbox.ReplayRebuildsOutbox | internal/app/dispatcher_outbox.go:39-103 | replaying a snapshot whose alerts are all owned rebuilds the outbox: same deliveries, same order |
| Replays.RefusedReplay | internal/app/dispatcher_outbox.go:92-96 | a replayed delivery that is refused: a resolve waits for its retry until it has used all, events, summaries and alerts without fingerprint are given up, any other firing is rolled back |
| Replays.RefusedReplayIsSentAgain | internal/app/dispatcher_outbox.go:71-78 | a sent firing that is replayed and refused is rolled back, its fingerprint forgotten and its next firing sent, exactly if it is no event, no summary and has a fingerprint |
| Replays.ReplayAgrees | internal/app/dispatcher_outbox.go:79-98 | a refusal means the same in the first life and after replay if and only if the delivery was queued with rollback exactly when it is a firing proper |
| Replays.ReplayedEscalationForgets | internal/app/dispatcher_outbox.go:92-96 | a refused escalation is given up, but refused after a replay it makes the store forget the alert |
| Restart.EveryDeliveryIsAccountedFor | internal/app/controller.go:232-264 | over any number of runs, crashes included, each accepted delivery, followed by its birth number through new ids, is settled, in the outbox or still to be replayed with its own alert and sinks, unless a boot found it foreign or its process ended with it unsaved and unsettled |
| Restart.AtLeastOnce | internal/app/controller.go:380-408 | if every process ends with its unsettled deliveries saved and boots own what they replay, each accepted delivery is settled, pending or to be replayed |
| Restart.SnapshotHolds | internal/app/controller.go:295-300 | the exported snapshot holds every birth of the outbox, each with its own record |
| Restart.RenumberStep | internal/app/dispatcher_outbox.go:79-103 | a replayed delivery keeps its birth, alert and sinks under its new id |
| Restart.NoDeliveryIsDuplicated | internal/app/dispatcher_outbox.go:79-103 | over every history a delivery has at most one record, in the outbox and the replay list together |
| Restart.RestartKeepsExactlyOwned | internal/app/controller.go:232-264 | over every history, and whatever the dispatcher does during the replay, an unsettled delivery is gone after a boot's replay if and only if no record of the last save carries it with an alert the boot owns |
| Restart.RetainedStep | internal/app/dispatcher_outbox.go:79-103 | no step of a process loses or finds a delivery: replay moves what is owned and drops the rest, and a record leaves the outbox only by being settled |
| Restart.ReplayKeepsOnlyOwned | internal/app/controller.go:248-260 | the instance of one delivery of an ungated producer, saved and replayed once: lost exactly when the booting shard does not own it |
| AlertStore.Store.ShouldSend | internal/alert/store.go:66-89 | refused and unchanged while muted; otherwise active with the incident's start and a fresh deadline, mute recorded, ring and generation advanced |
| AlertStore.Store.ShouldSendEvent | internal/alert/store.go:99-109 | the same mute without entering the active set |
| AlertStore.Store.Seed | internal/alert/store.go:120-125 | records the mute alone |
| AlertStore.Store.Touch | internal/alert/store.go:146-153 | renews the deadline of an active alert, and nothing else |
| AlertStore.Store.SweepResolved | internal/alert/store.go:156-179 | closes exactly the expired alerts, once each, and forgets them |
| AlertStore.Store.ResolveObject | internal/alert/store.go:188-213 | closes exactly the object's alerts, ending now |
| AlertStore.Store.CleanOldHistory | internal/alert/store.go:235-249 | drops exactly the mute records older than the retention, one generation each |
| AlertStore.Store.Forget | internal/alert/store.go:288-301 | drops the fingerprint everywhere; a generation only if it was active or muted |
| AlertStore.Store.Overdue | internal/alert/store.go:307-332 | returns and marks exactly the due alerts |
| AlertStore.RingOfRing | internal/alert/store.go:255-260 | trimming at every append keeps exactly the newest entries of the whole history |
| AlertStore.RingIsNewest | internal/alert/store.go:255-261 | the ring is the end of the history, up to its capacity |
| AlertStore.Store.Export | internal/alert/snapshot.go:53-76 | the snapshot represents the state: each active alert once without enrichment, all mutes, all marks |
| AlertStore.Store.Restore | internal/alert/snapshot.go:86-149 | merges the snapshot by the restore rules; a newer version or none changes nothing |
| StoreRuns.TidyAlways | internal/alert/store.go:218-231 | over every run marks exist only for active fingerprints and every active alert has a deadline |
| StoreRuns.ResolveEndsStay | internal/alert/store.go:156-231 | the resolve callback fires for a fingerprint exactly when a sweep or object delete ends its stay |
| StoreRuns.IncidentsBalance | internal/alert/store.go:156-231 | over every run each stay is resolved once, ends silently once, or is going on |
| StoreRuns.OneStayOneIncident | internal/alert/store.go:66-89 | StartsAt is constant during a stay and no rule key escalates it twice, restarts included |
| StoreRuns.EscalatesAtMostOnce | internal/alert/store.go:307-332 | a rule key that has escalated a fingerprint does not do so again during the stay |
| StoreRuns.SendsAreSpaced | internal/alert/store.go:140-143 | two accepted sends with no resolve or Forget between them are at least the mute window apart |
| StoreRuns.AcceptedSendIsRemembered | internal/alert/store.go:66-109 | an accepted send or event is on record, which is where the spacing starts |
| Mutes.AcceptedExactlyWhenUnmuted | internal/alert/store.go:138-143 | over every run a firing or event is accepted if and only if its fingerprint was not sent or seeded within the mute window, or has been resolved or forgotten since |
| Stays.EscalatesExactlyWhenOverdue | internal/alert/store.go:303-332 | over every run a rule hands an alert out if and only if its incident started more than the delay ago, the alert last sent for it matches the rule, and the rule has not handed it out in this stay |
| Stays.EscalatesLatest | internal/alert/store.go:307-332 | what is handed out is the alert last sent, with its incident's start |
| Stays.ObjectDeleteResolvesItsAlerts | internal/alert/store.go:188-215 | over every run an object delete resolves exactly the alerts last sent for that object, as resolved now |
| Stays.SweepResolvesLatest | internal/alert/store.go:156-183 | a sweep hands out the alerts last sent, resolved, with the deadline that passed |
| Crashes.CrashesForgetUnsaved | internal/app/controller.go:232-264 | any number of crashes leave the state of the run without the steps no export had saved |
| Crashes.SavedSendsAreSpaced | internal/alert/snapshot.go:86-149 | a send that an export has saved stays a mute window away from the next, over any number of crashes |
| Crashes.UnsavedSendIsRepeated | internal/alert/snapshot.go:86-149 | a send that no export has saved is repeated by any later firing after the crash, however soon, unless a resolve or Forget since the export had cleared an older mute |
| Crashes.SavedEscalationIsOnce | internal/alert/snapshot.go:86-149 | an escalation that an export has saved is not repeated within the stay that survives the crashes |
| StoreRuns.CleaningIsUnobservable | internal/alert/store.go:235-249 | a run answers as the same run without its cleanings |
| StoreRuns.SweptExactlyWhenSilent | internal/alert/store.go:146-179 | over every run a sweep resolves an alert exactly if it is active and its latest re-fire lies more than resolveTTL back |
| StoreRuns.RefiringKeepsAlive | internal/app/event_emitter.go:71-78 | an alert re-fired with gaps of at most resolveTTL is never resolved by the sweep, whatever the mute does |
| StoreRuns.ResyncKeepsAlive | internal/config/validate.go:281-288 | a validated configuration makes one re-fire per informer resync enough |
| StoreRuns.RestoreAfterExport | internal/alert/snapshot.go:53-149 | restoring an exported snapshot into a fresh store gives the carried-over state |
| StoreRuns.RestartIsUnobservable | internal/alert/snapshot.go:86-149 | with known kinds and severities every later answer after a restart is the one the old store would give |
| StoreRuns.RestartLosesOnlyUnknown | internal/alert/snapshot.go:100-125 | a restart keeps every active alert if and only if all have known kinds and severities |
| StoreRuns.RestoreIsSafe | internal/alert/snapshot.go:86-149 | for any snapshot: live entries win, no future mute, no zero deadline, no orphan mark, no unknown enum |
| StoreRuns.RestoreIsComplete | internal/alert/snapshot.go:86-149 | a snapshot of a newer version is not touched; of any other, every admissible alert, every mute not from the future and every mark of an active alert is restored |
| StoreRuns.SameGenerationSameState | internal/alert/store.go:288-301 | a step that leaves the generation alone leaves everything a snapshot holds alone |
| StoreRuns.NoChangeNoGeneration | internal/alert/store.go:235-301 | a sweep, delete, clean-up, forget or escalation that changes nothing leaves the generation alone |
| StoreRuns.AcceptedSendsCount | internal/alert/store.go:66-109 | a firing or event moves the generation exactly if it is accepted |
| Saving.EqualGenerationsMeanSaved | internal/app/sweeper.go:51-67 | after a first save, equal generations of alerts, silences and outbox mean the saved snapshot is what exporting now would give, for all racing mutations |
| Saving.SkippedSaveLosesNothing | internal/app/sweeper.go:51-57 | a tick that skips its save, undisturbed since its reads, skips nothing new |
| Saving.UndisturbedTickSaves | internal/app/sweeper.go:21-69 | a tick that nothing disturbs saves if and only if some generation changed since the last save, and then what is stored is current |
| Saving.PruningKeepsLive | internal/silence/silence.go:107-123 | pruning keeps exactly the silences still to run, and counts as a change only if it drops one |
| Persist.EveryWriteIsJustified | internal/persist/persist.go:136-195 | every update replaces a stamp no later than its own or beyond the skew; Save succeeds only if its own bytes were written; it writes at most once |
| Persist.StoredStampNeverDecreases | internal/persist/persist.go:159-186 | with clocks inside the skew the stored SavedAt never decreases |
| Persist.CheckDecides | internal/persist/persist.go:177-179 | a save passes its check if nothing readable is stored, or nothing later, or something further ahead of the clock than the skew, and is refused otherwise |
| Persist.UndisturbedSaveSucceeds | internal/persist/persist.go:155-194 | an attempt that nothing disturbs succeeds if and only if the stored snapshot may be replaced, and then stores its own bytes under its stamp |
| Persist.LostRacesAreRetried | internal/persist/persist.go:151-158 | in every interleaving a lost race is tried again until the call has lost five |
| Leader.LeaseOutlivesController | internal/app/leaderelection.go:123-194 | in every interleaving the lease context is cancelled and the function returns only when the controller is over or the drain budget has expired |
| Leader.NoStartAfterStopping | internal/app/leaderelection.go:125-137 | no controller starts once stopping is set |
| Leader.OverStaysOver | internal/app/leaderelection.go:123-194 | a controller that has returned, or can no longer start, stays so |
| Leader.FollowerDrainsAtOnce | internal/app/leaderelection.go:168-186 | a follower that never led can end its drain at once |
| Leader.DrainEndsExactlyWhenOver | internal/app/leaderelection.go:168-186 | in every interleaving the drain may end exactly when the controller has returned or never started, or the budget has run out |
| Leader.HandOverMovesOn | internal/app/leaderelection.go:139-194 | from every reachable state after a signal or the elector's return some step of the hand-over is possible without the budget |
| Leader.HandOverNeverGoesBack | internal/app/leaderelection.go:139-194 | and no step of any goroutine sets it back |
| Leader.ReleasesOnlyOnSignal | internal/app/leaderelection.go:162-194 | in every interleaving a lease is released only on a signal; a replica whose elector gave up first returns as its drain ends |
| Leader.AtMostOneController | internal/app/leaderelection.go:105-123 | two replicas never run controllers at once, unless a lease was lost or released with the budget spent |
| Breaker.CircuitBreaker.Allow | internal/sinks/breaker.go:68-83 | admits exactly when closed or cooled down, and reports the one call that takes the trial |
| Breaker.CircuitBreaker.Record | internal/sinks/breaker.go:88-101 | a success closes; a failure opens at the threshold or out of half-open |
| Breaker.CircuitBreaker.RecordLatency | internal/sinks/breaker.go:112-127 | a completed run of slow sends opens and starts afresh |
| Breaker.CircuitBreaker.IsOpen | internal/sinks/breaker.go:131-142 | open exactly when the next firing would be refused |
| Breaker.CountersAreRuns | internal/sinks/breaker.go:88-127 | the counters equal the run lengths of the whole reported history |
| Breaker.OpensOnRuns | internal/sinks/breaker.go:88-127 | a report opens the breaker exactly when it ends a probe by failure or completes a run, and then for the whole cooldown |
| Breaker.ClosesOnSuccess | internal/sinks/breaker.go:68-101 | a breaker closes exactly on a reported success, and takes a trial exactly when asked after its cooldown |
| Breaker.CooldownIsOfLastOpening | internal/sinks/breaker.go:88-127 | an open breaker's cooldown is prolonged exactly by a report that completes a run |
| Breaker.HalfOpenHasProbe | internal/sinks/breaker.go:61-83 | in every interleaving of sends: half-open implies an unrecorded probe, closed implies failures below the threshold, slow below its limit |
| Breaker.NeverStranded | internal/sinks/breaker.go:61-101 | once no send is under way the breaker is closed or open and admits again within one cooldown |
| Breaker.OneTrialAtATime | internal/sinks/breaker.go:78-79 | from a probe's admission until some send reports, the breaker stays half-open and every firing is refused, whatever resolves, rate limits and late measurements come in between |
| Sinks.Registry.Dispatch | internal/sinks/sink.go:151-257 | true exactly if some attempt was accepted or no sink of the route takes this severity; resolves go to every known sink; firings to those that take the severity and whose breaker is closed or cooled down; no breaker is left half-open by the call; each hears of its own send |
| Sinks.Registry.Admit | internal/sinks/sink.go:162-189 | the admission loop: who is attempted, which attempts are probes, who is skipped by an open breaker |
| Sinks.Registry.Await | internal/sinks/sink.go:190-251 | completions in any order settle every probe and count the acceptances |
| Sinks.SendsAreCounted | internal/sinks/sink.go:190-251 | a panic and a refusal count as a failure, an acceptance as a success, and a send without a token as a failure only if it held the trial |
| Rollback.Work | internal/app/dispatcher.go:204-253 | one turn of the worker: the verdict of the fan-out decides retry or outcome, and the store forgets the fingerprint exactly when a firing with rollback is refused |
| Rollback.RefusedFiringIsSentAgain | internal/app/dispatcher.go:222-232 | a sent firing refused by every sink is decided RolledBack, that forgets its fingerprint, and through anything else its next firing is sent unless suppressed or folded |
| Grouping.Grouper.Offer | internal/group/group.go:69-109 | passes and opens, or joins the open window; an expired window it replaces is told |
| Grouping.Grouper.FlushExpired | internal/group/group.go:141-152 | takes out and tells exactly the expired windows |
| Grouping.Grouper.FlushAll | internal/group/group.go:155-168 | closes, empties the map and tells every window |
| Grouping.Grouper.EmitSummary | internal/group/group.go:184-211 | nothing for a window without members, otherwise its count, lists and remainder |
| Grouping.AbsorbedAreConserved | internal/group/group.go:69-211 | in every run the absorbed alerts equal the counts of open windows, windows taken out and told summaries; listed names plus "+k more" equal the count, and each summary names its own members |
| Grouping.NothingIsLostAtClose | internal/group/group.go:155-178 | after the final flush every absorbed alert has been told by the summary of the one window it joined |
| Grouping.ClosedAbsorbsNothing | internal/group/group.go:77-84 | once closing, no racing Offer is absorbed |
| Grouping.OnePassPerWindow | internal/group/group.go:85-108 | before closing an Offer is absorbed exactly if its key opened a window at most one window ago, whenever the flusher ran |
| GroupRuns.AbsorbedExactlyBehindAlike | internal/group/group.go:65-109 | over every run an Offer is absorbed if and only if the final flush has not begun and an alert equal in all grouping fields, both firings or both resolves, passed at most one window ago |
| GroupRuns.WindowsAreAlike | internal/group/group.go:85-95 | all members of a window agree with the alert that opened it, firings apart from resolves, and the summary names that alert |
| Routing.Router.IsInhibited | internal/router/router.go:183-200 | true exactly if some rule targets the alert and its key is armed and unexpired |
| Routing.Router.PruneExpired | internal/router/router.go:203-209 | drops exactly the expired keys |
| Routing.Router.MaybeArmInhibition | internal/router/router.go:211-224 | prunes, then arms every rule whose source matches |
| Routing.Router.RouteAlert | internal/router/router.go:69-92 | a suppressed or inhibited firing is dropped and arms nothing; otherwise the first matching route, and firings arm; resolves skip both |
| Routing.FirstRouteIsFirst | internal/router/router.go:86-91 | the sinks are those of the first route that matches, or the default ones |
| Routing.InhibitionIsHistory | internal/router/router.go:183-224 | over every history an alert is inhibited exactly if a source-matching firing with equal values armed a targeting rule less than its duration ago |
| Routing.PruningIsUnobservable | internal/router/router.go:203-217 | pruning never changes an answer |
| Rules.Prune | internal/rules/rules.go:213-220 | on an ascending list the leading trim equals the filter |
| Rules.Engine.Observe | internal/rules/rules.go:93-131 | keeps every list equal to the filtered full history; fires exactly the Count rules whose windowed count reaches the threshold and the All rules whose every selector matched in the window; ignores resolves and derived alerts |
| Rules.Engine.EvalAbsent | internal/rules/rules.go:176-197 | fires exactly the heartbeat rules with no match within their window on an engine older than it |
| Rules.AllGroupsActive | internal/rules/rules.go:223-233 | true exactly if there are groups and none is empty |
| Rules.FiringIsCounting | internal/rules/rules.go:93-191 | rules fire exactly when the history holds enough matching observations in the window, or one per selector, or none for a heartbeat on an engine old enough |
| Rules.WindowSlides | internal/rules/rules.go:104-117 | append then trim keeps a list equal to the filtered history |
| Rules.SilentIsReference | internal/rules/rules.go:185-191 | the reference instant of the code decides silence as the history does |
| Pipeline.FilterRoute | internal/app/pipeline.go:20-36 | the kept sinks in route order |
| Pipeline.KeptConcat | internal/app/pipeline.go:20-36 | each sink is kept or not by itself, in route order |
| Pipeline.GroupingKeepsStateful | internal/app/pipeline.go:46-52 | the stateful part of a route does not depend on the grouper's answer |
| Pipeline.Rewrite | internal/app/event_emitter.go:28-36 | cluster set, then the first matching severity override, found by the loop |
| Pipeline.FirstOverrideWins | internal/app/event_emitter.go:31-36 | the severity is that of the first matching override, or the alert's own |
| Pipeline.RewrittenFields | internal/app/event_emitter.go:28-36 | nothing but cluster and severity is rewritten |
| Pipeline.Emitter.GroupRoute | internal/app/pipeline.go:46-52 | absorbed exactly as the grouper says; then only the stateful sinks |
| Pipeline.Emitter.EmitEvent | internal/app/event_emitter.go:52-62 | an unmuted event is sent once, never becomes active and never reaches a stateful sink |
| Pipeline.Emitter.EmitFiring | internal/app/event_emitter.go:71-116 | the fate of a firing after grace: muted and touched, dropped, folded and seeded, or sent with rollback to the grouped route |
| Pipeline.Emitter.Deliver | internal/app/event_emitter.go:103-116 | sent and queued, or a muted re-fire after all if another thread was faster |
| Pipeline.Emitter.Emit | internal/app/event_emitter.go:19-117 | the order of the decisions for every alert: object delete, rewrite, event, grace, firing |
| Pipeline.Emitter.DispatchResolved | internal/app/event_emitter.go:124-135 | a resolve is queued to its route, or its stateful part when absorbed |
| Pipeline.Emitter.ObjectGone | internal/app/event_emitter.go:24-27 | an object delete forgets exactly the object's alerts and queues their resolves, each to its route or its stateful part |
| Pipeline.Emitter.Sweep | internal/app/controller.go:87-93 | a sweep queues exactly the resolves of the expired alerts, one after the other, each to its route or its stateful part |
| Pipeline.Emitter.ReceiveResolved | internal/app/controller.go:320-325 | a received resolve forgets its fingerprint, with no resolve callback, and is queued to its own route or the stateful part of it |
| Pipeline.Emitter.RunEscalation | internal/app/sweeper.go:81-99 | every alert the rule is due for is marked and its tagged copy queued to the rule's sinks, unfiltered |
| Pipeline.EscalationsAreTagged | internal/app/sweeper.go:85-98 | each copy is its alert with the one label and the prefix, queued to exactly the rule's sinks without rollback |
| Pipeline.ReceivedTells | internal/app/event_emitter.go:124-135 | a resolve tells the stateful sinks of its own route, whatever the grouper answers |
| Pipeline.Emitter.Announce | internal/app/controller.go:205-219 | a group summary is queued once, to the stateless sinks of its route, unless it is suppressed or has none |
| Pipeline.Emitter.FlushGroups | internal/group/group.go:141-152 | every expired window leaves the grouper and its summary is queued in turn |
| Pipeline.Emitter.CloseGroups | internal/group/group.go:155-168 | at the end every window's summary is queued and nothing more is absorbed |
| Fates.FireIsSent | internal/app/event_emitter.go:71-107 | a firing is sent if and only if it is outside the mute window, unsuppressed, routed, and passed by the grouper or routed to a pager |
| Fates.SentFireIsQueued | internal/app/event_emitter.go:94-115 | a sent firing is queued once, with rollback and its own fields, to every sink of its route, or when absorbed to its pagers |
| Fates.FoldedFireIsMuted | internal/app/event_emitter.go:94-102 | a firing folded into a summary alone is not active, but muted for a whole window |
| Fates.OtherFiresAreSilent | internal/app/event_emitter.go:71-93 | a suppressed or unrouted firing leaves no trace, and a muted one renews its deadline only |
| Fates.EventIsQueued | internal/app/event_emitter.go:52-62 | an event goes to every sink of its route that is no pager, once per mute window, and is never active |
| Fates.ResolvesAreRetried | internal/app/event_emitter.go:124-135 | over every run of the emitter, restarts included, no resolve is queued with rollback, so each failed one has its retries |
| Incidents.StatefulSinksAgree | internal/app/event_emitter.go:119-135 | over every run of the emitter and its queue, webhook resolves, escalations, rollbacks and restarts with outbox replay included, for any answers of router and grouper: a sweep or object delete queues, for each alert it closes, exactly one resolve to exactly the stateful sinks its latest accepted fire was queued to, and nothing for others |
| Incidents.FireTells | internal/app/event_emitter.go:94-115 | an accepted fire is queued to the stateful sinks of its route, absorbed or not |
| Incidents.OnlyIncidentsAreTold | internal/app/event_emitter.go:52-62 | what stateful sinks are sent changes only by an accepted fire routed to one, a sweep, an object delete, a received resolve routed to one, an escalation that names one, or a boot that replays something; never by event alerts, group summaries, muted or folded firings |
| Incidents.ReceivedMeetsItsFire | internal/app/controller.go:320-325 | over every run a received resolve of an active alert, whose severity no override changed, is queued to exactly the stateful sinks its latest accepted fire was queued to |
| Incidents.OverriddenResolvesMiss | internal/app/event_emitter.go:28-36 | a received resolve has its fire's stateful sinks under all routes if and only if the severity overrides leave the severity alone |
| Incidents.ActsAreStoreRun | internal/app/event_emitter.go:71-116 | the emitter's acts drive the store through a run of its own steps, renewing when that run re-fires |
| Incidents.FiringRenews | internal/app/event_emitter.go:71-107 | an act re-fires its alert in the store exactly if it is a firing that is muted, or routed and not folded into a summary without stateful sinks |
| Incidents.SweptExactlyWhenUnrenewed | internal/app/event_emitter.go:71-107 | over every run a sweep resolves an alert exactly if it is active and no firing has renewed it for more than resolveTTL |
| Incidents.UnfoldedFiringKeepsAlive | internal/config/validate.go:281-288 | an alert that is never folded away is not resolved within resolveTTL of its latest unsuppressed firing; with grouping off that is every alert |
| Incidents.FoldedFiringCanBeSwept | internal/app/event_emitter.go:94-102 | for any two members of a group: a run under a valid configuration, with the answers a grouper really gives, in which an alert firing at every resync is resolved |
| Text.Head | internal/textutil/textutil.go:11-21 | the loop finds the last rune boundary at or before the limit |
| Text.Tail | internal/textutil/textutil.go:26-37 | the loop skips to the first rune start among the first four bytes |
| Text.HeadIsLongest | internal/textutil/textutil.go:9-21 | Head is the longest prefix that ends at a boundary and fits, for any bytes |
| Text.HeadKeepsValid | internal/textutil/textutil.go:9-21 | valid text stays valid (sections 3 and 4 of RFC 3629), whatever the limit |
| Text.TailKeepsValid | internal/textutil/textutil.go:23-37 | valid text stays valid exactly if nothing is cut, nothing is kept, or some rune starts within the limit |
| Text.TailKeepsValidFromFour | internal/textutil/textutil.go:23-37 | so always from a limit of four on |
| Text.TailIsLongest | internal/textutil/textutil.go:23-37 | Tail never keeps more than the limit, and never less than the longest suffix of valid text that starts a rune and fits |
| Text.TailCanSplit | internal/textutil/textutil.go:23-37 | a valid text whose tail is not, for a limit of two |
| SlackCut.HeadCutCommutes | internal/sinks/slack_blocks.go:179-188 | headEscaped of escaped text is the escaped form of the longest rune-aligned prefix that fits, for any bytes and limit |
| SlackCut.TailCutCommutes | internal/sinks/slack_blocks.go:190-203 | tailEscaped of escaped valid text is the escaped form of the longest rune-aligned suffix that fits, for limits of at least four |
| SlackCut.EscapeKeepsValid | internal/sinks/slack_blocks.go:168-171 | escaping keeps valid text valid |
| SlackCut.EscapedIsShown | internal/sinks/slack_blocks.go:163-171 | escaped text shows as the text itself and holds no angle bracket |
| SlackCut.HeadCutShowsPrefix | internal/sinks/slack_blocks.go:179-188 | a cut head shows the longest rune-aligned prefix whose escaped form fits |
| SlackBody.ValueHasNoFence | internal/sinks/slack_blocks.go:173-177 | a cut value never holds a whole fence |
| SlackBody.FenceClosesBehindValue | internal/sinks/slack_blocks.go:94 | for any value the closing fence begins early by the ticks its last run leaves over; so exactly at the value's end if and only if that run is a whole number of fences |
| SlackBody.LastTickClosesEarly | internal/sinks/slack_blocks.go:94 | a value whose last tick is left outside its fence |
| SlackBody.OrderedDetails | internal/sinks/slack_blocks.go:143-161 | every key once: the curated ones in their order, then the others sorted |
| SlackBody.LessIsLexicographic | internal/sinks/slack_blocks.go:158 | the order of the other keys: the first difference decides, and a proper prefix comes first |
| SlackBody.SlackDetailBody | internal/sinks/slack_blocks.go:82-113 | the body is the stack of the sections that fit in turn, and the omission line for the rest |
| SlackBody.BodyKeepsWithinLimit | internal/sinks/slack_blocks.go:82-122 | never over the limit, whole sections only, in key order, and the omission line counts exactly the skipped non-empty ones |
| SlackBody.OmittedDidNotFit | internal/sinks/slack_blocks.go:99-102 | a section with something to show is left out exactly if it would not have fitted behind those before it |
| SlackBody.SmallDetailsAreShown | internal/sinks/slack_blocks.go:84-112 | details that fit all together, with room for the omission line, are all shown and none is counted |
| SlackBody.EveryValueCounts | internal/sinks/slack_blocks.go:90-93 | every detail with a value is shown or counted |
| SlackSection.SectionShowsValue | internal/sinks/slack_blocks.go:90-94 | a section shows its key in bold and, in a fence, its value without fences, or the longest end of it that fits |
| SlackSection.UnfenceChangesOnlyFences | internal/sinks/slack_blocks.go:173-177 | only backticks are replaced, by quotes, and none where there is no fence |
| SlackSection.DecimalReadsBack | internal/sinks/slack_blocks.go:117-122 | the omission line states the number it counts |
| SlackBody.OmittedLineAscends | internal/sinks/slack_blocks.go:84-86 | the line for all keys is the longest the body can need, so the reserved room suffices |

## Left out

- The guarantees of the dispatch pool are proved of a state machine on values, with one step per
  locked section or channel operation; one queue with its worker and the outbox are classes
  whose methods make those steps in place. The array of all queues is not a class.
- Every locked section is one atomic step with its clock reading, also where the source
  reads the clock just before locking.
- Leader.AtMostOneController: covers two replicas that each run for the lease once; a lease counts
  as held until its elector returns, so expiry under a holder that is stalled past it is not
  modelled, nor is an acquire already under way when the lease context is cancelled.
- Sinks.Registry.Dispatch: is one call by itself. What other sends do to a breaker between its
  admission and its completion is covered by the protocol of concurrent sends in `Breaker`.
- Pipeline.Emitter.Deliver: accepting a firing in the store and queuing it are one act, so the
  order of two handlers that do both for one fingerprint is that of the store.
- Pipeline.Emitter.Emit: runs one handler's steps in a row, with one clock reading up to
  grouping and one after it; other handlers come in between only at `Deliver`, whose contract
  covers any state they may have left.
- Matching, hashing and encoding: the regular-expression engine, the queue hash, fingerprints,
  JSON and gzip are uninterpreted or the identity on what they keep; the regex cache is absent.
- Group keys are maps of field values; the escaped query string the source builds from them
  is injective and cannot contain the "|resolved" suffix.
- Silences, maintenance windows and Silence CRs are one predicate of the alert and the time.
- The text of a summary alert, and the alert a summary is rendered to, are uninterpreted; its
  names and counts are modelled.
- Incidents.StatefulSinksAgree: speaks of the resolves of sweeps and object deletes. An escalation
  goes to the sinks its rule names, and nothing is claimed about closing incidents at
  stateful sinks that only an escalation reached.
- Incidents.ReceivedMeetsItsFire: takes the resolve's fields, after the severity overrides, to be those
  of the active alert; a sender that changes labels between a fire and its resolve is not followed.
- StoreRuns.OneStayOneIncident, StoreRuns.SendsAreSpaced: a `Reboot` restores the state of that very
  moment, as an orderly stop leaves it; `Crashes` is about older exports.
- A boot whose load fails, or that finds a snapshot of a newer version, starts cold; the boots of
  `Restart` and `Crashes` read the last save.
- Rollback.RefusedFiringIsSentAgain: a restart that restores an export from before the rollback brings
  the refused firing's mute back, until its window ends.
- The rule engine is called by the emitter while it handles an alert and may emit again from
  there. The emitter records what it shows to the engine; the re-entrant call is not followed.
- A retried resolve may follow a later fire of its fingerprint; nothing is claimed about it.
- Panics in a sink are modelled, those recovered elsewhere (grouper ticks, rule ticks) are not.
- Rate limiters appear as the possible outcome of a send only; TestSend is absent.
- Time-outs: the drain budget and perSinkTimeout appear as steps that may happen at any time.
- Runtime silences other than their generation counter, and alerts' enrichment, are opaque.
- HTTP servers, console, Kubernetes and cloud sources, configuration decoding, sharding
  arithmetic (an `owns` predicate), metrics and logging.
