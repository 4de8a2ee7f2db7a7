# perchstation queue: a Dafny model

perchstation records clips when a motion sensor fires, keeps them in a directory queue and uploads them. The queue has no
database and no lock: the only state is which of `pending/`, `inflight/`, `delivered/` and `corrupt/` holds `<id>.mp4` and
`<id>.json`, and each transition is a few filesystem calls. A crash, a failing call or the other task can fall between any
two of them. This project models that protocol call by call, the code around it, and proves what holds over every run.

`dafny verify dfyconfig.toml` checks everything.

## How it is laid out

| file | models |
|---|---|
| `Queue.dfy` | sidecar records, the files of one clip, the effect of each whole transition |
| `Protocol.dfy`, `Steps.dfy`, `Runs.dfy` | the queue as a machine of single filesystem calls, with crashes, failing calls and boot; theorems over all runs |
| `BootRuns.dfy`, `LossRuns.dfy`, `EvictionRuns.dfy`, `Records.dfy`, `Attempts.dfy`, `Calls.dfy` | over the same machine: boots that complete, runs that reach each loss window, when an eviction is safe, what is published in `delivered/`, the first attempt's instant, and the store's methods with failing calls as runs of it |
| `Store.dfy`, `Runner.dfy` | the store and the delivery loop as objects whose methods make the same calls in the same order, any of which may fail |
| `Delivery.dfy`, `Retry.dfy` | what an upload's answer leads to; the backoff arithmetic |
| `Policy.dfy`, `Bounded.dfy`, `Totals.dfy` | the eviction planner, and a submission that runs alone |
| `Admission.dfy`, `Ceilings.dfy`, `Overrun.dfy`, `OverrunRuns.dfy` | submissions among the operations of the other tasks: the census file by file, each eviction as two unlinks; the ceilings over whole runs, and when they can be exceeded |
| `Classify.dfy`, `PollerRuns.dfy` | the classify poller with its skip set, and `delivered/` over whole runs |
| `Liveness.dfy`, `Capture.dfy` | the sensor tracker against its history, and the capture supervisor |
| `Scrub.dfy` | redaction of secrets from log lines |
| `ClipIds.dfy`, `Order.dfy` | clip ids and the order in which names are scanned |
| `Identity.dfy` | credential rotation as a second crash-step machine |

Time is a `real` number of seconds since 1970. A sidecar is a parsed record or `Corrupt`; media is its length. The two layers of the
queue meet in the functions of `Queue.dfy`: a transition of `Protocol` that is left alone, and the method of `Store` that
makes the same calls, both have the effect of the same function (`InflightAlone`, `DeliverAlone`, `RequeueAlone`,
`BootRefinesReconcile`), also for every choice of failing calls (`InflightAsCalls` and its companions). `Protocol` lets the poller and the prune write only to a record that is there and Delivered;
`PollWritesTheLiveRecord` proves that they never do otherwise. Conversely `PollerRuns` assumes of arriving records what
`PublishedAsWritten` and `PublishedOnce` prove of the protocol.

## Assumptions

- Clip ids are fresh, and a sidecar's `clip_id` is the stem of its file name. `IdsDistinct` shows that ids of one boot are
  distinct; the sequence counter restarts at each boot, so two boots within one second could repeat one.
- In `Protocol`, inflight sidecars parse at boot, because the process stops otherwise. `ReconcileInflight` models the stop.
- The eviction totals do not saturate (`Fits`), because one of them is a plain sum in the source.

## What the proofs turned up

- A clip without a recorded outcome loses its media in a crash exactly at the points that `LossPoint` lists. Beside the
  three windows between a media rename and its sidecar write there is a fourth: the quarantine of a corrupt sidecar, between
  its two renames (`LossPointsWithoutFaults`).
- A failed sidecar write in `transition_back_to_pending` has no rollback: the media stays in `pending/` without a sidecar,
  where no scan sees it, and the next boot deletes it. `EveryWindowCostsMedia` gives a run for this and for each of the four
  windows, from before the first boot to the loss.
- With no crash and no failed call, an eviction can overtake a requeue and delete the sidecar that it has just written
  (`EvictionOvertakesRequeue`). An eviction whose first unlink finds the media is safe for ever (`FoundMediaIsGone`); one
  whose first unlink finds nothing can strand the media if and only if it is in `inflight/` on its way back
  (`EvictionStrandsExactly`).
- The policy check is not atomic, and the ceilings can be exceeded with no crash and no failed call. The census reads
  `inflight/` before `pending/`, so it misses a clip that delivery takes up in between; and an eviction of a clip that
  delivery has taken up finds nothing to unlink and still counts as a freed slot (`EvictionInVain`). Nothing else can mislead
  the planner (`Accounting`), so the ceilings hold over every run in which no clip is taken up during a check
  (`CalmRunsStayBounded`). `OverClipsExactly` and `OverBytesExactly` say from which states a submission can go past them.
- `MissingMedia` does not always mean that the media is gone: after a failed rollback, or a failed removal of the pending
  sidecar, it sits in `inflight/` (`MissingMediaWithMediaHeld`, `MissingMediaAfterFailedRemoval`). `RaceSafety` gives the exact condition.
- Two clips that fail one after the other with equal attempts can come back in the opposite order, across a second boundary
  (`OldestFirstBroken`; `OrderKeptExactly` says when). The comment in `delivery/retry.rs:224-238` promises the older one first.
- A Retry-After too long for a span of the clock library is undercut; one that leads past the library's last instant
  (about 8.2e12 seconds after 1970) makes the addition panic, which ends a release build; every other one is honoured
  (`RetryAfterExactly`).
- Records of uploads whose answer could not be decoded are never polled, pruned or evicted; under the `refuse_new` policy
  Undeliverable records stay for ever as well (`StaysForever`, `RemovableExactly`).
- A secret that is part of the word in the placeholder cannot be scrubbed (`ScrubCompleteExactly`). For secrets with
  brackets the outcome depends on the order of registration: with `x[` before `ab`, the text `xab` becomes `x[REDACTED]`
  (`BracketsMakeOrderMatter`).
- The scan order of clips of one second breaks between sequence numbers 999 and 1000 (`WithinOneSecond`).
- After a crash between the two renames of a credential rotation both sets survive, but the next save deletes both before it
  has staged anything, so a second crash there leaves none. A save keeps a complete set through every crash and failing call
  if and only if `credentials/` exists as it begins (`SaveIsSafeExactly`).

## Model

| member | source | states |
|---|---|---|
| `Steps.StepKeepsInv` | crates/perchstation-core/src/queue/store.rs:123-455 | every filesystem call, failed call, eviction, crash and boot step keeps the queue invariant: media in at most one directory, terminal records closed, upload credit within the limit, and media unpaired exactly at the loss points |
| `Runs.RunKeepsInv` | crates/perchstation-core/src/queue/store.rs:123-455 | the invariant holds after every run of any length, whatever the interleaving |
| `Runs.CrashLossExact` | crates/perchstation-core/src/queue/store.rs:123-455 | after a crash at any point, any phase of a boot included, and a completed boot, unrecorded media is gone if and only if the clip was at a loss point; otherwise it is a pending pair with the same bytes and the recovered record or the very sidecar it had; a recorded outcome ends in `delivered/` |
| `Runs.CrashInBootCostsNothing` | crates/perchstation-core/src/queue/store.rs:325-366 | a crash inside a boot, between two clips, leaves the next boot to end where the interrupted one would have |
| `BootRuns.BootCanComplete` | crates/perchstation-core/src/queue/store.rs:325-366 | from every state in which the process is down some boot reaches Running |
| `LossRuns.EveryWindowCostsMedia` | crates/perchstation-core/src/queue/store.rs:123-432 | for every clip id and media length, a run from before the first boot into each loss window, and a crash and boot that destroy the media |
| `Runs.LossPointsWithoutFaults` | crates/perchstation-core/src/queue/store.rs:123-432 | the loss points as program counters when no call has failed: both directions |
| `Runs.ReconcileOutcome` | crates/perchstation-core/src/queue/store.rs:325-366 | what reconciliation makes of one clip: the record in `delivered/`, a pending pair, or media destroyed because it was unpaired |
| `Runs.BootRefinesReconcile` | crates/perchstation-core/src/queue/store.rs:325-366 | a boot that takes single calls, in any order of clips, ends exactly where the one-shot reconciliation does |
| `Runs.TerminalRecordIsFinal` | crates/perchstation-core/src/queue/store.rs:368-397 | once a record with an outcome is in `inflight/`, no later state of any run has a pending sidecar or media for it, and it is never uploaded again |
| `Runs.UploadBound` | crates/perchstation-core/src/delivery/runner.rs:284-359 | in every run the bytes of a clip are sent at most as often as the attempt limit and the boots since it was enqueued allow |
| `Runs.RaceSafety` | crates/perchstation-core/src/queue/policy.rs:384-404 | under every interleaving with eviction: media in one directory only, Ok means a complete inflight pair, MissingMedia means no media in `inflight/` except after two named failures, and the renames that would surface NotFound always find their source |
| `Runs.MissingMediaWithMediaHeld` | crates/perchstation-core/src/queue/store.rs:241-284 | a run in which MissingMedia is reported while the media sits in `inflight/` |
| `Runs.MissingMediaAfterFailedRemoval` | crates/perchstation-core/src/queue/store.rs:241-284 | the same after a failed removal of the pending sidecar |
| `EvictionRuns.EvictionOvertakesRequeue` | crates/perchstation-core/src/queue/policy.rs:384-404 | from any pending pair with attempts to spare, a run without crash or failure in which the eviction strands the media |
| `EvictionRuns.FoundMediaIsGone` | crates/perchstation-core/src/queue/policy.rs:393-397 | if the first unlink finds the media, no later state of any run, with crashes and failures, holds media of the clip |
| `EvictionRuns.EvictionStrandsExactly` | crates/perchstation-core/src/queue/policy.rs:384-404 | a stranding run without crash or failing call exists if and only if the first unlink finds nothing in `pending/` while the media is in `inflight/` on its way back |
| `EvictionRuns.EvictionKeepsSlotExactly` | crates/perchstation-core/src/queue/policy.rs:384-404 | an eviction leaves the clip its slot, in some run without crash or failing call, if and only if at its first unlink the clip has a sidecar elsewhere, is about to get one, or is being rolled back beside its own |
| `EvictionRuns.FreedForever` | crates/perchstation-core/src/queue/policy.rs:384-404 | a slot once freed stays free over every later run, with crashes and failures |
| `Records.PublishedAsWritten` | crates/perchstation-core/src/delivery/runner.rs:240-406 | in every run, each record in `delivered/` is named after its clip, has an outcome, and has a classify task only if Delivered |
| `Records.PublishedOnce` | crates/perchstation-core/src/queue/store.rs:379-397 | a record removed from `delivered/` is never published again, over any run with crashes and reboots |
| `Runs.MediaDestroyedOnlyBy` | crates/perchstation-core/src/queue/store.rs:123-455 | media leaves the disk in exactly four ways, and the removal of an orphan sidecar is not one of them |
| `Runs.CaptureSparesTheFloor` | crates/perchstation-core/src/queue/policy.rs:384-404 | no step of the capture task changes `inflight/` or a Delivered record |
| `Runs.InflightAlone` | crates/perchstation-core/src/queue/store.rs:241-284 | the micro-steps of the transition, left alone, give a complete inflight pair with the bumped record |
| `Runs.DeliverAlone` | crates/perchstation-core/src/queue/store.rs:379-397 | the micro-steps of delivery, left alone, leave only the record in `delivered/` |
| `Runs.RequeueAlone` | crates/perchstation-core/src/queue/store.rs:300-318 | the micro-steps of the requeue, left alone, leave only the pending pair |
| `Calls.InflightAsCalls` | crates/perchstation-core/src/queue/store.rs:241-284 | for every choice of failing calls, the store's transition leaves what its succeeding and failing micro-steps leave |
| `Calls.RequeueAsCalls` | crates/perchstation-core/src/queue/store.rs:300-318 | the same of the requeue |
| `Calls.DeliverAsCalls` | crates/perchstation-core/src/queue/store.rs:379-397 | the same of the delivery |
| `Calls.OrphanAsCalls` | crates/perchstation-core/src/queue/store.rs:404-410 | the same of the removal of an orphan |
| `Calls.QuarantineAsCalls` | crates/perchstation-core/src/queue/store.rs:415-432 | the same of the quarantine |
| `Calls.EnqueueAsCalls` | crates/perchstation-core/src/queue/store.rs:123-162 | the same of the enqueue |
| `Attempts.FirstAttemptIsFixed` | crates/perchstation-core/src/queue/store.rs:254-256 | once a sidecar records the clip's first attempt, every later one tells the same instant, through requeues, crashes and boots |
| `Attempts.BudgetIsNeverRestarted` | crates/perchstation-core/src/delivery/retry.rs:190-195 | so over whole runs no answer at or after the first attempt plus the wall-clock budget re-queues the clip |
| `Delivery.AfterUploadDecides` | crates/perchstation-core/src/delivery/runner.rs:253-406 | a clip is re-queued only by a transient failure with attempts to spare; a panic exactly when such a failure's retry instant overflows; every other answer ends in an outcome, Delivered exactly for accepted uploads |
| `Delivery.RecordAfterAnswer` | crates/perchstation-core/src/delivery/runner.rs:253-406 | the record that each answer leads to, field by field |
| `Delivery.RequeueInstant` | crates/perchstation-core/src/delivery/runner.rs:321-326 | the re-queued record names the retry instant: a fifth around the capped exponential, not before a Retry-After the clock can hold, and only within both budgets |
| `Delivery.RefusalEndsAtOnce` | crates/perchstation-core/src/delivery/retry.rs:125-168 | which refusals end a clip's attempts at once, over all status codes, and when the others do |
| `Delivery.MayUploadExactly` | crates/perchstation-core/src/delivery/runner.rs:501-515 | a clip is uploaded exactly when it is readable and of 1 byte to 50 MiB; the reason otherwise |
| `Store.QueueStore.EnqueueWithId` | crates/perchstation-core/src/queue/store.rs:123-162 | the new record field by field; for every choice of failing calls, the result and the files: the new pair, or no trace of the media unless its removal fails too |
| `Store.QueueStore.PickOldestPending` | crates/perchstation-core/src/queue/store.rs:167-224 | the first readable sidecar in name order whose retry instant is absent or has come; none exactly when every one waits; the corrupt ones before it are moved away, as far as that succeeds |
| `Store.QueueStore.TransitionInflight` | crates/perchstation-core/src/queue/store.rs:241-284 | the inflight record field by field: one attempt more, the first attempt's instant kept; MissingMedia exactly without pending media, and then nothing changes; otherwise the result and the files for every choice of failing calls, the rollback included |
| `Store.QueueStore.TransitionBackToPending` | crates/perchstation-core/src/queue/store.rs:300-318 | the result and the clip's files for every choice of failing calls |
| `Store.QueueStore.TransitionDelivered` | crates/perchstation-core/src/queue/store.rs:379-397 | the result and the clip's files for every choice of failing calls |
| `Store.QueueStore.QuarantineCorrupt` | crates/perchstation-core/src/queue/store.rs:415-432 | sidecar and media move together, unless a rename fails |
| `Store.QueueStore.QuarantineOrphan` | crates/perchstation-core/src/queue/store.rs:404-410 | the pending pair is removed, unless an unlink fails |
| `Store.FailingCallsSpareMedia` | crates/perchstation-core/src/queue/store.rs:241-432 | whichever calls fail, no transition destroys or duplicates media, but for the unlink after a record with an outcome is written |
| `Store.QueueStore.SweepOrphanMedia` | crates/perchstation-core/src/queue/store.rs:439-455 | exactly the media without a sidecar is removed; it fails exactly when one of those removals does |
| `Store.QueueStore.ReconcileInflight` | crates/perchstation-core/src/queue/store.rs:325-366 | Ok exactly when no removal fails, every inflight sidecar can be read and parsed and no call of its transition fails; every clip reconciled, and the re-queued records returned in scan order; otherwise exactly the clips before the one that failed |
| `Store.ReconcileProperties` | crates/perchstation-core/src/queue/store.rs:325-366 | `inflight/` ends empty, pending media is paired, terminal entries are in `delivered/`, others in `pending/` with backoff and error cleared and every other field kept; a second run changes nothing |
| `Store.BeforeStrictTotal` | crates/perchstation-core/src/queue/store.rs:167-224 | the scan order is a strict total order on clip ids |
| `Runner.DeliveryRunner.TryOnce` | crates/perchstation-core/src/delivery/runner.rs:188-282 | idle exactly when no readable clip is due; the first due one goes through its attempt, nothing else changes but corrupt sidecars before it; a re-queued clip's record carries its retry instant, before which it is not picked; the backlog measure falls unless a store call failed, and never grows |
| `Runner.DeliveryRunner.FinishAttempt` | crates/perchstation-core/src/delivery/runner.rs:219-337 | the files and the result after pre-flight and the server's answer, for every choice of failing calls |
| `Runner.DeliveryRunner.Drain` | crates/perchstation-core/src/delivery/runner.rs:125-186 | with no new clips and no failing store call the loop reaches idle within the backlog's weight, whatever the answers and the clock, unless an answer makes it panic |
| `Runner.RoundLightens` | crates/perchstation-core/src/delivery/runner.rs:188-337 | an iteration without a failed store call strictly decreases corrupt sidecars plus attempts left |
| `Runner.RequeuedRecord` | crates/perchstation-core/src/delivery/runner.rs:284-337 | what a re-queued clip's record says after a whole iteration: attempts, first attempt and retry instant |
| `Runner.AttemptSparesMedia` | crates/perchstation-core/src/delivery/runner.rs:188-337 | an attempt with any failing calls, any answer, or a panic keeps the clip's media unless a record with an outcome has been written |
| `Retry.DelayBounds` | crates/perchstation-core/src/delivery/retry.rs:177-247 | the delay is within 20 % of the capped exponential, or the longer Retry-After |
| `Retry.BaseDelayIsCappedExponential` | crates/perchstation-core/src/delivery/retry.rs:212-222 | the base delay is min(initial * 2^(n-1), max) |
| `Retry.DelayGrowsWithAttempts` | crates/perchstation-core/src/delivery/retry.rs:212-247 | at a fixed instant the delay does not shrink as attempts grow |
| `Retry.RetryWithinBudget` | crates/perchstation-core/src/delivery/retry.rs:177-210 | given up exactly when a budget is spent; each retry instant is representable and lies before first attempt + wallclock + max(1.2 * max delay, Retry-After) |
| `Retry.RetryAfterExactly` | crates/perchstation-core/src/delivery/retry.rs:177-210 | Retry-After (section 7.1.3 of RFC 7231) is honoured, undercut, or a panic: the exact condition of each |
| `Retry.NoOverflowWithoutRetryAfter` | crates/perchstation-core/src/delivery/retry.rs:177-210 | without a Retry-After the addition overflows only within nine days of the clock's last instant |
| `Retry.OrderKeptExactly` | crates/perchstation-core/src/delivery/retry.rs:239-247 | the exact condition under which two equal-attempt clips keep their order |
| `Retry.OldestFirstKept` | crates/perchstation-core/src/delivery/retry.rs:239-247 | order is kept within one second, or when the gap is 0.4 of the base or more |
| `Retry.OldestFirstBroken` | crates/perchstation-core/src/delivery/retry.rs:239-247 | two instants across a second boundary whose retries swap |
| `Policy.TakeCensus` | crates/perchstation-core/src/queue/policy.rs:314-352 | run alone: the exact floor, and the candidates each once: records before pending clips, earlier captured first, ties by id |
| `Policy.EvictHead` | crates/perchstation-core/src/queue/policy.rs:384-404 | one eviction frees one slot and its bytes, leaves the other candidates and spares the floor |
| `Policy.TotalsAreFloorPlusCandidates` | crates/perchstation-core/src/queue/policy.rs:189-196 | the totals on disk are the floor plus the candidates |
| `Policy.AllEvictedIsFloor` | crates/perchstation-core/src/queue/policy.rs:210-284 | evicting everything brings the queue exactly to its floor, so the sweep cannot run out of candidates |
| `Policy.EvictionOrderUnique` | crates/perchstation-core/src/queue/policy.rs:338-356 | a disk has one eviction order only |
| `Policy.FloorUntouched` | crates/perchstation-core/src/queue/policy.rs:314-352 | no prefix of evictions touches `inflight/` or a record to keep |
| `Policy.Sweep` | crates/perchstation-core/src/queue/policy.rs:236-284 | run alone: the shortest sufficient prefix is deleted, and the running counters equal a fresh census after each step; after a failing unlink exactly the clips evicted so far are reported |
| `Policy.ApplyPolicy` | crates/perchstation-core/src/queue/policy.rs:210-284 | run alone: refuses if and only if there is no room and evicting everything would make none (or the policy is to refuse); a refusal deletes nothing and reports the exact totals; acceptance sweeps the shortest prefix, or stops at a failing unlink; what goes was captured before what is left, and no pending clip goes while an Undeliverable record is left |
| `Policy.SweptFits` | crates/perchstation-core/src/queue/policy.rs:210-284 | after acceptance the incoming clip fits both ceilings |
| `Admission.RunKeepsInv` | crates/perchstation-core/src/queue/policy.rs:210-284 | over every interleaving, the census has read the sidecar of each clip that delivery has not taken up since the check began, wherever it is now, or has still to read it |
| `Admission.Accounting` | crates/perchstation-core/src/queue/policy.rs:189-284 | at every point of a sweep the queue holds at most what the running counters say and what the clips hold that delivery took up during the check |
| `Admission.VictimIsOldest` | crates/perchstation-core/src/queue/policy.rs:314-356 | in every state, the next clip to be unlinked is the oldest that the census has read, records before pending clips |
| `Ceilings.QueueStaysBounded` | crates/perchstation-core/src/queue/policy.rs:108-145 | the ceilings hold over every run in which, at each acceptance, the clips taken up during the check fit as well |
| `Ceilings.CalmRunsStayBounded` | crates/perchstation-core/src/queue/policy.rs:108-145 | so they hold over every run in which delivery takes no clip up during a policy check, whatever else interleaves; in particular when the checks run alone |
| `OverrunRuns.OverClipsExactly` | crates/perchstation-core/src/queue/policy.rs:210-352 | a submission can leave more than max_clips clips if and only if the queue is full, delivery can take some clip up, and the new clip fits in bytes beside those that nobody moves |
| `OverrunRuns.OverBytesExactly` | crates/perchstation-core/src/queue/policy.rs:210-352 | it can leave more than max_bytes if and only if, beside some of the clips that nobody moves, it fits alone and does not fit together with those that delivery can take up |
| `OverrunRuns.MissedRun` | crates/perchstation-core/src/queue/policy.rs:314-352 | a run in which the census misses a clip, and the submission adds its slot and bytes on top of all that was there |
| `OverrunRuns.EvictionInVain` | crates/perchstation-core/src/queue/policy.rs:384-404 | a run in which the candidate is taken up between census and unlinks, and the submission adds its slot and bytes on top of all that was there |
| `Ceilings.MediaStaysBounded` | crates/perchstation-core/src/queue/policy.rs:108-145 | over the same runs, if every medium starts with the length its sidecar gives, the media bytes in `pending/` and `inflight/` stay within the ceiling |
| `Bounded.Submit` | crates/perchstation-core/src/queue/policy.rs:108-145 | run alone: after every accepted submission, enqueued or not, the queue is within its ceilings; a refusal changes nothing |
| `Ceilings.OthersNeverGrow` | crates/perchstation-core/src/queue/store.rs:241-397 | no operation but an enqueue makes any clip take more slots or bytes |
| `Classify.ClassifyPoller.ScanNonTerminal` | crates/perchstation-core/src/delivery/classify.rs:171-247 | with the skip set, the scan returns and leaves exactly what rereading every sidecar would: the entries with a task that is not over and less than a day old, the older ones marked lost; unreadable ones are passed over and a failed rewrite ends it |
| `Classify.ClassifyPoller.PollOne` | crates/perchstation-core/src/delivery/classify.rs:259-321 | the record written for each answer field by field, or none if the write fails; polling is over exactly for a finished task or a hopeless failure |
| `Classify.ClassifyPoller.PruneRound` | crates/perchstation-core/src/delivery/classify.rs:145-159 | exactly the Delivered records go whose task is over and which were delivered before now minus the retention, if they can be read and removed; the skip set does not outgrow the directory |
| `PollerRuns.SkipSetRefinesReread` | crates/perchstation-core/src/delivery/classify.rs:171-247 | over every run with deliveries, evictions, prunes and restarts between any two reads or writes, trusting the skip set equals rereading |
| `PollerRuns.RunKeepsInv` | crates/perchstation-core/src/delivery/classify.rs:161-331 | in every run each scanned entry not yet polled is the record on disk |
| `PollerRuns.PollWritesTheLiveRecord` | crates/perchstation-core/src/delivery/classify.rs:259-321 | a poller's write never hits a removed or changed record |
| `PollerRuns.MarkWritesTheLiveRecord` | crates/perchstation-core/src/delivery/classify.rs:232-242 | nor does the rewrite of a record that a scan gives up on |
| `PollerRuns.RemovedForGood` | crates/perchstation-core/src/queue/policy.rs:419-465 | a record that prune or eviction removed never comes back |
| `PollerRuns.DeliveredLifetime` | crates/perchstation-core/src/delivery/classify.rs:232-257 | a record with a task is finished by the first scan that ends a day after delivery and gone after the first later prune past its delivery, whatever happens around them |
| `PollerRuns.KeptUntilCutoff` | crates/perchstation-core/src/queue/policy.rs:470-477 | and never earlier: over every run whose prune cutoffs are not past its delivery, a Delivered record stays |
| `PollerRuns.ScanFinishes` | crates/perchstation-core/src/delivery/classify.rs:171-257 | a scan completed a day or more after delivery leaves every record with a task finished or gone, whatever comes between its reads |
| `PollerRuns.RemovableExactly` | crates/perchstation-core/src/queue/policy.rs:470-477 | the records that some run removes, exactly, under each eviction policy |
| `PollerRuns.StaysForever` | crates/perchstation-core/src/delivery/runner.rs:365-387 | of the records delivery writes, those that stay for ever: the undecodable ones, and under `refuse_new` the undeliverable ones |
| `Liveness.SensorLivenessTracker.HandleError` | crates/perchstation-core/src/capture/liveness.rs:124-140 | the new state and the announced transition |
| `Liveness.SensorLivenessTracker.HandleAsserted` | crates/perchstation-core/src/capture/liveness.rs:142-164 | the new state and the announced transition |
| `Liveness.SensorLivenessTracker.HandleQuiescent` | crates/perchstation-core/src/capture/liveness.rs:166-182 | the new state and the announced transition |
| `Liveness.TrackerRefinesHistory` | crates/perchstation-core/src/capture/liveness.rs:101-183 | the tracker equals its meaning over the history: trailing error run, trailing asserted run held for the threshold, or healthy; for any timestamps |
| `Liveness.PositiveThresholdNeeded` | crates/perchstation-core/src/config.rs:277-279 | that holds for all histories if and only if the threshold is positive |
| `Liveness.ProjectionAgrees` | crates/perchstation-core/src/capture/state.rs:79-83 | status shows NeverObserved until the first degradation and the tracker's health from then on |
| `Capture.CaptureSupervisor.HandleTrigger` | crates/perchstation-core/src/capture/runner.rs:208-286 | which gate stops a trigger, in terms of the deadline, the health and the staging bytes, and the whole new supervisor state |
| `Capture.CaptureSupervisor.RecordAndHandle` | crates/perchstation-core/src/capture/runner.rs:288-434 | every ending of a recording starts the cooldown and is reported |
| `Capture.CaptureSupervisor.UpdateLiveness` | crates/perchstation-core/src/capture/runner.rs:148-174 | tracker and projection move together |
| `Capture.RecordingsSpaced` | crates/perchstation-core/src/capture/runner.rs:208-439 | any two recordings of a run are a cooldown apart, from the end of the first one's handling |
| `Capture.WindowBound` | crates/perchstation-core/src/capture/cooldown.rs:25-34 | no window of width W holds more than W / cooldown + 1 starts |
| `Capture.NoneStartsDegraded` | crates/perchstation-core/src/capture/runner.rs:240-251 | a recording starts only while the observed history is healthy |
| `Capture.TracksHistory` | crates/perchstation-core/src/capture/runner.rs:148-174 | after any run the supervisor's tracker and projection are those of the observations alone |
| `Capture.StatusTellsTheLatest` | crates/perchstation-core/src/capture/state.rs:63-75 | status shows the latest submitted clip, and the latest failure exactly when no success followed it |
| `Scrub.ReplaceSwapsSeparators` | crates/perchstation-core/src/observability/tracing.rs:382-390 | replacement keeps every piece between the occurrences and swaps only the occurrences |
| `Scrub.ScrubComplete` | crates/perchstation-core/src/observability/tracing.rs:382-390 | no registered string is left, in any registration order |
| `Scrub.ScrubIdempotent` | crates/perchstation-core/src/observability/tracing.rs:382-390 | scrubbing again, in any order, changes nothing |
| `Scrub.ScrubCompleteExactly` | crates/perchstation-core/src/observability/tracing.rs:382-390 | for bracket-free secrets the scrub is complete on all texts if and only if none is part of the placeholder |
| `Scrub.BracketsMakeOrderMatter` | crates/perchstation-core/src/observability/tracing.rs:382-390 | pairs of secrets, one with a bracket, that are scrubbed in one order of registration and not in the other |
| `Scrub.ScrubText` | crates/perchstation-core/src/observability/tracing.rs:382-390 | the loop computes the sequential replacement and leaves no redactable secret |
| `Scrub.RedactionRegistry.Register` | crates/perchstation-core/src/observability/tracing.rs:253-267 | empty and repeated secrets are ignored, and the counter stays the length of the list |
| `Scrub.RedactionRegistry.Write` | crates/perchstation-core/src/observability/tracing.rs:361-376 | the fast path gives the same output as the scrub |
| `ClipIds.EarlierSecondFirst` | crates/perchstation-core/src/queue/store.rs:460-465 | an earlier capture second, years 0 to 9999, is scanned first whatever the sequence numbers |
| `ClipIds.CivilIsChronological` | crates/perchstation-core/src/queue/store.rs:460-465 | comparing the fields of two valid dates is comparing their seconds |
| `ClipIds.WithinOneSecond` | crates/perchstation-core/src/queue/store.rs:460-465 | within a second, the exact condition under which sequence order is scan order |
| `ClipIds.BelowAThousand` | crates/perchstation-core/src/queue/store.rs:460-465 | sequence order holds below 1000 and breaks between 999 and 1000 |
| `ClipIds.IdsDistinct` | crates/perchstation-core/src/queue/store.rs:460-465 | an id determines its second and its sequence number |
| `ClipIds.IdShape` | crates/perchstation-core/src/queue/store.rs:460-465 | where each field stands in the id |
| `ClipIds.PickedIsOfEarliestSecond` | crates/perchstation-core/src/queue/store.rs:167-224 | the picked clip is of the earliest capture second among the eligible ones that can be read |
| `Identity.NeverTorn` | crates/perchstation-core/src/identity.rs:196-275 | at every crash point of every run `credentials/` is one complete set or absent |
| `Identity.AbsentOnlyBetweenRenames` | crates/perchstation-core/src/identity.rs:242-258 | when a set existed, it is absent only between the renames, and both sets survive until another save begins |
| `Identity.OnlyRenamesTouchCreds` | crates/perchstation-core/src/identity.rs:242-258 | each step leaves `credentials/` alone or is one of three renames of a complete set |
| `Identity.RefusedWithoutOverwrite` | crates/perchstation-core/src/identity.rs:201-209 | without an overwriting save, an existing identity stays for ever |
| `Identity.SaveIsSafeExactly` | crates/perchstation-core/src/identity.rs:196-275 | one save, with any crash or failing call, can lose every complete set if and only if `credentials/` is missing as it begins |
| `Identity.SurvivorsSweptFirst` | crates/perchstation-core/src/identity.rs:211-213 | a run of one save that loses both surviving sets |
| `Identity.InterruptedRotation` | crates/perchstation-core/src/identity.rs:242-258 | a run that leaves a station with `credentials/` missing and both sets under the other names |
| `Identity.CredentialStore.Save` | crates/perchstation-core/src/identity.rs:196-275 | the result and the three directories for every choice of failing calls |

## Left out

- HTTP, mTLS, enrollment, QR and certificate handling: library calls; an upload or a poll answers with any value.
- JSON and TOML decoding, the hardware crate, the command line, status rendering and log events.
- Scheduling, cancellation and blocking threads: replaced by interleaving of enabled events and a crash event.
- fsync and power loss: calls take effect in order and survive a process crash.
- Rounding of f64: backoff is real arithmetic, so the NaN of a zero initial delay with an overflowed growth factor is not modelled.
- Error message texts: `LastError` keeps kind and status only.
- Staging names (`.mp4.tmp`, `.json.tmp`): a copy or a sidecar write is one atomic call, and leftovers of interrupted ones are not on the modelled disk.
- Directory listings that change while they are read, in the store's and the planner's own methods: `Protocol` and `PollerRuns` model interference, `Store`, `Runner`, `Policy` and `ClassifyPoller` run alone, with failing calls. A listing that itself fails is not modelled.
- A change of the eviction policy between restarts.
- Which I/O error a failing call returns: disk-full is not told from any other.
- The quarantine of corrupt `delivered/` sidecars is a removal from that directory; its copy in `corrupt/` is not tracked there.
- Invalid UTF-8 in log output: text is a sequence of characters.
- Leap seconds, years outside 0 to 9999, and wrap-around of the 32-bit sequence counter.
- Cooldown and stuck thresholds beyond what the clock library can add to an instant.
- Runner.DeliveryRunner.Drain: does not model certificate expiry nor the pauses of the loop, and assumes that no store call fails, since the loop then pauses and tries again for ever; one iteration with failing calls is TryOnce.
- Policy.TakeCensus: runs alone, Admission models the census among other tasks; a sidecar that cannot be read is not told from a corrupt one, both end the census.
- Policy.Sweep: runs alone; Admission models its evictions among other tasks.
- Policy.ApplyPolicy: runs alone, as TakeCensus and Sweep do; a sidecar that cannot be read is not told from a corrupt one.
- Bounded.Submit: runs alone; what other tasks can do to a submission is OverrunRuns.OverClipsExactly and OverrunRuns.OverBytesExactly.
- Ceilings.QueueStaysBounded: a whole operation of delivery, of the poller or of pruning is one step there, and no call fails; their single calls are the events of Protocol.
