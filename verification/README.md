# Pod workers and pod status, verified

This project models the core of a small kubelet in Dafny 4.11 and proves properties of it.

**Pod workers** (`pkg/mycore/podworker.go`). One goroutine for each pod UID receives work over a channel of
capacity one; what arrives meanwhile goes into a slot that holds the last undelivered item. A status record for
each UID runs from sync over terminating and terminated to finished; static pods of one full name queue for
admission.

- `PodTypes`, `GracePeriod`: requests, work items, the effective grace period.
- `WorkerState`: the state behind the lock and one function for each section of code that holds it.
  Whatever would panic, block or log a programmer error is recorded as a fault.
- `PodWorkers`: the same sections as methods of a class that updates its maps in place; every method is proved
  to do to the state what its function does.
- `WorkerSystem`: the whole machine. The state behind the lock, one worker for each channel with its place in
  managePodLoop, and the steps: UpdatePod, SyncKnownPods, and each section of each worker, in any interleaving.
  Sync functions may return success, a terminal result, cancellation or any error.
- `WorkerInvariant`, `WorkerProgress`: the inductive invariant, its preservation by every step, and what a step
  can do to a pod.
- `WorkerSafety`, `WorkerDelivery`, `PendingItems`, `StatusChanges`, `WorkerQueries`, `KillRequests`,
  `CompletionChannels`, `StaticAdmission`: the theorems over runs.
- `Surprises`: reachable states that show where an expectation fails.

**Status generation** (`pkg/mycore/podfn.go`, `pkg/mycore/status.go`).

- `StatusTypes`: runtime records, API statuses, conversion to int32.
- `RuntimeStatus`: the runtime status object and the calls that overwrite it in place.
- `ContainerStatuses`: the four passes over spec, old status and runtime records.
- `PodPhases`: the counting phase classifier against a definition by quantifiers.
- `StatusGeneration`: the merge of phases, and theorems that compose all passes.

A run (`IsRun`) starts from empty maps and takes any steps; the theorems hold in every run. Three promises hold in every
`StableRun` but not in every run: that no sync follows the start of termination, that two static pods of one name are
never both let in, and that non-static pods receive their items in order. A run is stable if, as long as a worker has
not been let in, requests for its UID do not present it as another kind of pod, where a runtime-only request counts as
non-static. What holds of them in every run is stated exactly by `PendingItems.NoSyncPendingExactly`,
`PendingItems.ForwardOnly`, `StaticAdmission.OneInCharge` and `WorkerDelivery.OutOfOrderExactly`.

What the proofs found out about the code:

- The comment on `CompletedCh` (`pkg/mycore/podworker.go:40-43`) says the channel is never left open once
  CouldHaveRunningContainers returns false, even for a pod that has already terminated. The code leaves it open if the
  pod ends without a regular teardown, and if the request is dropped: for a finished pod, for a create of a terminating
  one, and for a runtime kill of a terminated one. `CompletionChannels.ClosedExactly` says exactly when it is closed.
- An override of exactly 0 can raise a recorded grace period; `GracePeriod.RaisedExactlyByZero` says exactly when.
- For a pod that was told to wait with an item undelivered, the next item can overtake that one
  (`Surprises.StaticPodsServedOutOfOrder`); `WorkerDelivery.OutOfOrderExactly` says exactly when.
- If such a pod is then let in by a runtime-only kill, a sync item can survive the start of its termination
  (`Surprises.SyncPendingAfterRuntimeKill`) and syncPod can run after syncTerminatingPod
  (`Surprises.SyncsAfterTerminating`); `PendingItems.NoSyncPendingExactly` and `PendingItems.ForwardOnly` say exactly
  when.
- A waiting static pod that such a kill lets in does not take its name, so that two static pods of one name can both be
  let in (`Surprises.TwoInCharge`); `StaticAdmission.HoldsExactly` says exactly which worker's pod holds its name.
- A comment in UpdatePod (`pkg/mycore/podworker.go:620-621`) says the period is always set for syncTerminatingPod.
  completeSync replaces an undelivered kill, with its period, by an item without one
  (`Surprises.TerminatesWithoutPeriod`); `PendingItems.PeriodGiven` says exactly which attempts are given none.
- An eviction request for a pod that is already terminating, or is deleted or at its end, is not recorded as an
  eviction (`KillRequests.RequestRecordedExactly`).
- A static queue jams if a UID returns under another name while its old entry is still queued
  (`Surprises.QueueJams`, `StaticAdmission.JamCause`).
- The log text in completeSync calls an ordinary state a programmer error
  (`Surprises.SyncCompletesWhileTerminating`).
- A pod with several containers is never recognised as stopped from its runtime status, even when all have exited
  (`RuntimeStatus.CacheTerminalExactly`).
- A stored Failed turns into Succeeded when the pod is marked completed (`StatusGeneration.CompletionErasesFailure`),
  so terminal phases absorb as a set but not one by one (`StatusGeneration.TerminalFlipsExactly`).
- An exit code that is a multiple of 2^32 counts as success (`StatusGeneration.CleanExactly`).

## Model

| member | source | states |
|---|---|---|
| `GracePeriod.FirstPeriodExactly` | pkg/mycore/podworker.go:706-734 | With nothing recorded, the period is the least of the non-zero values that the deletion and the request name, or the spec's if they name none or the request names 0 below the deletion's; at least 1, and 1 if there is no spec's either |
| `GracePeriod.LaterPeriodExactly` | pkg/mycore/podworker.go:706-734 | With a period recorded, it becomes the least of it and the values named, at least 1, unless one of them is 0, which discards it in favour of the request's value or the spec's |
| `GracePeriod.RaisedExactlyByZero` | pkg/mycore/podworker.go:706-734 | One request raises a recorded period if and only if a zero override re-enters the "unset" path with a larger fallback |
| `GracePeriod.RecordedIsFloor` | pkg/mycore/podworker.go:706-734 | Without zero overrides, the period after any sequence of requests is the least of the first value and all supplied ones, but at least 1 |
| `GracePeriod.RecordedOrderIndependent` | pkg/mycore/podworker.go:706-734 | Any permutation of the later requests records the same period |
| `GracePeriod.CancellationsBounded` | pkg/mycore/podworker.go:603-622 | The period stays between 1 and its first value, and each grace-triggered cancellation costs at least one second of it |
| `WorkerInvariant.StepInv` | pkg/mycore/podworker.go:479-1251 | Every step of every goroutine, UpdatePod and SyncKnownPods keeps the invariant of the whole machine, and with `kinds` also the part that depends on callers not changing the kind of a pod that waits to be let in |
| `WorkerInvariant.RunInv` | pkg/mycore/podworker.go:479-1251 | The invariant holds in every state of every interleaving, whatever callers do |
| `WorkerInvariant.RunKinds` | pkg/mycore/podworker.go:479-1251 | The rest of it, on kinds, holds in every state if no request changes the kind of a pod whose worker has not been let in |
| `WorkerInvariant.AllowTrims` | pkg/mycore/podworker.go:773-797 | The decision trims the waiting list to its first eligible UID, removes that UID only to let it in, and leaves all other lists alone |
| `WorkerInvariant.AllowKeepsLine` | pkg/mycore/podworker.go:773-797 | Trimming never drops an eligible UID other than the one let in |
| `WorkerSafety.TokenConservation` | pkg/mycore/podworker.go:677-682 | Items in the channel plus the one in the worker's hands number at most one, and exactly one if and only if `working` is set |
| `WorkerSafety.NothingFaults` | pkg/mycore/podworker.go:645-651 | No send blocks under the lock, no channel is closed twice or missing, no status is missing, and no "likely programmer error" branch but the one in completeSync is reached |
| `WorkerSafety.SendsNeverBlock` | pkg/mycore/podworker.go:1147-1156 | Both sends find an open channel with an empty buffer |
| `WorkerSafety.MapCoherence` | pkg/mycore/podworker.go:505-530 | A UID has a channel exactly if it is known and unfinished, undelivered keys have channels, each UID has at most one live worker, and exactly the channels of gone workers are closed |
| `WorkerSafety.IntruderOrigin` | pkg/mycore/podworker.go:740-761 | The sync item recorded as the intruder is the one that lay undelivered at the step, returned, at which allowPodStart let the worker in although its pod had been asked to terminate |
| `WorkerSafety.NoSyncPending` | pkg/mycore/podworker.go:250-254 | Once startedTerminating is set, no sync item is in the channel, the undelivered slot or the worker's hands if no request changes the kind of a pod that waits to be let in |
| `WorkerSafety.LifecycleHolds` | pkg/mycore/podworker.go:262-272 | Finished implies terminated implies terminating; terminated but unfinished implies that terminating was started |
| `WorkerSafety.TerminatedAfterTerminating` | pkg/mycore/podworker.go:1019-1043 | A live worker's pod is terminated only after its syncTerminatingPod returned without error at an earlier step, which the lemma returns |
| `WorkerSafety.CleanupAfterTeardown` | pkg/mycore/podworker.go:928-949 | syncTerminatedPod runs only after a successful syncTerminatingPod of the same worker |
| `WorkerProgress.StepProgresses` | pkg/mycore/podworker.go:479-1251 | Each step only moves a known pod forward, forgets it if finished, or registers it anew |
| `WorkerDelivery.NewestNeverLost` | pkg/mycore/podworker.go:684-695 | For every worker in every run, the last item issued is undelivered, buffered, or was received at an earlier step: only superseded items are dropped |
| `WorkerDelivery.OutOfOrderExactly` | pkg/mycore/podworker.go:677-695 | For every worker in every run, an item is received after one issued later if and only if UpdatePod sent an item directly to the idle worker while this one was undelivered |
| `WorkerDelivery.PassedExactly` | pkg/mycore/podworker.go:677-695 | The items passed over are exactly those undelivered at such a step |
| `WorkerDelivery.WaitsWithItem` | pkg/mycore/podworker.go:756-760 | An idle worker has an undelivered item only if it was never let in, and only if it is a static pod's when no request changes the kind of a pod that waits |
| `WorkerDelivery.ReceivesInOrder` | pkg/mycore/podworker.go:1147-1156 | So the item numbers received for a non-static pod strictly increase over any such run |
| `WorkerDelivery.HandsOutLiveContext` | pkg/mycore/podworker.go:1161-1173 | The context handed out is the recorded one and not cancelled |
| `WorkerDelivery.CancelledHasSuccessor` | pkg/mycore/podworker.go:697-701 | While the current operation's context is cancelled, the undelivered slot is occupied |
| `WorkerDelivery.CancelledContinues` | pkg/mycore/podworker.go:1147-1156 | A cancelled worker goes on with exactly the undelivered item and stays marked as working |
| `PendingItems.StepItems` | pkg/mycore/podworker.go:677-702 | What each step does to the undelivered item and to the one sent or held of a worker that lives on: requests replace the former or, for an idle worker, become the latter; completeWork sends the former; only a completion takes away the latter from a worker that was let in |
| `PendingItems.NoSyncPendingExactly` | pkg/mycore/podworker.go:250-254 | In every run: once startedTerminating is set, a sync item is left if and only if the worker was let in, by an item that is not a static pod's, past an undelivered sync item, and since then no accepted request and no completion replaced that item before completeWork sent it, and no processing of it completed after that |
| `PendingItems.TerminatingMeansNoSync` | pkg/mycore/podworker.go:407-418 | In every run: while containers of a pod should be terminating, its worker is inside syncPod if and only if it was let in past such an item, which was sent to it and not completed; never in a stable run |
| `PendingItems.NeverSyncsAgain` | pkg/mycore/podworker.go:899-914 | However a run goes on after startedTerminating, the worker is inside syncPod exactly for such an item; never in a stable run |
| `PendingItems.ForwardOnly` | pkg/mycore/podworker.go:899-955 | In every run, the work types a worker processes at two points never go back, except exactly if the earlier one is not a sync and the later one is for such an item; never in a stable run |
| `PendingItems.ItemOrigin` | pkg/mycore/podworker.go:624-702 | Every item undelivered, sent or held was issued, with its number and period, at an earlier step, returned, by an accepted request or by completeSync or completeTerminating |
| `PendingItems.PeriodGiven` | pkg/mycore/podworker.go:903-914 | At every termination attempt of every run, the item given carries no grace period if and only if completeSync issued it, at the step returned; otherwise it carries the options of the accepted request that issued it, with the period recorded at that step |
| `StatusChanges.FirstSight` | pkg/mycore/podworker.go:499-544 | The first request for a pod records it as finished if and only if it presents a configured pod that has ended and the pod cache shows nothing running, and then makes no worker; otherwise the pod gets a worker, a channel and one item, which asks for termination if and only if the request does |
| `StatusChanges.RequestedPod` | pkg/mycore/podworker.go:480-497 | A configured pod comes before a runtime one; a runtime-only request speaks for a pod of that UID and name that is neither static nor being deleted nor ended and names no period |
| `StatusChanges.StepSets` | pkg/mycore/podworker.go:499-1123 | For each flag of a record (asked to terminate, started, deleted, evicted, terminated, finished, restart requested): it is set after a step if and only if it was set before or this is one of the steps listed for it, by guards on the request or on the worker's sync function |
| `StatusChanges.FlagsExactly` | pkg/mycore/podworker.go:499-1123 | In every run, a flag is set if and only if one of those steps happened since the pod was registered |
| `StatusChanges.CompletionStartsTermination` | pkg/mycore/podworker.go:992-1005 | At every completion of a terminal syncPod in every run, the pod is asked to terminate and its containers should be terminating at once |
| `StatusChanges.StartsExactly` | pkg/mycore/podworker.go:968-1005 | A step makes ShouldPodContainersBeTerminating true for a known pod if and only if its worker acknowledges the request or completes a terminal syncPod, or the pod is over when first seen |
| `StatusChanges.FinishesExactly` | pkg/mycore/podworker.go:1050-1123 | A step makes a pod finished if and only if its worker gives up an unstarted pod, completes syncTerminatedPod or a runtime pod's syncTerminatingPod, or the pod is over when first seen |
| `StatusChanges.ContextExactly` | pkg/mycore/podworker.go:697-701 | A pod's context is cancelled if and only if a request joins its termination while its worker is busy and is the first or changes a recorded period; it is replaced if and only if its worker asks for one and has none or a cancelled one; else it stays |
| `StatusChanges.AnswersExactly` | pkg/mycore/podworker.go:375-440 | The six answers per UID, for a known pod by the steps since its registration, which is returned, and for an unknown one by whether SyncKnownPods ever ran |
| `StatusChanges.ReportExactly` | pkg/mycore/podworker.go:1194-1206 | Each of the four states SyncKnownPods reports, by the answers of the queries |
| `StatusChanges.ReportsForward` | pkg/mycore/podworker.go:1194-1206 | The reported state never goes back while the pod stays known |
| `StatusChanges.ReportedIsIdle` | pkg/mycore/podworker.go:1194-1206 | A pod reported as terminated has no worker inside syncPod or syncTerminatingPod, and one reported as syncing none inside the other two |
| `StatusChanges.OrphansSkipCache` | pkg/mycore/podworker.go:873-895 | In every run, a worker with a runtime pod's item goes on to take its context without waiting for the pod cache |
| `StatusChanges.EndsInOrder` | pkg/mycore/podworker.go:1037-1123 | In every run, no ending meets a missing status or a closed channel, and each one meets the state that its log text takes for granted |
| `WorkerQueries.AnswersStand` | pkg/mycore/podworker.go:407-440 | Each Should* answer, once true, stays true until an UpdatePod call registers the UID anew; CouldHaveRunningContainers, once false, stays false |
| `WorkerQueries.SyncKnownForgetsExactly` | pkg/mycore/podworker.go:1180-1239 | A pass, in whatever order the map yields its keys, forgets exactly the finished pods that are undesired or asked to restart, and changes nothing else |
| `StaticAdmission.UnnamedExactly` | pkg/mycore/podworker.go:740-745 | A live worker is marked as let in without a name if and only if at an earlier step allowPodStart let it in on an item that is not a static pod's |
| `StaticAdmission.HoldsExactly` | pkg/mycore/podworker.go:756-798 | In every run, the pod of a live worker that was let in is the recorded holder of its name if and only if the worker was never let in on an item that is not a static pod's |
| `StaticAdmission.TwoInChargeCause` | pkg/mycore/podworker.go:740-745 | In every run, of two static pods of one name that are both let in and unfinished, one was let in on an item that is not a static pod's |
| `StaticAdmission.OneInCharge` | pkg/mycore/podworker.go:767-798 | So a static pod let in and unfinished holds its name, and is the only such pod of that name, exactly as those two say; in a stable run it always does and is |
| `StaticAdmission.HolderIsInCharge` | pkg/mycore/podworker.go:1064-1066 | In every run, the recorded holder of a name is a known, unfinished pod of that name with a live worker that was let in; in a stable run also a static one |
| `StaticAdmission.MirrorAnswerExactly` | pkg/mycore/podworker.go:442-458 | In every run, the answer by full name is true if and only if some live worker that took the name has a pod that is terminating and not terminated |
| `StaticAdmission.AdmitsExactly` | pkg/mycore/podworker.go:767-798 | The loop admits a UID exactly if it holds the name, or the name is free and no eligible UID precedes it |
| `StaticAdmission.StartsExactlyInTurn` | pkg/mycore/podworker.go:740-762 | allowPodStart answers never if and only if the pod is static and unknown or asked to terminate, and start if and only if it is not static or may start by the admission rule; told to wait, it stops working and keeps all else |
| `StaticAdmission.NoOvertaking` | pkg/mycore/podworker.go:777-789 | While an eligible UID waits, none queued behind it may start |
| `StaticAdmission.FirstComeFirstServed` | pkg/mycore/podworker.go:653-657 | In every run, as long as a UID waits in line, no UID queued behind it takes the name |
| `StaticAdmission.StaysInQueue` | pkg/mycore/podworker.go:773-797 | A UID that waits in line is on its waiting list in every state of every run |
| `StaticAdmission.JamsExactly` | pkg/mycore/podworker.go:767-798 | In every run, with the name free and a pod in line, somebody can start if and only if the first eligible UID of the queue is itself in line for that name |
| `StaticAdmission.JamCause` | pkg/mycore/podworker.go:653-657 | In that situation somebody can start if and only if the request that registered the first eligible UID, at the step returned, names it as a static pod of that name, and its worker was not let in since on an item that is not a static pod's |
| `StaticAdmission.QueueNeverJams` | pkg/mycore/podworker.go:767-798 | So no queue jams in a stable run in which no UID is registered again under another name or kind than it is still queued under |
| `KillRequests.AdmitEffects` | pkg/mycore/podworker.go:581-634 | What becomes of a request's grace period, completion channel and status function, and exactly when it cancels the sync: dropped, answered at once, or joined to the termination under way |
| `KillRequests.RequestRecordedExactly` | pkg/mycore/podworker.go:538-579 | Exactly which requests set terminating, deleted, evicted and restart-requested; an eviction that comes with or after another reason to terminate is not recorded |
| `KillRequests.FunctionsRecorded` | pkg/mycore/podworker.go:594-601 | From its registration on, a pod that is not terminated records exactly the status functions of the accepted requests, in order |
| `KillRequests.LatestStatusFunctionWins` | pkg/mycore/podworker.go:968-986 | At every termination attempt of every run, the status function given is that of the latest accepted kill since the pod was registered that brought one |
| `KillRequests.GraceIsRecorded` | pkg/mycore/podworker.go:603-622 | While a pod stays known, its period is the result of exactly the requests accepted meanwhile, in order |
| `KillRequests.PeriodSinceRegistration` | pkg/mycore/podworker.go:603-622 | In every run, the period is 0 until a request is accepted, then the first request's, and after that the least of it and all values named since, as long as none is 0 |
| `KillRequests.GraceNeverRises` | pkg/mycore/podworker.go:603-622 | Once recorded, the period never rises over a run in which nobody supplies a zero |
| `KillRequests.GraceCancellationsBounded` | pkg/mycore/podworker.go:697-701 | In such a run, the updates that cancel a sync of a pod already asked to terminate number at most the seconds the period loses |
| `CompletionChannels.RunChannelsFit` | pkg/mycore/podworker.go:581-634 | In every state, closed channels were closed once, and awaited ones are open and await one pod at one place |
| `CompletionChannels.NeverClosedTwice` | pkg/mycore/podworker.go:1025-1035 | With a fresh channel per call, no completion channel is ever closed twice |
| `CompletionChannels.TeardownClosesAll` | pkg/mycore/podworker.go:1019-1043 | A successful teardown closes every channel awaiting it exactly once and leaves none behind |
| `CompletionChannels.NothingJoinsAfterTermination` | pkg/mycore/podworker.go:274-278 | No step adds a channel to the list of a terminated pod |
| `CompletionChannels.ClosedExactly` | pkg/mycore/podworker.go:38-44 | The promise of the comment, exactly: in every run with fresh channels, a channel handed in is closed at a later point if and only if its request was answered at once, or it joined the termination and the first step since then that ended the pod was a regular teardown |
| `CompletionChannels.LeftOpenExactly` | pkg/mycore/podworker.go:1050-1123 | Of the steps that make CouldHaveRunningContainers false, exactly the unstarted and the runtime-pod ending leave channels on the pod's list |
| `Surprises.StaticPodsServedOutOfOrder` | pkg/mycore/podworker.go:756-760 | A reachable state in which a started static pod has received item 3 with item 2 still undelivered |
| `Surprises.SyncPendingAfterRuntimeKill` | pkg/mycore/podworker.go:484-491 | A reachable state with a sync item queued after startedTerminating, when a runtime kill hits a waiting static pod |
| `Surprises.SyncsAfterTerminating` | pkg/mycore/podworker.go:407-413 | Two states of one run: the worker is inside syncTerminatingPod, and later inside syncPod with a live context while the pod's containers should be terminating |
| `Surprises.TwoInCharge` | pkg/mycore/podworker.go:740-745 | A reachable state with two static pods of one name let in and unfinished, after a runtime kill of the one that waited |
| `Surprises.CompletionLeftOpen` | pkg/mycore/podworker.go:40-44 | A reachable state with an accepted channel open although CouldHaveRunningContainers is false, contrary to the comment |
| `Surprises.LateChannelDropped` | pkg/mycore/podworker.go:546-549 | From that state, a kill with a new channel for the finished pod changes nothing and leaves the channel open |
| `Surprises.QueueJams` | pkg/mycore/podworker.go:773-797 | A reachable state in which a name is free, a pod is in line for it, and nobody in line is admitted |
| `Surprises.SyncCompletesWhileTerminating` | pkg/mycore/podworker.go:1001-1003 | The branch of completeSync that logs a programmer error is reached by a plain kill |
| `Surprises.TerminatesWithoutPeriod` | pkg/mycore/podworker.go:620-622 | From there, a reachable state in which a termination attempt is given no period although one is recorded, contrary to the comment |
| `PodWorkersImpl.PodWorkers.UpdatePod` | pkg/mycore/podworker.go:479-702 | Registers, ignores, closes, cancels and hands on the request exactly as the state function says; a pod seen for the first time is recorded as finished if and only if it has ended and the cache shows nothing running |
| `PodWorkersImpl.PodWorkers.UpdateKnownPod` | pkg/mycore/podworker.go:538-702 | The part of UpdatePod after the status is in place |
| `PodWorkersImpl.PodWorkers.BecomeTerminating` | pkg/mycore/podworker.go:558-579 | Which requests make a pod terminating, and what they record |
| `PodWorkersImpl.PodWorkers.ChooseWork` | pkg/mycore/podworker.go:581-640 | Work type, joined or closed channel, grace period and whether the current sync is cancelled |
| `PodWorkersImpl.PodWorkers.JoinTermination` | pkg/mycore/podworker.go:603-622 | Channel and status function are appended, the effective period is recorded, the first one as FirstPeriod says, and a change of a recorded one is reported |
| `PodWorkersImpl.PodWorkers.EnsureWorker` | pkg/mycore/podworker.go:642-675 | A pod without a channel gets one, and a static one joins the end of its waiting list |
| `PodWorkersImpl.PodWorkers.Dispatch` | pkg/mycore/podworker.go:677-702 | To an idle worker through the channel, else into the undelivered slot with the context cancelled on demand |
| `PodWorkersImpl.PodWorkers.AllowStaticPodStart` | pkg/mycore/podworker.go:767-798 | The loop trims the list to the first eligible UID and admits exactly that one |
| `PodWorkersImpl.PodWorkers.AllowPodStart` | pkg/mycore/podworker.go:740-762 | Start, start later (no longer working) or never start |
| `PodWorkersImpl.PodWorkers.ContextForWorker` | pkg/mycore/podworker.go:1161-1173 | A new context exactly if there is none or it is cancelled |
| `PodWorkersImpl.PodWorkers.AcknowledgeTerminating` | pkg/mycore/podworker.go:968-986 | Sets startedTerminating for a terminating pod and returns the last status function |
| `PodWorkersImpl.PodWorkers.CompleteSync` | pkg/mycore/podworker.go:992-1013 | The pod becomes terminating and started, and terminating work is parked |
| `PodWorkersImpl.PodWorkers.CompleteTerminating` | pkg/mycore/podworker.go:1019-1043 | Closes all awaiting channels in a loop, empties both lists, parks terminated work |
| `PodWorkersImpl.PodWorkers.CompleteTerminatingRuntimePod` | pkg/mycore/podworker.go:1050-1070 | Finishes an orphaned pod and cleans up its channel |
| `PodWorkersImpl.PodWorkers.CompleteTerminated` | pkg/mycore/podworker.go:1074-1096 | Finishes a pod after its cleanup |
| `PodWorkersImpl.PodWorkers.CompleteUnstartedTerminated` | pkg/mycore/podworker.go:1100-1123 | Finishes a pod that never started |
| `PodWorkersImpl.PodWorkers.CompleteWorkQueueNext` | pkg/mycore/podworker.go:1147-1156 | Sends the undelivered item, else stops working |
| `PodWorkersImpl.PodWorkers.RemoveTerminatedWorker` | pkg/mycore/podworker.go:1215-1239 | Forgets a finished pod and gives up its name |
| `PodWorkersImpl.PodWorkers.CleanupPodUpdates` | pkg/mycore/podworker.go:1245-1251 | Closes the channel and drops both slots |
| `PodWorkersImpl.PodWorkers.SyncKnownPods` | pkg/mycore/podworker.go:1180-1209 | Visits every known UID once and reports what each was when the pass began: syncing, terminating, terminated, or terminated and to be recreated, by its flags |
| `RuntimeStatus.PodStatus.IsPodStatusCacheTerminal` | pkg/mycore/podworker.go:460-474 | The counting loops answer true exactly if no container runs and no sandbox is ready |
| `RuntimeStatus.CacheTerminalExactly` | pkg/mycore/podworker.go:460-474 | After any sequence of reports the cache is terminal if and only if the pod has one container, that container has exited, and the last report was an exit |
| `RuntimeStatus.PodStatus.SetPodStatus` | pkg/mycore/status.go:12-42 | One record in the given state for each container of the spec, in order |
| `RuntimeStatus.PodStatus.SetPodCompleted` | pkg/mycore/status.go:45-74 | One record exited with 0 for each container; the sandbox is not ready |
| `RuntimeStatus.PodStatus.SetPodTerminated` | pkg/mycore/status.go:77-107 | One record exited with 0 for each container; the sandbox stays ready |
| `RuntimeStatus.PodStatus.SetContainerRunning` | pkg/mycore/status.go:110-123 | In place: every record of that name runs, all else but the sandboxes is untouched |
| `RuntimeStatus.PodStatus.SetContainerExit` | pkg/mycore/status.go:126-178 | In place: every record of that name has exited with the code, and the sandboxes are ready unless the pod has exactly one container |
| `RuntimeStatus.LastReportCounts` | pkg/mycore/status.go:110-178 | Whatever is reported, a container's record shows its own last report |
| `RuntimeStatus.FinishedPods` | pkg/mycore/status.go:45-107 | A completed pod counts as stopped by its runtime status, a terminated one never does |
| `ContainerStatuses.OldStatuses` | pkg/mycore/podfn.go:161-165 | The map of old statuses; of two of one name the later wins |
| `ContainerStatuses.SetDefaults` | pkg/mycore/podfn.go:174-191 | First loop: waiting with history, or the terminated old status |
| `ContainerStatuses.MarkVanished` | pkg/mycore/podfn.go:193-257 | Second loop: containers that ran and have no record are marked as ended |
| `ContainerStatuses.ReadRecords` | pkg/mycore/podfn.go:265-287 | Third loop: the newest record gives the status, the second newest its last state |
| `ContainerStatuses.MarkFailedStarts` | pkg/mycore/podfn.go:289-324 | Fourth loop: containers that failed to start wait, keeping a termination as their last state |
| `ContainerStatuses.ConvertToAPIContainerStatuses` | pkg/mycore/podfn.go:105-338 | Exactly one status, the one the four passes give, for every container name of the spec, ordered by name or, for init containers, as in the spec |
| `ContainerStatuses.NewestComesFirst` | pkg/mycore/podfn.go:259-263 | After sorting, the first record of a container is as young as any of its records |
| `ContainerStatuses.NewestRecordDecides` | pkg/mycore/podfn.go:265-324 | A recorded container shows its newest record, with the second newest as its last state, or waits with the newest termination as its last state |
| `ContainerStatuses.ExitNeverLost` | pkg/mycore/podfn.go:259-324 | If the newest record has exited, its termination is in the state or the last state whatever pass ran after |
| `ContainerStatuses.VanishedWaitsExactly` | pkg/mycore/podfn.go:193-257 | A container without a record counts as waiting if and only if it never ran |
| `ContainerStatuses.VanishedRestarts` | pkg/mycore/podfn.go:193-257 | Its restart count, an int32, rises by one exactly if it was running with no recorded end in a pod that is not being deleted |
| `ContainerStatuses.RanBeforeKeptExactly` | pkg/mycore/podfn.go:265-324 | When the new status of a container shows that it ran, in terms of its two newest records and a failed start |
| `ContainerStatuses.GeneratedShows` | pkg/mycore/podfn.go:174-324 | The four passes together show a container as running, as ended with a code and waiting for its next start or not, or as waiting, exactly as its two newest records, else its old status, and a failed start say |
| `ContainerStatuses.HeldBackExactly` | pkg/mycore/podfn.go:289-311 | A failed start makes a container wait if and only if its pod is not being deleted and its first record, if any, neither runs nor has exited so that policy or a succeeded init container rules out a restart |
| `ContainerStatuses.LaterStatusWins` | pkg/mycore/podfn.go:161-165 | Of several old statuses of one name the last is used |
| `ContainerStatuses.RecordsOfExactly` | pkg/mycore/podfn.go:265-287 | The records read for a container are exactly its own, each as often as it occurs |
| `ContainerStatuses.RestartCountExactly` | pkg/mycore/podfn.go:105-257 | The restart count is the newest record's as an int32; one more than the old one if the container was running and its record is unknown or gone; else the old one, or 0 |
| `ContainerStatuses.LostIsKilled` | pkg/mycore/podfn.go:133-240 | A running container whose newest record is unknown, or whose records are gone, shows exit code 137 as its end |
| `ContainerStatuses.WaitingReasonExactly` | pkg/mycore/podfn.go:174-324 | Whether a container waits and the reason it shows: the failed start's, none for a created or unknown record, PodInitializing or ContainerCreating for a container without a record whose old status is not an end |
| `PodPhases.CountInitContainers` | pkg/mycore/podfn.go:460-487 | The two counters are the numbers of pending and failed init containers |
| `PodPhases.CountContainers` | pkg/mycore/podfn.go:489-518 | The four counters partition the containers; successes are among the stopped |
| `PodPhases.GetPhase` | pkg/mycore/podfn.go:459-558 | The counting code computes the phase defined by quantifiers over containers |
| `PodPhases.SucceededExactly` | pkg/mycore/podfn.go:532-551 | Succeeded if and only if there are containers, all of them stopped with 0, restarts are not always wanted and no init container stands in the way |
| `PodPhases.OrderIrrelevant` | pkg/mycore/podfn.go:459-558 | The phase does not change when containers or distinctly named statuses are permuted |
| `StatusGeneration.GenerateAPIPodStatus` | pkg/mycore/podfn.go:367-417 | Statuses as the passes give them, and a phase that is the API's if terminal, else the computed one if terminal, else the stored one if terminal, else the computed one |
| `StatusGeneration.TerminalAbsorbs` | pkg/mycore/podfn.go:382-417 | Over any sequence of calls with results stored back, a terminal result is followed by terminal results only |
| `StatusGeneration.OwnPhaseExactly` | pkg/mycore/podfn.go:367-393 | The phase computed from the generated statuses is the one given, by quantifiers over containers, by the two newest records of each container, the stored statuses or, if there are none, the API's, failed starts and policy |
| `StatusGeneration.PhaseExactly` | pkg/mycore/podfn.go:367-417 | The phase of the result is the API's if terminal, else the old one if that is terminal and the one just described is not, else the one just described |
| `StatusGeneration.RestartKeepsRunning` | pkg/mycore/podfn.go:371-374 | With nothing stored, a pod whose vanished init containers the API shows to have succeeded and one of whose containers runs, none waiting, is Running |
| `StatusGeneration.VanishedInitWaitsExactly` | pkg/mycore/podfn.go:193-257 | An init container without a record counts as waiting if and only if the stored status, or without one the API's, does not show that it ran |
| `StatusGeneration.TerminalFlipsExactly` | pkg/mycore/podfn.go:382-417 | A stored terminal phase gives way to the other one if and only if the API shows the other, or shows none and that phase is the other |
| `StatusGeneration.FindsGenerated` | pkg/mycore/podfn.go:376-379 | getPhase looks each container up to its own generated status |
| `StatusGeneration.VanishedClass` | pkg/mycore/podfn.go:193-257 | In the phase computation a vanished container is never unknown, and waiting if and only if the stored status, or without one the API's, does not show that it ran |
| `StatusGeneration.VanishedPodPendingExactly` | pkg/mycore/podfn.go:193-257 | A pod without init containers and without records becomes Pending if and only if some container never ran |
| `StatusGeneration.RanIsKeptExactly` | pkg/mycore/podfn.go:265-324 | A call forgets that a container ran if and only if it has records of it and neither of the two newest shows its end nor the newest an undisturbed run |
| `StatusGeneration.NeverDraggedBack` | pkg/mycore/podfn.go:193-257 | Over any history of calls, a container that ran and that no call forgets is not counted as waiting whenever its records vanish |
| `StatusGeneration.RecordedPhase` | pkg/mycore/podfn.go:105-158 | With one running or exited record for each container, the phase is a function of running, clean exits and policy |
| `StatusGeneration.PhaseAfterReports` | pkg/mycore/podfn.go:367-393 | From the start of a pod and any sequence of reports: Running until all have exited; then Succeeded if and only if restarts are not always wanted and all exits are clean, Failed if and only if restarts are never wanted and one is not |
| `StatusGeneration.CompletionErasesFailure` | pkg/mycore/status.go:45-74 | Marking a pod completed makes it Succeeded whatever its containers exited with and whatever is stored |
| `StatusGeneration.CleanExactly` | pkg/mycore/podfn.go:127-135 | Codes are cut to int32: without restarts exactly the multiples of 2^32 are clean |

## Left out

- WorkerSystem: managePodLoop is not a method with an endless loop; its sections are steps of a state machine, because other goroutines act between any two of them. Its local `lastSyncTime` is not modelled, since cached statuses enter only as "arrived" or "failed".
- PodWorkersImpl.PodWorkers: a status record is a value that is stored back into the map, where the source changes it through a pointer while the lock is held; nobody else can see the difference. The caller's KillPodOptions, which UpdatePod overwrites, are copied here.
- StaticAdmission.QueueNeverJams: requires a stable run in which no UID is registered again under another name or kind than it is still queued under; JamCause gives the exact condition.
- CompletionChannels.ClosedExactly: assumes that each request brings a channel of its own, since the source does not say what two requests with one channel would mean.
- RuntimeStatus.PodStatus: holds its records in arrays of values; pointers to one record shared between two status objects are not modelled.
- ContainerStatuses.ConvertToAPIContainerStatuses: takes the sorted copy of the records as an input. The theorems require it to be a newest-first permutation, as sort.Sort gives one, with records of equal age in any order.
- StatusGeneration.IsHistory: assumes that the status manager returns the last status stored; its own refusal of illegal transitions is not modelled.
- StatusGeneration.VanishedPodPendingExactly, PhaseAfterReports: are stated for pods without init containers; the latter for distinct container names, as Kubernetes requires.
- Retries and delays: workQueue timing, jitter and backoff are left out, so a retry is an UpdatePod call at any later time; StartTime and latency metrics are left out.
- Times are only set or unset, except creation times, which are ordered.
- Panics caught by HandleCrash, workerChannelFn, insertPodCache and OnPreAdd are not part of this model; a failed wait for the pod cache is.
- Runtime-only pods enter through their conversion to an API pod; their containers are not modelled. Mirror pods are passed through by the source and left out.
- The reason cache is an arbitrary map from containers to reasons; the external cache behind it is not part of this model.
- Reason and message texts of the pod, container messages, images and identifiers, conditions, probes and pod IPs are left out of status generation.
- Commands, certificates, API clients, event wiring and start-up are left out; they appear as arbitrary callers.
