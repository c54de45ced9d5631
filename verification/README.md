# Verified model of the inference control plane

The service moves persisted operations step by step under leases, publishes model routes through a
shared gateway, and gives managed GPUs back once their runtime is gone. This project models the parts
of it where many workers, crashes and retries meet, and proves what holds over every run.

The pieces, by file:

- `OperationSteps.dfy`: the path of every operation kind, the transition validator, and runs of it.
- `RunnerProtocol.dfy`: the operation runner as a protocol. Any number of workers load one operation
  under leases, call providers and the store, advance, retry, crash, or go on after losing their lease.
  A call may fail, and a failed call may still have taken effect. A move its mover may not make changes
  nothing, so a run is any sequence of moves.
- `RunnerSafety.dfy`, `QuotaSafety.dfy`, `QuotaConservation.dfy`, `ReleaseSafety.dfy`, `SealSafety.dfy`,
  `ScopeSafety.dfy`: what every run keeps. One inductive invariant ties each logged call to the completed
  steps and the knowledge it rests on; the quota modules add that no quota is presumed, and how far none is
  held twice or left behind; the seal module says who chose the seal that a release report carries.
- `RunnerWitness.dfy`, `QuotaExactness.dfy`, `SealExactness.dfy`: runs the protocol does have, from a freshly
  accepted operation on, and with them the exact conditions: quota is conserved, a report proves its own
  absence, and a seal is fixed on every run if and only if something that can be checked at acceptance holds.
- `Runner.dfy`: the runner itself, one method for each step and for `Execute`, as one worker sees it.
  Every call carries the obligation to be legal, and every result the obligation to have learned what
  its step must establish. `RunnerRefinement.dfy` puts such an execution among arbitrary moves of others
  and proves it a run of the protocol, so the theorems over runs are theorems about the runner.
- `ReleaseProof.dfy`, `ScopeStore.dfy`: the release evidence, and the store behind the recorded Pods.
- `RateLimit.dfy`, `Publisher.dfy`: the shared rate-limit plugin, its ledger of committed updates, and
  the publisher's calls against an API server on which other publishers act between any two of them.
- `FencedDelete.dfy`, `PodGate.dfy`, `WorkerReadiness.dfy`: deletion, absence and readiness of runtimes;
  `ReleaseGate.dfy` joins the absence check to the reported release.
- `ProbeCache.dfy`, `OwnershipWalk.dfy`, `LogReader.dfy`: the diagnostics side.
- `Demand.dfy`: topology counts, normalised resources and their aggregate.
- `Text.dfy`, `Sorting.dfy`, `Sets.dfy`: trimming, blanks and the byte order of strings; sorting by a string
  key; sizes of finite sets.

What is assumed of the surroundings: PostgreSQL writes guarded by lease, operation, phase and step are
atomic; the Kubernetes API server gives every object a UID that is never reused, applies conditional
writes atomically and answers reads from one state; the quota authority keeps its books under reservation
ids, grants a reservation under the identity it was requested for and under an id that no row of another
operation has, and confirms only what it holds; while an operation runs, the books of its service change
only by the calls of that operation's workers. A Pod never changes its name. Name-based UUIDs (section 4.3
of RFC 4122), SHA-256 digests and JSON are represented by the values they are computed from. Quantity
parsing and printing is a codec of which only the laws in `Demand.Lawful` are used, and a codec with these
laws is exhibited. Clocks, replies, losses and the moves of others are parameters, so every theorem covers
all of them.

## Where the code falls short of its purpose

Each of these has a lemma at a failing input and one with the exact condition.

- A delete that cancels a start, restart or update before that released the earlier quota is shown that
  operation's placeholder, cancels it locally and succeeds, while the authority goes on holding the earlier
  reservation (`QuotaExactness.CancelledUpdateLeaks`, `QuotaExactness.CancellingDeleteLeaks`). A stop or
  delete leaves nothing behind on every run exactly when the reservation a load shows is all the authority
  holds for the service (`QuotaExactness.NoLeak`). A replacement never holds quota beside an earlier
  operation exactly when the one earlier reservation a load shows is all of it (`QuotaExactness.NoDouble`).
- The release scope is stored under the create operation and its seal is never renewed. After a stop, update
  or restart, a later delete reports the seal of that operation and not one of the absence it observed itself
  (`SealSafety.DeleteReportsSealOfStop`, `SealExactness.StopThenDelete`). Every report proves the absence that
  its own delete observed exactly when the scope was unsealed at acceptance
  (`SealExactness.ReportProvesOwnAbsence`).
- The scope is saved without checking the lease, so a worker that lost its lease after seeing the runtime
  absent can replace a saved seal (`SealExactness.SealIsReplaced`). The seal is fixed on every run exactly when
  the scope was sealed from the beginning (`SealExactness.SealFixedExactly`), and in any state in which lease
  holders know it, it changes exactly by such a save (`SealSafety.OnlyStaleSavesReplace`).
- The scope is read and written in two statements. A save whose row did not change in between loses nothing
  (`ScopeStore.ScopeRow.Save`); overlapping saves lose Pods or the seal (`ScopeStore.OverlapLosesPod`), and a
  write in between survives exactly when `ScopeStore.OverlappedSaveKeepsIff` says.
- A served model name with surrounding blanks is limited under its trimmed name and routed under the raw
  one, so its route escapes the limit (`Publisher.SpacedNameEscapes`, `Publisher.FirstPublishLimitsItsModel`).
- A leader-worker set whose worker count exceeds 32 bits can be reported ready with workers missing
  (`WorkerReadiness.ReadyWithoutWorker`, `WorkerReadiness.ReadyIsTrustedIff`).
- A log stream one byte short of the limit without a final newline is reported truncated although every
  line was emitted (`LogReader.FittingStreamIsCut`, `LogReader.FittingStreamTruncatedIff`).
- Deleting a binding whose incarnation is gone is refused for as long as another object has its name
  (`FencedDelete.ReplacedIsRefused`, `FencedDelete.RefusedOnlyWhenReplaced`).

Not among them: a publisher built without a route namespace would look for its route in the empty namespace
(`Publisher.WithdrawalSeesRoute`), but the service never builds one. It refuses to start without a namespace
and falls back to it for routes (cmd/ani-inference-service/main.go:219-222 and 291). And the executor applies
its Pod gate only where the runtime requests a GPU (`ReleaseGate.GateClosedIffGpu`), as a managed GPU does.

## Model

| member | source | states |
|---|---|---|
| OperationSteps.KindsAreSequenced | internal/biz/inference/operation.go:29-36 | Every kind's path has distinct steps ending in complete, withdraws before deleting, observes absence before replacing or releasing, and observes readiness before publishing. |
| OperationSteps.StepIndex | internal/biz/inference/operation.go:38-45 | The first position of a step on a path, or -1 exactly when it is not there. |
| OperationSteps.EdgeLength | internal/biz/inference/operation.go:56-109 | No accepted transition or retry goes back, and the only one that passes a step passes GPU resolution. |
| OperationSteps.TerminalAbsorbs | internal/biz/inference/operation.go:56-109 | Nothing follows a succeeded or failed state in any run. |
| OperationSteps.StepsNeverGoBack | internal/biz/inference/operation.go:56-109 | Over every run of accepted transitions and retries the step index never goes down. |
| OperationSteps.EarlierStepsRan | internal/biz/inference/operation.go:56-109 | Every step before the one reached was running at some point, except GPU resolution. |
| OperationSteps.SucceededRanEverything | internal/biz/inference/operation.go:29-109 | A succeeded operation ran every step of its kind's path in path order; only GPU resolution may be skipped. |
| OperationSteps.TransitionsBounded | internal/biz/inference/runner.go:719-739 | With r retries a run stores at most path length + r accepted transitions. |
| RunnerProtocol.MergePods | internal/data/postgres/operation_store.go:90-107 | The merged scope extends the stored one, holds all incoming Pods and nothing else, and keeps UIDs distinct. |
| RunnerSafety.RunKeepsInv | internal/biz/inference/runner.go:213-739 | Over every run: the row is on its path, lease holders see it as it is, and every logged call rests on completed steps. |
| RunnerSafety.StepKeepsInv | internal/biz/inference/runner.go:213-739 | Every single move, of a lease holder, a stale worker or the lease itself, keeps the invariant. |
| RunnerSafety.EveryCallJustified | internal/biz/inference/runner.go:255-699 | Each call of each run comes after every earlier step was completed and after its own worker's preparation. |
| RunnerSafety.HoldersCallInOrder | internal/biz/inference/runner.go:213-246 | Calls of lease holders never return to an earlier step. |
| RunnerSafety.DeletionAfterWithdrawal | internal/biz/inference/runner.go:495-533 | Runtime deletion is requested only after one worker had the withdrawal confirmed and then saved. |
| RunnerSafety.ReplacementAfterAbsence | internal/biz/inference/runner.go:463-470 | On a path that observes absence a runtime is applied only after one worker saw the runtime absent, in its only observation, and then saved that. |
| RunnerSafety.ExposureAfterReadiness | internal/biz/inference/runner.go:596-632 | A route is exposed only after runtime and model were observed ready together. |
| RunnerSafety.PastStepsWereDone | internal/biz/inference/runner.go:255-699 | Each step an operation is past was done by one worker with every call it is made of: intent, request, confirmation and save of a withdrawal or publication, the mark, check and save of a model, and so on. |
| QuotaSafety.ReserveOnlyWhenPermitted | internal/biz/inference/runner.go:266-327 | A worker requests a reservation only when its load showed an open record, its one and only lookup was of that record and permits it, and what it requests is open and was given to it. |
| QuotaSafety.PastQuotaMeansConfirmed | internal/biz/inference/runner.go:266-346 | Past the quota step of an operation with its own quota the authority holds a confirmed reservation of that identity. |
| QuotaSafety.PastQuotaMeansRecorded | internal/biz/inference/runner.go:302-345 | Past the quota step of an operation with its own quota its own row in the store is recorded as confirmed, on every run. |
| QuotaSafety.RunKeepsRecording | internal/biz/inference/runner.go:302-345 | Over every run a recorded confirmation stays recorded, and whoever holds the lease at a confirmed row knows of it. |
| QuotaSafety.RunKeepsBooks | internal/biz/inference/runner.go:750-755 | Over every run whatever is recorded or learned as confirmed is confirmed at the authority. |
| QuotaConservation.NoDoubleHold | internal/biz/inference/runner.go:396-420 | Where the earlier reservation a load shows is all the authority holds for the service, it never holds quota for an update or restart and for an earlier operation at once. |
| QuotaConservation.RunKeepsReplacing | internal/biz/inference/runner.go:266-420 | Over every run the earlier reservation is settled at the authority or still what every load shows, and quota is held for the replacement only after it was cleared. |
| QuotaConservation.HeldAfterRelease | internal/biz/inference/runner.go:396-420 | Whenever the authority holds quota for a replacement, the earlier reservation it was shown is settled. |
| QuotaConservation.ShownIsGone | internal/biz/inference/runner.go:634-697 | When a stop or delete with its own quota succeeds, the reservation it was shown is gone at the authority, or was a placeholder that a delete cancels locally. |
| QuotaConservation.SoleMeansNoLeak | internal/biz/inference/runner.go:634-697 | Where that reservation is all the authority holds for the service, a succeeded stop or delete leaves nothing held. |
| QuotaConservation.RunKeepsEnding | internal/biz/inference/runner.go:655-696 | Over every run of such an operation the shown reservation is gone or still what every load shows, released by nobody. |
| QuotaExactness.NoLeak | internal/data/postgres/inference.sql.go:428-436 | A stop or delete leaves nothing held on every run that succeeds if and only if the reservation a load selects is all the authority holds for the service at acceptance, and no placeholder to be cancelled. |
| QuotaExactness.NoDouble | internal/data/postgres/inference.sql.go:754-762 | No state of any run of an update or restart holds quota twice if and only if the earlier reservation a load selects is all the authority holds for the service at acceptance. |
| QuotaExactness.CancellingDeleteLeaks | internal/data/postgres/command_usecase.go:107-171 | A delete accepted right after a start, restart or update leaks exactly when the authority then holds anything for the service. |
| QuotaExactness.CancelledUpdateLeaks | internal/data/postgres/update_usecase.go:273-277 | The input: one confirmed reservation, an update, and a delete that cancels it. |
| QuotaExactness.CanSucceed | internal/biz/inference/runner.go:495-697 | Every accepted stop or delete has a run that succeeds, and it gives up only what it was shown. |
| QuotaExactness.CanReserve | internal/biz/inference/runner.go:266-420 | Every accepted update or restart has a run that comes to hold quota, having released only what it was shown. |
| QuotaExactness.SupplantingPath | internal/biz/inference/operation.go:29-36 | The path of updates and restarts gives up the previous reservation before it reserves. |
| ReleaseSafety.ReportAfterSeal | internal/biz/inference/runner.go:535-579 | A release is reported only after one worker of the operation saw the runtime absent, in its only observation, then saved that, and then saved a seal. |
| ReleaseSafety.ReportDurableFirst | internal/service/managed_gpu_release.go:46-71 | With a report store the sender saved the report with its evidence first, or found it saved. |
| ReleaseSafety.ReportAfterContext | internal/service/managed_gpu_release.go:36-45 | The sender first found the persisted refund context to name this very delete operation. |
| ReleaseSafety.ReportsIdentical | internal/service/managed_gpu_release.go:64-75 | All reports sent over any crashes and retries agree in all four fields. |
| ReleaseSafety.ReportNeverChanges | internal/data/postgres/managed_gpu.sql.go:443-456 | A persisted report, evidence included, is the same at every later state of every run. |
| ReleaseSafety.RunKeepsReleases | internal/service/managed_gpu_release.go:29-76 | Over every run, whatever the scope was at acceptance, only a sealable scope is sealed and every stored, loaded or sent report is the canonical one. |
| ReleaseSafety.PodsOnlyGrow | internal/data/postgres/operation_store.go:42-89 | No move forgets a recorded Pod or makes UIDs collide. |
| SealSafety.RunTraces | internal/biz/inference/runner.go:546-555 | Over every run a stored or loaded seal, and the seal of every saved report, is the one from acceptance or one that a worker of this operation chose after observing absence. |
| SealSafety.ReportSeal | internal/biz/inference/runner.go:546-555 | A saved report carries a seal chosen in this operation after observed absence if and only if the scope was unsealed at acceptance; otherwise it carries the old seal. |
| SealSafety.SuccessLeavesSeal | internal/biz/inference/runner.go:535-579 | An operation with an absence step that succeeded leaves the scope sealed. |
| SealSafety.DeleteReportsSealOfStop | internal/biz/inference/runner.go:206-211 | After a stop that succeeded, whatever a start did then, every report of a delete carries the seal of that stop. |
| SealExactness.ReportProvesOwnAbsence | internal/biz/inference/runner.go:546-555 | On every run every report of a managed delete proves an absence that this delete observed if and only if the scope was not sealed at acceptance. |
| SealExactness.UnsealedDeleteSucceeds | internal/biz/inference/runner.go:546-579 | A managed delete whose scope is unsealed has, for every seal that is not blank, a run on which it succeeds with the report of that seal and the recorded Pods. |
| SealExactness.StopThenDelete | internal/data/postgres/operation_store.go:290-303 | A managed stop can succeed with any seal, and a delete that then finds that scope has a run whose report does not prove its own absence. |
| SealExactness.SealFixedExactly | internal/data/postgres/operation_store.go:46-88 | The stored seal, once set, stays on every run if and only if it was set at acceptance. |
| SealExactness.SealIsReplaced | internal/data/postgres/operation_store.go:46-88 | From an unsealed acceptance, and for every two different seals, there is a run on which a worker that lost its lease replaces the seal saved by its successor. |
| SealSafety.OnlyStaleSavesReplace | internal/data/postgres/operation_store.go:46-88 | While holders know the seal, a set seal changes if and only if an effective save brings another one without the lease. |
| SealSafety.SealNeverChanges | internal/biz/inference/runner.go:546-555 | Over a run without stale saves the seal, once set, is the same at every later state. |
| ScopeSafety.SeenIsRecordedFirst | internal/biz/inference/runner.go:472-493 | A managed GPU operation moves past an observation only when every Pod that observation showed is recorded in the release scope. |
| ScopeSafety.RunKeepsScoped | internal/biz/inference/runner.go:472-579 | Over every run what a worker takes for recorded is recorded, and what it takes for seen is the logged observation. |
| ScopeSafety.EvidenceHoldsShown | internal/service/managed_gpu_release.go:56-63 | The evidence of every saved report holds exactly the Pods its worker was shown at one point, and so every Pod it was ever shown and every Pod recorded at acceptance. |
| ScopeSafety.RunKeepsCovered | internal/biz/inference/runner.go:636-650 | Over every run the Pods a worker has at hand include those recorded at acceptance and all it was shown, and are recorded. |
| ReleaseGate.ReportMeansVacated | internal/data/kubernetes/executor.go:590-610 | With absence reported by the executor for this service and the Pods its worker was shown, which include all recorded at acceptance, a release is reported only after a moment at which every bound name was vacant and, with a GPU requested, no live Pod of the service and no live recorded Pod was left. |
| ReleaseGate.GateClosedIffGpu | internal/data/kubernetes/executor.go:375-378 | For a managed service the executor reports absence only of a vacant cluster if and only if a GPU is requested. |
| ReleaseGate.UngatedSeesAbsence | internal/data/kubernetes/executor.go:375-378 | The input: one vacant bound name and a live Pod of the service, without the gate. |
| Runner.HandOverAccepted | internal/biz/inference/runner.go:231-245 | On every kind's path the hand-over of every step, and the claim before it, is accepted by the validator. |
| Runner.BehavedUntilCrash | internal/biz/inference/runner.go:213-246 | Every prefix of a worker's acts is as permitted as the whole, wherever a crash ends it. |
| Runner.Attempt.Ask | internal/biz/inference/runner.go:94-136 | One legal call: the worker learns exactly what the reply teaches, keeps everything else, and the call is the next act of its history. |
| Runner.Attempt.RunAdmission | internal/biz/inference/runner.go:257-264 | Hands over to the quota step only admitted, and does so whenever all answers are fine; without the provider nothing is called. |
| Runner.Attempt.Recover | internal/biz/inference/runner.go:287-300 | A pending reservation is replaced by the authority's record, kept on not-found, and refused on any other error or identity; it is confirmed exactly when the worker knows so. |
| Runner.Attempt.ConfirmReservation | internal/biz/inference/runner.go:312-338 | Reserves only when the reservation is not known, and returns it only with the confirmation learned; a confirmation that fails is recorded as reserved before the step gives up. |
| Runner.Attempt.ConfirmAndSave | internal/biz/inference/runner.go:312-345 | Succeeds only with the reservation confirmed and then recorded as confirmed, by a successful save in the history. |
| Runner.Attempt.RunReserveQuota | internal/biz/inference/runner.go:266-346 | Leaves the quota step only with the confirmation learned and recorded: an operation with its own quota either loaded a confirmed record or its history holds a successful save of one. Managed, unconfigured, confirmed and reserved records take the source's branches, and no call to the authority is left unrecorded. |
| Runner.Attempt.ResolveAndSave | internal/biz/inference/runner.go:380-393 | Saves only a resolved and valid plan, and succeeds only when it is saved. |
| Runner.Attempt.RunResolveGpu | internal/biz/inference/runner.go:348-394 | A requested GPU is left behind only with a valid topology and a plan found valid, or resolved and saved; a managed GPU resolves none, and then, or without a request, nothing is called. |
| Runner.Attempt.RunReleasePreviousQuota | internal/biz/inference/runner.go:396-420 | Hands over only when there is nothing to release or the loaded previous reservation was released and then recorded so; a release that fails is recorded as pending. |
| Runner.Attempt.RunApplyCr | internal/biz/inference/runner.go:422-429 | Hands over only with the CR applied. |
| Runner.Attempt.RunMaterializeModel | internal/biz/inference/runner.go:431-461 | Hands over only with the model marked, then observed ready, then saved, in this order. |
| Runner.Attempt.RunApplyRuntime | internal/biz/inference/runner.go:463-470 | Hands over only with the runtime applied. |
| Runner.Attempt.LookForReadiness | internal/biz/inference/runner.go:476-482 | Saves every observation; readiness is known only from a ready runtime with a known ready model. |
| Runner.Attempt.KeepPods | internal/biz/inference/runner.go:483-489 | Records exactly the Pods that were seen, keeping the known seal. |
| Runner.Attempt.RunObserveRuntime | internal/biz/inference/runner.go:472-493 | Hands over to publishing only with readiness observed and saved and, for a managed GPU, the Pods recorded; Pods that were seen are recorded, ready or not. |
| Runner.Attempt.WithdrawAndConfirm | internal/biz/inference/runner.go:499-516 | Saves the intent, then withdraws, then asks, and reports success only on a confirmed withdrawal. |
| Runner.Attempt.RunWithdrawPublication | internal/biz/inference/runner.go:495-524 | Hands over to deletion only with the withdrawal confirmed and saved. |
| Runner.Attempt.RunDeleteRuntime | internal/biz/inference/runner.go:526-533 | Hands over only when deletion was accepted. |
| Runner.Attempt.LookForAbsence | internal/biz/inference/runner.go:539-545 | Saves every observation; absence is known only from an absent one. |
| Runner.Attempt.SaveRelease | internal/biz/inference/runner.go:546-555 | Saves the seen Pods with the known seal; the first observed absence, and nothing else, is sealed with the current time. |
| Runner.Attempt.RunObserveAbsence | internal/biz/inference/runner.go:535-579 | Hands over, to the step the kind demands, only with absence observed and saved and, for a managed GPU, the Pods recorded and sealed: the worker then has the seal it was shown, or the current time if it was shown none. Recorded Pods are read where none were loaded. |
| Runner.OwnSealIsProvable | internal/biz/gpu/release.go:43-74 | With a clock that gives trimmed timestamps, identities and valid Pods, a seal chosen at the absence step makes valid evidence. |
| Runner.Attempt.RunDeleteCr | internal/biz/inference/runner.go:581-594 | Hands over only with the CR removed and then the model cleaned up. |
| Runner.Attempt.ExposeAndConfirm | internal/biz/inference/runner.go:600-615 | Saves the intent, then exposes, then asks, and reports success only on a confirmed publication. |
| Runner.Attempt.RunPublish | internal/biz/inference/runner.go:596-632 | Succeeds only with the publication confirmed, its endpoint known where it can be, and that saved. |
| Runner.Attempt.Prove | internal/service/managed_gpu_release.go:56-63 | Builds evidence exactly when the seal is there and the input is valid, for this operation, this seal and exactly the Pods at hand. |
| Runner.Attempt.CheckContext | internal/service/managed_gpu_release.go:36-45 | Goes on only with a create operation and a persisted context that names this operation. |
| Runner.Attempt.SendSaved | internal/service/managed_gpu_release.go:46-54 | Sends a report saved before exactly as it was saved; it goes on without one only when there is none. |
| Runner.Attempt.SendProof | internal/service/managed_gpu_release.go:64-75 | Makes the canonical report durable before sending it, and saves one only when none was found. |
| Runner.Attempt.ReleaseManagedGpu | internal/service/managed_gpu_release.go:29-76 | Succeeds only when a report was sent, and always when all answers are fine and the seal and Pods at hand prove the release. |
| Runner.Attempt.ReleaseReservation | internal/biz/inference/runner.go:662-696 | Cancels a placeholder of a delete by one local record, or releases at the authority; with quota configured success means that the release is recorded, and a release that fails is recorded as pending. |
| Runner.Attempt.RunReleaseQuota | internal/biz/inference/runner.go:634-697 | A managed GPU delete succeeds only with the report sent, over Pods read again where none were loaded, and always succeeds when all answers are fine and its seal proves the release; otherwise the source's branches. |
| Runner.Attempt.RunStep | internal/biz/inference/runner.go:255-699 | Every step's result is the next step of the kind with the step's facts learned; an unknown step is an error. |
| Runner.Attempt.Execute | internal/biz/inference/runner.go:213-246 | Success ends in an accepted hand-over to the next step, failure in a return to pending at the same step, from running exactly when the row was running or the worker was told that its claim won; fine answers lead to success. |
| RunnerRefinement.ExecutionIsRun | internal/biz/inference/runner.go:213-246 | Among any moves of others, an execution ends with the worker as it sees itself and the log showing exactly its calls in order. |
| RunnerRefinement.OwnActTakesEffect | internal/biz/inference/runner.go:701-739 | Each allowed and truthfully answered act is a move of the protocol with exactly the effect the worker sees, and a write reported as taken moved the row as stated. |
| RunnerRefinement.OwnActMoves | internal/data/postgres/inference.sql.go:14-41 | A claim or hand-over moves the row exactly when it is answered as taken, and exactly to where the worker said. |
| RunnerRefinement.LoadGivesWorker | internal/data/postgres/operation_store.go:254-395 | A load in any run gives the runner an active step of the path and the facts its records prove. |
| RunnerRefinement.ExecutionIsSafe | internal/biz/inference/runner.go:213-246 | A permitted and truthfully answered execution from a state of some run, or a part of it up to a crash, ends in a state of a run with the worker as it sees itself, every call justified and the hand-over it was told of done. |
| ReleaseProof.ValidatePods | internal/biz/gpu/release.go:56-71 | Accepts exactly complete Pod identities with distinct UIDs. |
| ReleaseProof.ValidateReleaseProofInput | internal/biz/gpu/release.go:43-74 | Accepts exactly the valid inputs. |
| Sorting.Sorted | internal/biz/gpu/release.go:80-82 | A permutation sorted by the key. |
| ReleaseProof.NewReleaseProof | internal/biz/gpu/release.go:76-92 | Evidence exactly for valid inputs, named after the delete operation, over the identities and the sorted Pods. |
| Sorting.SortedOrderUnique | internal/biz/gpu/release.go:76-92 | With a key that tells the elements apart there is only one sorted order. |
| ReleaseProof.PayloadIdentifiesInput | internal/biz/gpu/release.go:43-92 | Two valid inputs have equal payloads if and only if they agree in every identity and hold the same Pods in any order. |
| ScopeStore.MergeReleasePods | internal/data/postgres/operation_store.go:90-107 | The loop over both lists computes the non-destructive merge or detects a changed identity. |
| ScopeStore.ScopeRow.Save | internal/data/postgres/operation_store.go:46-88 | The row becomes the merge with what was read, whatever was written in between; if nothing was, no Pod is lost and the seal stays unless replaced. |
| ScopeStore.SequentialSaveKeeps | internal/data/postgres/operation_store.go:46-88 | A save that read the current row forgets no Pod and keeps the seal unless it brings another. |
| ScopeStore.OverlappedSaveKeepsIff | internal/data/postgres/operation_store.go:46-88 | A write made during a save survives if and only if the save brings its seal and its Pods. |
| ScopeStore.OverlapLosesPod | internal/data/postgres/operation_store.go:46-88 | Two overlapping saves of different Pods lose the first one and its seal. |
| RateLimit.UniqueStrings | internal/data/kubernetes/higress_rate_limit.go:344-355 | First occurrences of all values. |
| RateLimit.RemoveString | internal/data/kubernetes/higress_rate_limit.go:334-342 | All values but the unwanted one, each once. |
| RateLimit.RateLimitEntries | internal/data/kubernetes/higress_rate_limit.go:215-240 | Succeeds exactly when every entry is an object with a key that is not blank and a rate of at least one, with exactly their keys. |
| RateLimit.SetRateLimitOwners | internal/data/kubernetes/higress_rate_limit.go:274-294 | Every owner list is stored sorted and without duplicates. |
| RateLimit.StoredAlike | internal/data/kubernetes/higress_rate_limit.go:251-294 | A stored list is sorted, and two lists are stored alike if and only if they hold the same owners. |
| RateLimit.RemoveRateLimitEntry | internal/data/kubernetes/higress_rate_limit.go:296-305 | Removes exactly the entries of the model. |
| RateLimit.DropKey | internal/data/kubernetes/higress_rate_limit.go:296-305 | The remaining keys are all but the model. |
| RateLimit.EnsureLimits | internal/data/kubernetes/higress_rate_limit.go:54-70 | What an ensure writes is accepted again: the model has a key, a new one at the default rate of ten, every other entry is as it was, and a legal list stays legal. |
| RateLimit.CleanupLimits | internal/data/kubernetes/higress_rate_limit.go:104-139 | A cleanup takes the key of the model exactly when its owner was the last one, no route needs the key and it is not the only key; no other key changes. |
| RateLimit.EnsureKeepsSound | internal/data/kubernetes/higress_rate_limit.go:35-82 | An ensure protects its own pair and keeps every secured pair protected and every owned model limited. |
| RateLimit.CleanupKeepsSound | internal/data/kubernetes/higress_rate_limit.go:84-149 | A cleanup keeps every other secured pair protected. |
| RateLimit.SoundForever | internal/data/kubernetes/higress_rate_limit.go:35-149 | Over any commits every secured pair is limited and unmanaged or listed, and every owned model has a key. |
| RateLimit.EnsuredStaysProtected | internal/data/kubernetes/higress_rate_limit.go:35-149 | A route whose ensure took effect stays protected until its own cleanup, whatever others commit. |
| RateLimit.UnownedKeyKeptForever | internal/data/kubernetes/higress_rate_limit.go:54-63 | A key nobody owns is never removed, adopted or altered. |
| RateLimit.KeysNeverEmptied | internal/data/kubernetes/higress_rate_limit.go:119-132 | A nonempty key list never becomes empty. |
| RateLimit.OneModelPerOwner | internal/data/kubernetes/higress_rate_limit.go:104-139 | An owner that only ever publishes one model is listed under no other. |
| RateLimit.CleanupForgetsOwner | internal/data/kubernetes/higress_rate_limit.go:104-139 | After its committed cleanup such an owner is listed nowhere. |
| Publisher.RunKeepsSecured | internal/data/kubernetes/http_route_publisher.go:138-213 | Over any interleaving of publishers every existing route's trimmed model is secured. |
| Publisher.EveryRouteIsLimited | internal/data/kubernetes/http_route_publisher.go:138-213 | At every point of every run a route that selects a trimmed name has its rate-limit key. |
| Publisher.FirstPublishLimitsItsModel | internal/data/kubernetes/http_route_publisher.go:138-166 | A first publication limits the name its route selects if and only if that name is trimmed. |
| Publisher.SpacedNameEscapes | internal/data/kubernetes/http_route_publisher.go:138-166 | The input: a name with a leading blank is routed and not limited. |
| Publisher.WithdrawalSeesRoute | internal/data/kubernetes/http_route_publisher.go:350-355 | Withdrawal looks where the route was published if and only if a route namespace is configured, as the service always does. |
| Publisher.Cut | internal/data/kubernetes/higress_rate_limit.go:181-186 | Splits an owner id at its first slash. |
| Publisher.ModelRouteIs | internal/data/kubernetes/higress_rate_limit.go:181-213 | Whether another route needs a model can be told exactly for an owner id with two parts, and is so exactly when another route of the same namespace, not on its way out, selects that model. |
| Publisher.OthersKeepAll | internal/data/kubernetes/higress_rate_limit.go:35-149 | Actions of others leave an owner's secured pairs, listing and missing route as they are. |
| Publisher.CleanupUnlists | internal/data/kubernetes/higress_rate_limit.go:104-139 | A cleanup removes the owner from exactly the chosen model. |
| Publisher.CleanupIs | internal/data/kubernetes/higress_rate_limit.go:104-139 | A committed cleanup unlists the owner under one model; the key goes exactly when nobody else owned it, no other route of the namespace selects it and it is not the only key. |
| Publisher.ApiServer.AlwaysSecured | internal/data/kubernetes/http_route_publisher.go:138-213 | Whatever the calls and the others did, every route on the server is secured. |
| Publisher.ApiServer.PatchPlugin | internal/data/kubernetes/higress_rate_limit.go:71-79 | A patch commits one update of the version it read, or nothing on a conflict. |
| Publisher.ApiServer.EnsureRateLimit | internal/data/kubernetes/higress_rate_limit.go:35-82 | Among any writers and losses the call is one ensure or nothing, and success means the pair is secured. Undisturbed it succeeds exactly on a readable plugin with a model and an owner, and then adds just the key and the listing. |
| Publisher.ApiServer.PlanCleanup | internal/data/kubernetes/higress_rate_limit.go:114-136 | Computes the cleanup of one read, listing routes in between; undisturbed there is a plan exactly when one can be made, and it keeps the key of a last owner exactly when another route of the namespace selects the model. |
| Publisher.ApiServer.CleanupAttempt | internal/data/kubernetes/higress_rate_limit.go:94-147 | One round is one cleanup or nothing; a conflict leaves the owner's listing alone, and undisturbed there is none. |
| Publisher.ApiServer.CleanupRateLimit | internal/data/kubernetes/higress_rate_limit.go:89-149 | Among any writers and losses the call is one cleanup or nothing; an owner of one model is then listed nowhere. Undisturbed the key of a model whose last owner went is still there if and only if another live route of the namespace selects that model or it was the only key. |
| Publisher.ApiServer.Publish | internal/data/kubernetes/http_route_publisher.go:55-167 | Its own actions are a prefix of ensure then expose; success leaves the route with its pair secured. Undisturbed it succeeds exactly when the ensure can be made and the route is not on its way out, and sets just that route. |
| Publisher.ApiServer.Withdraw | internal/data/kubernetes/http_route_publisher.go:169-191 | Requests deletion at most once; success means the route is absent or going. Undisturbed it succeeds, and only this route is then going. |
| Publisher.ApiServer.ConfirmWithdrawn | internal/data/kubernetes/http_route_publisher.go:193-213 | Cleans up only without the route, and confirms only its absence. Undisturbed a route still there is reported and nothing done; without it the answer is that of the cleanup and the grant. |
| FencedDelete.SettledForever | internal/data/kubernetes/executor.go:1298-1339 | A bound incarnation that is gone or terminating stays so, whatever anybody does. |
| FencedDelete.ReplacedIsRefused | internal/data/kubernetes/executor.go:1325-1338 | The input: the bound object is removed and another of its name created. |
| FencedDelete.Client.Act | internal/data/kubernetes/executor.go:1313-1318 | A fenced delete settles the bound incarnation and leaves every object of another UID exactly as it is. |
| FencedDelete.RefusedOnlyWhenReplaced | internal/data/kubernetes/executor.go:1325-1338 | With the bound incarnation gone or going, an undisturbed delete is refused if and only if another object has its name. |
| FencedDelete.Client.RequestDelete | internal/data/kubernetes/executor.go:1313-1324 | The request acts only on the bound UID and version; done or not found means settled. |
| FencedDelete.Client.Delete | internal/data/kubernetes/executor.go:1300-1339 | Success means the bound incarnation is gone or terminating; undisturbed it succeeds exactly when nothing is there, the version matches or the bound object is going. |
| FencedDelete.Client.DeleteRuntime | internal/data/kubernetes/executor.go:566-588 | Only after withdrawal, only fenced deletes of bindings with the role runtime, endpoint or none, and success settles all of them; undisturbed it succeeds when there is one and each can be deleted. |
| PodGate.HoldsMeaning | internal/data/kubernetes/executor.go:368-446 | With truthful records the gate is held exactly by live Pods that are recorded, or the service's own and not its download Pod. |
| PodGate.IsOwnedMaterializer | internal/data/kubernetes/executor.go:451-473 | True exactly for the job-run download Pod of the generation with native resources only. |
| PodGate.ListedRemaining | internal/data/kubernetes/executor.go:395-427 | Of the listed Pods exactly those that hold the gate, and the UIDs of all that were listed. |
| PodGate.NamedRemaining | internal/data/kubernetes/executor.go:430-444 | A recorded Pod not listed holds the gate exactly when it is live under its recorded name and UID. |
| PodGate.PodsRemaining | internal/data/kubernetes/executor.go:375-446 | On any snapshot with unique UIDs and names: exactly the Pods that hold the gate, so empty if and only if there are none. |
| PodGate.ObserveDeletion | internal/data/kubernetes/executor.go:997-1037 | Stopped exactly when every name bound as runtime or endpoint is vacant; errors exactly on a failed read, an object that is not the bound one by tenant, service, generation and UID, an unknown kind or no binding. |
| PodGate.ObserveAbsence | internal/data/kubernetes/executor.go:594-610 | Absence is reported only when it holds, after withdrawal, and whenever it holds and nothing disturbs the reads. |
| WorkerReadiness.ServedSlots | internal/data/kubernetes/executor.go:962-995 | Exactly the slots with a running, ready, staying Pod, each once. |
| WorkerReadiness.Observe | internal/data/kubernetes/executor.go:903-933 | Pending exactly when the status is of another generation or a group is not updated; ready only with every group ready; and, with counts within 32 bits, ready exactly when the set is rolled out, every group is ready and every slot is served. |
| WorkerReadiness.ReadyMeansServed | internal/data/kubernetes/executor.go:903-933 | Within 32 bits ready means that every slot has its own serving Pod, however many duplicates there are. |
| WorkerReadiness.ReadyWithoutWorker | internal/data/kubernetes/renderer.go:162 | Beyond 32 bits there is a ready set with a slot unserved. |
| WorkerReadiness.ReadyIsTrustedIff | internal/data/kubernetes/executor.go:917-933 | Ready can be trusted for every status and list if and only if the counts fit into 32 bits. |
| ProbeCache.RunKeepsInv | internal/biz/diagnostics/probe.go:30-64 | Every interleaving keeps the bounds, the pairing of probes with scopes and the honesty of the cache. |
| ProbeCache.ProbesBounded | internal/biz/diagnostics/probe.go:30-64 | At most four probes, one per scope, active and cached scopes disjoint, and at most 1027 of both. |
| ProbeCache.BoundIsTight | internal/biz/diagnostics/probe.go:50-54 | Some run from the empty cache attains the bound of 1027. |
| ProbeCache.UnknownNeverCached | internal/biz/diagnostics/probe.go:59-61 | No unknown result is ever in the cache. |
| ProbeCache.CachedAnswerIsFresh | internal/biz/diagnostics/probe.go:31-36 | A cached answer is a finished probe of that very scope, unexpired when the caller read the clock. |
| ProbeCache.CachedForAMinute | internal/biz/diagnostics/probe.go:57-62 | A finished probe is answered from the cache exactly when it did not fail, its result is not unknown and less than sixty seconds have passed. |
| ProbeCache.Cache.Purge | internal/biz/diagnostics/probe.go:45-49 | Drops exactly the expired entries. |
| ProbeCache.Cache.Enter | internal/biz/diagnostics/probe.go:31-55 | The first locked section answers and changes the maps as one move of the machine. |
| ProbeCache.Cache.Leave | internal/biz/diagnostics/probe.go:57-62 | The second locked section records a known result and frees the scope as one move. |
| ProbeCache.Cache.Observe | internal/biz/diagnostics/probe.go:30-64 | A call is its two sections with anything in between, and returns the cached, refused or probed result. |
| OwnershipWalk.VerdictIsReachability | internal/data/kubernetes/diagnostics.go:85-129 | On every readable snapshot, cyclic or not, an object is owned if and only if a chain of at most eight edges leads to a bound one. An edge is a reference that says it controls, of a listed kind and API version, to an existing object with the referenced UID. |
| OwnershipWalk.PositiveHasChain | internal/data/kubernetes/diagnostics.go:85-129 | A positive verdict at any depth has a chain within the remaining depth. |
| OwnershipWalk.ChainGivesPositive | internal/data/kubernetes/diagnostics.go:85-129 | A chain within the remaining depth forces a positive verdict. |
| OwnershipWalk.Walk.Get | internal/data/kubernetes/diagnostics.go:104-119 | Remembers exactly what the snapshot says, not-found included, and reads nothing twice. |
| OwnershipWalk.Walk.BoundObject | internal/data/kubernetes/diagnostics.go:85-129 | With shared ancestors the verdict, errors included, is the one without, unless the request is cancelled; it terminates on every graph. |
| OwnershipWalk.OwnedPods | internal/data/kubernetes/diagnostics.go:55-84 | What is returned are the Pods of the list judged owned one by one without sharing, sorted by name; too long a list is refused, and without cancellation everything else that can be judged is returned. |
| OwnershipWalk.OwnedAreReachable | internal/data/kubernetes/diagnostics.go:55-84 | On a readable snapshot exactly the listed Pods that no label claims otherwise and a chain binds. |
| LogReader.LinesRoundTrip | internal/data/kubernetes/diagnostics.go:200-210 | Scanned lines hold no newline and put together again are the stream with its last line ended. |
| LogReader.NextLine | internal/data/kubernetes/diagnostics.go:201-209 | The next line and the rest, or an error when the line has 262144 bytes or more. |
| LogReader.StampedIs | internal/data/kubernetes/diagnostics.go:214-221 | A line is a stamp that parses, one blank and the message. |
| LogReader.ReadRuntimeLogs | internal/data/kubernetes/diagnostics.go:200-243 | A non-follow read without error is truncated if and only if stream or range exceed the limits, and emits exactly the lines in range whenever these and the stream fit; never more than the line limit, always a prefix. A following read ends at the first line past the range or with the stream. Cancellation and failed emits are heeded. |
| LogReader.FittingStreamTruncatedIff | internal/data/kubernetes/diagnostics.go:209-213 | A stream and range within the limits are emitted whole, and reported truncated if and only if the stream is one byte short of the limit and not ended. |
| LogReader.FittingStreamIsCut | internal/data/kubernetes/diagnostics.go:209-213 | The input: 1024 stamped lines of 2047 bytes, the last not ended, within any limit of 1024 lines or more; every read of it that does not fail emits them all and reports them truncated, and an undisturbed read does not fail. |
| Demand.UnitsArePods | internal/biz/gpu/gpu.go:116-138 | Pod count and aggregate units agree and never overflow 64 bits; only counts beyond 32 bits are refused by one alone. |
| Demand.TopologyFixesUnits | internal/biz/gpu/gpu.go:81-114 | A GPU request is accepted exactly when it is well formed for at least one device and between one and sixteen replicas, these are the aggregate's unit count, and its container is the one of the topology. |
| Demand.TallyIsLawful | internal/biz/resources/resources.go:109-122 | The assumed laws of quantities are consistent. |
| Demand.NormalizeName | internal/biz/resources/resources.go:64-98 | One name is accepted exactly under the source's conditions, with its effective request and limit. |
| Demand.DefaultsWhenExtended | internal/biz/resources/resources.go:64-98 | A missing request defaults to the limit exactly for extended names. |
| Demand.Normalize | internal/biz/resources/resources.go:31-107 | Succeeds exactly on acceptable specs, with the normalised spec. |
| Demand.NormalIsCanonical | internal/biz/resources/resources.go:88-106 | A normalised spec has canonical values, requests within limits, and extended requests equal to limits. |
| Demand.NormalIsFixed | internal/biz/resources/resources.go:31-107 | Normalising twice is normalising once. |
| Demand.ScaleValues | internal/biz/resources/aggregate.go:38-49 | Multiplies every value exactly, or fails when one product is not exact. |
| Demand.Aggregate | internal/biz/resources/aggregate.go:16-51 | Succeeds exactly when units, normalising and all products do, with the scaled normalised spec. |
| Demand.AggregateIsScaled | internal/biz/resources/aggregate.go:16-51 | Every amount is the unit count times the normalised one; requests stay within limits and extended resources equal. |
| Demand.AggregateIsFixed | internal/biz/resources/aggregate.go:16-51 | A successful aggregate is a fixed point of normalising. |

## Left out

- ReleaseSafety.PodsOnlyGrow: takes a scope save as one step; the store's two statements are modelled in `ScopeStore`, where overlapping saves do lose Pods.
- SealSafety.SealNeverChanges: holds for runs without stale saves and with atomic scope saves; the exact conditions are in `SealExactness.SealFixedExactly`, `OnlyStaleSavesReplace` and `ScopeStore.OverlappedSaveKeepsIff`.
- Demand.Normalize: visits the names in any order, since the sorted order decides only which error is reported.
- WorkerReadiness.Observe: starts from the listed Pods; label selection by the API server is not modelled.
- Publisher.ApiServer.Publish: does not model the backend grant, backend selection, ownership labels of routes or collisions of hashed route names; one owner id is one publication.
- QuotaConservation.NoDoubleHold: holds where the earlier reservation a load shows is all there is; `QuotaExactness.NoDouble` shows that this is needed.
- QuotaConservation.ShownIsGone: excepts a placeholder that a delete cancels locally; `QuotaExactness.NoLeak` says exactly when that leaves quota held.
- Requests that are still under way at the quota authority for an operation that a delete has cancelled.
- A provider call already in flight when its worker loses the lease takes effect when it is logged; a later effect at the provider is not modelled.
- Retry delays, leases in wall-clock time and the audit trail of transitions.
- The managed close protocol that finishes a refund outside the runner.
- The KServe executor, the runtime router, the materializer, object rendering and field-by-field apply.
- `ValidateSnapshot` and `ValidateExecution`: field checks that would only add easy members.
- gRPC servers, middleware, configuration, metrics, health texts, access keys and policy normalisation.
