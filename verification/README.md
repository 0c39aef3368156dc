# Plinth: a model of the reconciliation loop

This project models the part of Plinth that keeps running services in the state their
manifests ask for, and proves what every run of it guarantees and where it does not:

- the revision store, in its file and Postgres forms;
- the controller, with progressive rollout and automatic restore;
- the worker queue that feeds it;
- the Kubernetes adapter and the operator, which do the same work through custom resources;
- manifest validation and the YAML subset manifests are written in.

`dafny verify dfyconfig.toml` checks everything.

## How it is built

| file | what it holds |
|---|---|
| `Text.dfy`, `Manifest.dfy`, `Yaml.dfy` | strings, manifests, validation, the YAML subset |
| `YamlWriter.dfy` | a writer of manifests, and the round trip through the parser |
| `Backend.dfy` | backends, replica arithmetic, one rollout call |
| `Store.dfy`, `Postgres.dfy` | the two stores and their agreement |
| `ControlLoop.dfy` | the step machine: one service, its record, its resources, the job in flight |
| `Safety.dfy` | what holds in every run of the machine |
| `Phases.dfy` | what a settled phase means in every run |
| `Locked.dfy`, `Scale.dfy`, `Guard.dfy` | what holds in locked runs only |
| `Outcomes.dfy` | what one reconcile and each operation comes to, answer by answer |
| `Convergence.dfy` | what reconciling against a healthy, or an always failing, backend leads to |
| `Witnesses.dfy` | concrete runs in which an intended property fails |
| `Controller.dfy` | the controller as an object; each operation is proved to be a job of the machine |
| `Worker.dfy` | the queue under every interleaving of threads |
| `Kubernetes.dfy` | the adapter over a cluster of labelled objects |
| `Operator.dfy`, `Attribution.dfy`, `Finalizers.dfy` | the operator over versioned resources, its status and its finalizer |
| `OperatorRuns.dfy`, `OperatorProcess.dfy` | concrete runs of the operator, and its retry loop |

A reconcile is not one step. It reads the record, updates it, calls the backend once for each
rollout stage, updates the record again, and may restore an older revision and update once
more. The machine of `ControlLoop.dfy` makes each of these a step, and the process may die
between any two. What the backend answers is an argument of the step, so a theorem over runs
is a theorem over every backend. Each Ensure is logged with its revision, step, replica count
and answer; most theorems are statements about that log.

There are two families of runs. In **locked** runs every store write is made under the
service's lock. In **all** runs `ApplyDesired`, which takes no lock and is what the server
uses when a worker runs (`internal/api/server.go:171`), may fall between any two steps. The
`states` column says which family a theorem is about. Crashes are allowed in both unless the
row says otherwise.

The operator has a machine of its own: replicas, each at some point of a pass over a snapshot
of any age, and an API server that refuses a write made from an old version. Users may edit,
delete and re-create the resource between any two steps. `OperatorProcess.Reconcile`, the
retry loop written out, is proved to be a pass of that machine.

## What turned out not to hold

The code is modelled as it is. Where an intended property is false, a lemma shows a run that
breaks it, and another says what does hold.

- **The error-rate threshold can be worn down.** `docs/DESIGN_DOC.md:142` says a rollout aborts
  when its policy is violated. A stage's step is recorded even when the stage fails its gate,
  so the next reconcile starts beyond it. While nothing has converged yet there is nothing to
  restore, and as many reconciles as there are steps, plus one, end in `ready`, however far
  over the threshold the rate always is (`OverThresholdRolloutStillConverges`). The Fake backend
  shows it, with an image that says `error` and a threshold below one half
  (`FakeDefeatsTheGuard`). The exact guarantee is `FirstConvergenceExactly`: when a revision
  first converges, every step passed if and only if no call of it waited or failed. That is
  for runs without crashes; a crash can make one step both pass and stop (`PassedAndStopped`),
  and with crashes `ConvergedMeansEveryStepAccounted` holds.
- **An accepted revision can be lost.** When `ApplyDesired` lands during a failing reconcile,
  the restore overwrites the new revision untried (`AcceptedRevisionOverwritten`). In locked
  runs this cannot happen (`NoAcceptedRevisionIsLost`). In all runs the only revisions lost
  this way are ones never tried (`RestoreDropsFailedOrUntried`).
- **A rollout can be skipped.** `ApplyDesired` during a reconcile lets the old revision's step
  be recorded on the new revision, whose rollout resumes after it: a step is left out exactly
  when the new revision has a rollout whose first step is not beyond that one
  (`StaleStepResumesAfter`). It can go out at full scale ungated (`StaleStepSkipsRollout`).
- **The operator skips a step that failed, too, and restores nothing.** A refused Ensure is
  reported with its step, and the next pass starts beyond it; one process with a refused first
  step ends in Ready (`RefusedStepIsSkipped`). What Ready means in every run is
  `StatusesHonestInEveryRun`: each step passed, or an earlier status reports a stop there.
- **A restore ignores readiness** (`RestoreIgnoresReadiness`), and because it clears the step,
  the next resync scales a restored revision that has a rollout down again
  (`RestoreThenResyncScalesDown`).
- **In Postgres, re-applying a manifest can add a revision.** `api.md:158` calls it idempotent.
  The stored copy has been through JSON, which turns empty collections into absent ones; it is
  idempotent exactly for manifests JSON leaves alone (`PostgresReapply`). The YAML parser
  allocates an environment always, so a manifest without one is not among them.
- **The finalizer does not remove what the operator made.** `docs/walkthrough.md:308-310` says
  it does. Finalization deletes with an adapter that was not given the owner reference, and
  that adapter selects objects labelled `plinthd`. It leaves every object of the operator's,
  and removes the standalone control plane's objects of the same name
  (`FinalizerRemovesNothingOfTheOperators`, `FinalizingDeletes`). On a cluster without objects
  of the operator's, a run leaves one behind if and only if some Ensure made its first upsert
  (`LeftBehindExactly`). What the operator made carries an owner reference and is left to the
  cluster's garbage collector.
- **A snapshot from before a deletion makes the operator create resources for a resource that
  is gone** (`StaleSnapshotAsksForTheGone`), and with two replicas no old snapshot is needed
  (`SecondReplicaAsksForTheGone`).
- **A trailing comment is part of the value after an odd number of quote characters**,
  apostrophes included (`TrailingCommentExactly`). **A comment in front of an indented first
  line makes the document unreadable**, because trimming the whole document hides that line's
  indentation only while it comes first (`CommentInFrontExactly`).

## Model

| member | source | states |
|---|---|---|
| Manifests.Validate | internal/manifest/manifest.go:73-136 | The checks, in order, report the first problem there is. |
| Manifests.CheckEnv | internal/manifest/manifest.go:87-98 | The environment loop accepts exactly the maps in which every key and value is acceptable, in whatever order it visits them. |
| Manifests.CheckSecrets | internal/manifest/manifest.go:99-110 | The secrets loop accepts exactly the lists whose names are valid, distinct and not environment names. |
| Manifests.CheckSteps | internal/manifest/manifest.go:120-130 | The step loop accepts exactly the strictly increasing lists within 1 to 100. |
| Manifests.ValidExactly | internal/manifest/manifest.go:41-136 | Which manifests validation accepts, rule by rule, with the name pattern, the ranges, the environment, the secrets and the rollout written out. |
| Manifests.ProblemsInOrder | internal/manifest/manifest.go:73-136 | Which problem is reported: the first, in this order. |
| Manifests.ValidIsAdmissible | internal/manifest/manifest.go:85-134 | Validation implies what the loop relies on: replica range, increasing steps, threshold between 0 and 1. |
| Backends.RolloutReplicasIsLeast | internal/backend/backend.go:112-121 | The staged count is the least positive one that reaches the percentage, never above the manifest's, and all of it at 100. |
| Backends.RolloutReplicasMonotone | internal/backend/backend.go:112-121 | A later step never asks for fewer replicas. |
| Backends.StagesAreContiguous | internal/backend/backend.go:79-85 | The stages of a resumed rollout are the whole rest of the step list from the first step beyond the completed one. |
| Backends.GatesExactly | internal/backend/backend.go:83-107 | What a gated stage comes to, answer by answer: refused, unready, judged by the reader's rate or by the backend's own where there is no reader, and not measurable. |
| Backends.ReaderDecides | internal/backend/backend.go:95-107 | Whatever the backend itself reports: a reader always above the threshold stops the call at its first remaining step with an error, one never above lets every remaining step through. |
| Backends.GoldenPathExactly | internal/backend/backend.go:146-157 | The golden path is these nine kinds, at the revision asked for. |
| Backends.RolloutContract | internal/backend/backend.go:63-110 | One call with steps still to do: the Ensures made are a contiguous block of the steps, only the last may fail a gate, the returned step is the last attempted, and ready without error means exactly that every remaining step passed. |
| Backends.SingleStageContract | internal/backend/backend.go:64-77 | A finished rollout, or a manifest without one, is exactly one full-scale ungated Ensure, and how its answer becomes the result. |
| Backends.RolloutAdvances | internal/backend/backend.go:79-94 | Every call of an unfinished rollout leaves strictly fewer steps, by as many as it attempted, whatever the backend answers. |
| Backends.EnsureWhole | internal/backend/backend.go:64-77 | The ungated full-scale Ensure, as the specification's single stage. |
| Backends.EnsureStage | internal/backend/backend.go:83-107 | One staged Ensure: its replica count, its result, and whether it goes on: accepted, ready, and with the reader's rate, or the backend's own where there is no reader, within the threshold. |
| Backends.EnsureStages | internal/backend/backend.go:79-109 | The loop makes exactly the stages the specification makes. |
| Backends.EnsureWithRolloutFrom | internal/backend/backend.go:63-110 | The loop makes the calls, leaves the resources and returns the result of the rollout specification that the contracts above are about, for any backend. |
| Backends.Backend.Ensure | internal/backend/backend.go:132-164 | An accepted Ensure replaces what is held for the name by the whole golden path at its revision; other names are untouched. |
| Backends.Backend.Delete | internal/backend/backend.go:168-178 | Everything of the name goes and nothing else, unless the context is cancelled. |
| Backends.Backend.DeleteResource | internal/backend/backend.go:180-197 | One resource goes; an absent one, or a cancelled context, is an error that changes nothing. |
| Stores.LookupNumbered | internal/state/store.go:325-332 | In a numbered history the lookup finds exactly the numbers 1 to its length, each at its place. |
| Stores.LookupStable | internal/state/store.go:287-295 | A lookup that succeeds is not changed by later revisions, so reading the revision after the record gives the same one. |
| Stores.FileStore.Find | internal/state/store.go:325-332 | The scan finds what the lookup specifies. |
| Stores.FileStore.FindRevision | internal/state/store.go:287-295 | A revision by name and number, or none. |
| Stores.FileStore.Apply | internal/state/store.go:204-235 | An invalid manifest changes nothing; an unchanged desired one, unless destroyed, changes nothing; any other is appended and desired, with pause and destroy lifted. |
| Stores.FileStore.Rollback | internal/state/store.go:237-268 | A copy of the selected revision is appended and desired; 0 selects the last known good; a missing target changes nothing. |
| Stores.FileStore.Update | internal/state/store.go:270-285 | The named record is replaced by its update and no other is touched; an unknown name is refused. |
| Phases.SettledOrUntriedInEveryRun | internal/reconcile/controller.go:112-177 | All runs: ready or rolled_back means that desired, active and last known good are one revision and every resource held carries it, or that the desired revision has never been tried. |
| Safety.LineageInEveryRun | internal/state/store.go:221-223 | All runs: revision i is the i-th history entry, every pointer is in range, and active is the last known good. |
| Safety.HistoryIsAppendOnly | internal/state/store.go:222-255 | All runs: nothing is removed from or rewritten in a history. |
| Safety.GoodIsEarnedInEveryRun | internal/reconcile/controller.go:112-117 | All runs: the last known good revision is the one that converged last, and it was once ensured ready. |
| Safety.RollbackExactly | internal/state/store.go:237-258 | When a rollback is accepted, and what it appends. |
| Safety.RollbackInEveryRun | internal/state/store.go:244-256 | All runs: rollback to 0 fails exactly when nothing ever converged; to t it succeeds exactly when t exists, and desires a new revision with t's manifest. |
| Safety.FlagsInEveryRun | internal/reconcile/controller.go:194-236 | All runs: paused and destroyed phases imply their flags, paused implies one of the two phases, destroyed implies nothing is held, and no Ensure happens between a completed Pause or Destroy and the next enabling operation. |
| Safety.ReplacedInEveryRun | internal/reconcile/controller.go:146-177 | All runs: a revision that failed and was replaced by a restore is never ensured again and stays in the history. |
| Safety.OutOfReachForever | internal/reconcile/controller.go:163-177 | All runs: a revision that is not desired, not last known good and in no job in flight is never ensured again, in any continuation. |
| Safety.OvertakenInEveryRun | internal/reconcile/controller.go:60-62 | All runs: a job whose target is no longer desired was overtaken by a revision that has never been tried. |
| Safety.RestoreDropsFailedOrUntried | internal/reconcile/controller.go:163-177 | All runs: a restore leaves either the revision that failed, or one that ApplyDesired just brought and that was never tried and never will be. |
| Locked.JointInEveryLockedRun | internal/reconcile/controller.go:112-177 | Locked runs: ready or rolled_back means desired, active and last known good are one revision, at least 1, and every resource held carries it. |
| Locked.FailureInEveryLockedRun | internal/reconcile/controller.go:132-163 | Locked runs: a restore in flight directly follows the recorded failure of the revision it replaces. |
| Locked.NoAcceptedRevisionIsLost | internal/reconcile/controller.go:163-177 | Locked runs: the desired revision changes only to a newly accepted, highest one, or back to the last known good directly after the one it leaves failed and the restore was accepted. |
| Locked.GuardInEveryLockedRun | internal/reconcile/controller.go:95-148 | Locked runs: the recorded step, the job in flight and every convergence are backed by passed or recorded early-ended stages. |
| Locked.ConvergedMeansEveryStepAccounted | internal/backend/backend.go:71-109 | Locked runs: when a rollout-enabled revision converges, each of its steps passed readiness and threshold, or is a step at which an earlier recorded call of it waited or failed. |
| Locked.PlanIsTail | internal/backend/backend.go:71-82 | What a resumed rollout plans is the tail of the step list after the steps up to the recorded one. |
| Guard.FirstTryInEveryRun | internal/reconcile/controller.go:95-148 | Locked runs without crashes: until a revision first converges, every stop of it was at a configured step it never passed, and its next gated stage is beyond every step it passed or stopped at. |
| Guard.FirstConvergenceExactly | internal/backend/backend.go:71-109 | Locked runs without crashes: at a revision's first convergence each of its steps passed or stopped a call and never both, so every step passed if and only if no call waited or failed. |
| Witnesses.PassedAndStopped | internal/reconcile/controller.go:71-105 | With a crash between, one step can both pass and stop. |
| Scale.NextCallStartsNoLower | internal/backend/backend.go:71-89 | After a call stops at a step, the next call starts with at least that step's replicas. |
| Scale.ScaleInEveryLockedRun | internal/reconcile/controller.go:95-130 | Locked runs without crashes: no Ensure asks for fewer replicas than an earlier one of its revision since its last restore, nor for more than its manifest. |
| Scale.ScaleNeverGoesBack | internal/backend/backend.go:60-121 | Locked runs without crashes: two Ensures of a revision with no restore of it between ask for a nondecreasing count, at most the manifest's. |
| Convergence.FinishIsARun | internal/reconcile/controller.go:70-182 | A reconcile carried to its end is one of the machine's runs. |
| Convergence.OneReconcileConverges | internal/reconcile/controller.go:70-130 | From any sound record and any resources, one reconcile against a backend healthy for the desired manifest makes the desired revision active and last known good and leaves exactly its golden path. |
| Convergence.ConvergedTwiceIsFixed | internal/reconcile/controller.go:112-130 | The second such reconcile is at full scale, and further ones change nothing but the ready or rolled_back label. |
| Convergence.ConvergesAfterAnyInterruption | internal/reconcile/controller.go:70-182 | All runs: kill the process anywhere; if the service is not paused or destroyed, one reconcile on a backend healthy for the desired manifest converges it, two reach full scale, the rest are a fixed point. |
| Convergence.FakeIsHealthy | internal/backend/backend.go:132-164 | The Fake backend is healthy for exactly the manifests whose image does not fail and whose rollout tolerates the rate it makes up, while nothing is cancelled. |
| Convergence.FakeIsOverThreshold | internal/backend/backend.go:138-152 | It is over the threshold of exactly the manifests whose image does not fail and whose threshold is below that rate. |
| Convergence.ReconcileGetsOn | internal/backend/backend.go:79-94 | Any backend: one reconcile leaves at least one step fewer, unless it ends in a restore. |
| Convergence.RepeatedReconcilesGetOn | internal/backend/backend.go:79-94 | Any backend: n reconciles without a restore leave at least n steps fewer, or none. |
| Convergence.OverThresholdSkipsOneStep | internal/backend/backend.go:89-107 | A first rollout over its threshold fails at its first remaining step and records that step as done. |
| Convergence.OverThresholdEndsReady | internal/backend/backend.go:71-77 | With every step recorded, the next reconcile is one ungated full-scale Ensure and the revision converges. |
| Convergence.OverThresholdRolloutStillConverges | internal/reconcile/controller.go:95-148 | For any steps and any rate over the threshold, as many reconciles as steps remain, plus one, end ready and last known good. |
| Witnesses.FourReconcilesDefeatTheGuard | internal/backend/backend.go:68-107 | With the default steps four reconciles end in ready, with nothing interleaved. |
| Witnesses.FakeDefeatsTheGuard | internal/backend/backend.go:142-152 | The same with the Fake backend and an image that says error. |
| Witnesses.ErrorImageIsServed | internal/backend/backend.go:138-144 | Such an image exists: it says error and is not refused. |
| Witnesses.ReadyWithoutDesired | internal/reconcile/controller.go:60-62 | Not in all runs: the phase can be ready while the desired revision has never been tried. |
| Witnesses.StaleStepResumesAfter | internal/reconcile/controller.go:96-142 | Any overtaken reconcile that records its step: the next one resumes the new revision's rollout after that step, and leaves a step of it out exactly when there is one at or below it. |
| Witnesses.StaleStepSkipsRollout | internal/reconcile/controller.go:112-118 | A run of that kind: the overtaken revision's step is recorded on the new one, whose rollout is then skipped. |
| Witnesses.AcceptedRevisionOverwritten | internal/reconcile/controller.go:163-177 | Not in all runs: an accepted revision is overwritten by a restore untried. |
| Witnesses.RestoreThenResyncScalesDown | internal/reconcile/controller.go:163-169 | The resync after a restore starts the restored revision's rollout over, and scales it down exactly when its first step asks for fewer replicas than its manifest. |
| Witnesses.RestoreIgnoresReadiness | internal/reconcile/controller.go:154-169 | A restore the backend accepts is recorded as done though not ready. |
| Witnesses.CrashForgetsProgress | internal/reconcile/controller.go:71-95 | After a crash the next reconcile plans again from the recorded step, however far the call had got. |
| Outcomes.StagesAreARollout | internal/backend/backend.go:79-109 | The stages of a job in the machine are one run of the rollout specification. |
| Outcomes.ReconcileOutcome | internal/reconcile/controller.go:70-182 | From any sound record, against any backend, for every manifest: what the record, the resources and the log are after one reconcile, whether its rollout call waits, converges or fails. |
| Outcomes.FailureOutcome | internal/reconcile/controller.go:132-181 | A failed call is followed, exactly where there is another good revision, by one full-scale Ensure of that; accepted, it is desired, active and last known good with no step recorded and phase rolled_back; refused, the failed one stays desired and failed. |
| Outcomes.RestoresExactly | internal/reconcile/controller.go:146-177 | A reconcile asks for a restore if and only if its call fails and there is another good revision, and records it if and only if that is accepted. |
| Outcomes.FailureLeadsToRestore | internal/reconcile/controller.go:132-154 | All runs: the same of a failed call in any run, with ApplyDesired interleaved. |
| Outcomes.OnlyACrashEndsAJob | internal/reconcile/controller.go:47-62 | All runs: whatever others do, a job in flight goes on where it was, unless the process dies. |
| Outcomes.ApplyExactly | internal/state/store.go:204-235 | The record an accepted manifest makes, field by field, and when it makes none. |
| Outcomes.RollbackWrites | internal/state/store.go:237-268 | The record a rollback makes, field by field, and when it makes none. |
| Outcomes.OthersWrite | internal/reconcile/controller.go:194-253 | What Pause, Resume, Destroy and Drift write before any reconcile. |
| Controllers.Controller.ReconcileLocked | internal/reconcile/controller.go:70-182 | The service ends where the machine's whole job and the outcome above say, other services are untouched, a halted one is left alone, and failure is reported exactly when the service is unknown or its revision was rejected. |
| Controllers.Controller.MarkStarted | internal/reconcile/controller.go:81-94 | The revision lookup and the first update, as the machine's first two steps. |
| Controllers.Controller.RollOut | internal/reconcile/controller.go:95 | The rollout call, as the machine's stages. |
| Controllers.Controller.RecordOutcome | internal/reconcile/controller.go:96-148 | The waiting, converged and failed updates, each as the machine's. |
| Controllers.Controller.RecordFailure | internal/reconcile/controller.go:132-181 | The failure ends as above: recorded, and restored from exactly where there is another good revision. |
| Controllers.Controller.Restore | internal/reconcile/controller.go:154-181 | The restore call and its update, as the machine's. |
| Controllers.Controller.Reconcile | internal/reconcile/controller.go:64-68 | The machine's reconcile job, from start to end, with the outcome above. |
| Controllers.Controller.Apply | internal/reconcile/controller.go:47-55 | The machine's apply job for a valid manifest; an invalid one changes nothing. |
| Controllers.Controller.ApplyDesired | internal/reconcile/controller.go:60-62 | Whatever job is in flight, the effect is the machine's unlocked step. |
| Controllers.Controller.Rollback | internal/reconcile/controller.go:184-192 | The machine's rollback job, or nothing when the target is missing. |
| Controllers.Controller.Pause | internal/reconcile/controller.go:194-204 | The machine's pause. |
| Controllers.Controller.Resume | internal/reconcile/controller.go:206-220 | The machine's resume and its reconcile; a destroyed service stays destroyed. |
| Controllers.Controller.Destroy | internal/reconcile/controller.go:222-236 | Resources first, then the record; a cancelled delete changes nothing. |
| Controllers.Controller.Drift | internal/reconcile/controller.go:238-253 | One resource goes and is repaired by the reconcile that follows. |
| Postgres.RoundTripOfNormal | internal/state/postgres.go:222-231 | A record is read back as it was written exactly when JSON leaves its manifests alone. |
| Postgres.PostgresStore.Apply | internal/state/postgres.go:103-122 | As the file store's, on records that have been through JSON. |
| Postgres.PostgresStore.Rollback | internal/state/postgres.go:124-143 | As the file store's, on records that have been through JSON. |
| Postgres.PostgresStore.Update | internal/state/postgres.go:145-157 | As the file store's, on records that have been through JSON. |
| Postgres.StoresAgree | internal/state/postgres.go:103-165 | On manifests JSON leaves alone, any sequence of operations gives both stores the same records and the same successes. |
| Postgres.ControllerUpdatesBringNormal | internal/reconcile/controller.go:86-177 | The controller's own updates are among those operations. |
| Postgres.FileReapply | internal/state/store.go:215-220 | In the file store, applying twice in a row is applying once. |
| Postgres.PostgresReapply | internal/state/postgres.go:114-120 | In Postgres that holds exactly for the manifests JSON leaves alone. |
| Workers.TokensMove | internal/reconcile/worker.go:34-53 | What each step does to the tokens: where one moves, which ends, which is new. |
| Workers.ExactlyOneToken | internal/reconcile/worker.go:34-91 | Every interleaving: a pending name has exactly one token, marked and unsent, queued, or received and not cleared; any other name none. |
| Workers.QueueHasNoDuplicates | internal/reconcile/worker.go:38-46 | Hence no name is queued twice. |
| Workers.NoSendDrops | internal/reconcile/worker.go:29-52 | With at most 256 distinct names no send ever meets a full queue; the number is that of the source. |
| Workers.ObligationEnds | internal/reconcile/worker.go:45-76 | A reconcile that is owed stops being owed only by starting or by a drop. |
| Workers.EnqueueIsHonoured | internal/reconcile/worker.go:34-76 | Every Enqueue past its pending check leaves a reconcile owed until one starts, as long as the names fit the queue. |
| Workers.EnqueueLostToADrop | internal/reconcile/worker.go:38-52 | Above that, an Enqueue that found the name marked can be lost to the marker's drop. |
| Workers.Worker.Enqueue | internal/reconcile/worker.go:34-53 | Alone: the name ends pending and queued, or nothing changes where it was empty, pending already, or the queue was full. |
| Workers.Worker.TrySend | internal/reconcile/worker.go:45-47 | The non-blocking send, as one step of the interleaving. |
| Workers.Worker.MarkPending | internal/reconcile/worker.go:38-44 | The first critical section, as one step of the interleaving. |
| Workers.Worker.ClearPending | internal/reconcile/worker.go:87-91 | The clearing critical section, as one step of the interleaving. |
| Kubernetes.UpsertTwice | internal/backend/kubernetes/backend.go:419-528 | Upserting the same manifest and revision again changes nothing. |
| Kubernetes.UpsertedIsOwned | internal/backend/kubernetes/backend.go:530-543 | What an upsert leaves belongs to the controller that made it. |
| Kubernetes.RefusedExactly | internal/backend/kubernetes/backend.go:530-543 | An upsert is refused exactly where the object is not labelled as Plinth's or carries another controller's label. |
| Kubernetes.MadeAnewExactly | internal/backend/kubernetes/backend.go:432-438 | Exactly a Deployment or NetworkPolicy with another selector is made anew; anything else keeps its labels and status. |
| Kubernetes.EnsureSucceedsExactly | internal/backend/kubernetes/backend.go:189-261 | Ensure succeeds if and only if no object in its way belongs to anyone else. |
| Kubernetes.CompletedEnsureInstalls | internal/backend/kubernetes/backend.go:597-660 | After a completed Ensure the six objects are in the manifest's own namespace where it names one, with the revision, owner, labels and selectors; the Deployment asks for the manifest's image, port and replicas, the Service and Ingress lead to its port, the ConfigMap holds its environment. |
| Kubernetes.EnsuredPointwise | internal/backend/kubernetes/backend.go:189-261 | Without a foreign object in the way Ensure succeeds, each of its six keys holds what one upsert makes of it, and every other key is untouched. |
| Kubernetes.InterruptedPointwise | internal/backend/kubernetes/backend.go:432-438 | At each key an interrupted Ensure left the old object, the new one, or, between a delete and a create, nothing. |
| Kubernetes.RetrySafe | internal/backend/kubernetes/backend.go:189-261 | Stopped after any prefix, also between delete and create, a complete retry leaves exactly the cluster an uninterrupted Ensure would. |
| Kubernetes.EnsureChangesOnlyItsOwn | internal/backend/kubernetes/backend.go:442-457 | A completed Ensure changes its own six keys only, and a Service that was there keeps its cluster address, which the upsert copies into what it sends. |
| Kubernetes.StaleStatusIsNotReady | internal/backend/kubernetes/backend.go:587-595 | A status reported before a change of what is asked for never reads as ready. |
| Kubernetes.DeleteUndoesEnsure | internal/backend/kubernetes/backend.go:568-578 | A completed Delete leaves nothing a completed Ensure of the same controller made, in whatever namespace. |
| Kubernetes.ControllersAreSeparate | internal/backend/kubernetes/backend.go:530-578 | Under any sequence of others' Ensures and Deletes, complete or not, interleaved upsert by upsert and delete by delete, an object a controller has claimed is exactly as it was. |
| Kubernetes.Upsert | internal/backend/kubernetes/backend.go:419-528 | Create, refuse, recreate or patch, as the specification of one upsert says, and no other key changes. |
| Kubernetes.UpsertAll | internal/backend/kubernetes/backend.go:196-243 | The six upserts in order up to the first refusal. |
| Kubernetes.Ensure | internal/backend/kubernetes/backend.go:189-261 | It succeeds if and only if nothing foreign is in its way, then the manifest is installed, and it is ready exactly when the Deployment's status is current and its updated, ready and available replicas suffice, or none are asked for. |
| Kubernetes.Delete | internal/backend/kubernetes/backend.go:263-270 | Exactly the caller's objects of the name go, in every namespace. |
| Kubernetes.DeleteKind | internal/backend/kubernetes/backend.go:329-394 | The same for one kind. |
| Operators.RemoveFinalizerRemoves | operator/main.go:251-259 | The finalizer goes and every other stays. |
| Operators.RemoveFinalizerSplits | operator/main.go:251-259 | The others stay in their order. |
| Operators.FilterFinalizers | operator/main.go:242-259 | The two loops over the finalizers compute membership and that removal. |
| Attribution.BookkeepingInEveryRun | operator/main.go:159-166 | Every run: versions are unique, a generation has one spec, and every pass acts on a version that existed. |
| Attribution.WrittenFromCurrent | operator/main.go:203-224 | A write that goes through was made from the current version. |
| Attribution.PlanIsHonest | operator/main.go:184-189 | The steps a pass does not repeat were asked for, and each passed both gates or is a reported stop of the same generation; on a new generation it repeats all. |
| Attribution.StatusesHonestInEveryRun | operator/main.go:184-224 | Every run, any replicas, stale snapshots, edits and re-creations: a recorded step k for generation g means every step up to k of g's own spec was asked for with its replica count, and every one below k passed readiness and the threshold or is the step of an earlier status of g that reports waiting or failing; Ready means so of all steps. And the phase is what an answer at that step calls for: Failed for a refusal or a rate not measurable or over the threshold, Reconciling for one not ready, Ready for a pass, and Failed with no step for an invalid manifest. |
| Attribution.StageAnswered | operator/main.go:189-200 | Where an answer leaves a pass, answer by answer; Ready exactly when the last planned stage passed. |
| Attribution.CompletedIsAccounted | operator/main.go:184-188 | A step at or below the one a pass resumes from passed, or is a reported stop, possibly of the status it resumes from. |
| OperatorRuns.AcceptedStepScales | internal/backend/backend.go:83-86 | An accepted stage of the operator at a configured step leaves a Deployment that asks for that step's count of the manifest's replicas. |
| OperatorRuns.PassReachesReady | operator/main.go:147-201 | A pass on the current version whose Ensures all go well, on a cluster without foreign objects in the way, makes exactly the planned stages, leaves the Deployment at the last one's replicas, and stores Ready. |
| OperatorRuns.FirstStageStops | operator/main.go:189-195 | A pass on the current version whose first stage does not pass stores its step and the phase its answer calls for. |
| OperatorRuns.StartingIsReconciling | operator/main.go:193-195 | A Deployment still starting: Reconciling is stored, at the first planned step. |
| OperatorRuns.InvalidIsFailed | operator/main.go:180-182 | An invalid manifest: Failed is stored with no step and nothing is asked for. |
| OperatorRuns.RefusedStepIsSkipped | operator/main.go:184-192 | One process, nothing interleaved: a refused first step is never repeated and the next pass stores Ready. |
| Attribution.StatusNeverGoesBack | operator/main.go:184-224 | Every run: while a resource lives, its observed generation and rollout step never decrease as a pair. |
| Finalizers.AsksOnlyWhileHeld | operator/main.go:147-189 | One process on current snapshots: an Ensure is asked for only while the resource exists and carries the finalizer, whatever edits, deletions, conflicts and crashes fall between. |
| Finalizers.OperatorKeepsOthersFinalizers | operator/main.go:154-165 | Every run: whatever a pass does, another's finalizer stays, and the resource with it. |
| Finalizers.FinalizingDeletes | operator/main.go:149-153 | Finalization removes exactly the objects of the name labelled as plinthd's. |
| Finalizers.FinalizerRemovesNothingOfTheOperators | operator/main.go:149-189 | Every run: what an accepted Ensure of the operator made is there in every continuation, owned by a resource of that name, though the resource may be gone. |
| Finalizers.NothingAskedNothingLeft | operator/main.go:147-189 | Every run in which nothing was asked for leaves a cluster free of the operator's objects free of them. |
| Finalizers.LeftBehindExactly | operator/main.go:147-189 | Every run from a cluster without objects of the operator's: one is left if and only if some Ensure made its first upsert, accepted in the end or not. |
| OperatorRuns.GoneButLeft | operator/main.go:149-158 | A run in which a resource is created, reaches Ready, is deleted and finalized, and each of its six objects is still there. |
| Finalizers.StaleSnapshotAsksForTheGone | operator/main.go:113-124 | One process, one snapshot from before the deletion: an Ensure is asked for after the resource is gone. |
| Finalizers.SecondReplicaAsksForTheGone | operator/main.go:126-145 | Two processes, current snapshots: the same. |
| OperatorProcess.World.Update | operator/main.go:155-165 | The API server stores a write made from the current version, under a new one, and refuses any other. |
| OperatorProcess.World.UpdateStatus | operator/main.go:218-223 | The same for a status, which changes nothing else. |
| OperatorProcess.Finalize | operator/main.go:149-158 | A pass over a resource being deleted is the machine's. |
| OperatorProcess.Prepare | operator/main.go:159-166 | Afterwards the version acted on carries the finalizer, or the pass ended or met a conflict. |
| OperatorProcess.RollOut | operator/main.go:167-189 | Validation and rollout with others at work between any two stages, as the machine's; the phase and step returned are those the last answer calls for. |
| OperatorProcess.Report | operator/main.go:190-224 | The status write is the machine's. |
| OperatorProcess.Refetch | operator/main.go:133-145 | After a conflict: the latest version, where there is one and fewer than three attempts have been made. |
| OperatorProcess.ReconcileOnce | operator/main.go:147-201 | One attempt of a pass, ending it or in a conflict. |
| OperatorProcess.Reconcile | operator/main.go:126-145 | The process makes one whole pass of the machine from the snapshot it is given, whatever others do between its calls, so every theorem over runs holds of it. |
| Yaml.StripCommentCuts | internal/manifest/manifest.go:249-262 | Stripping keeps exactly what comes before the first '#' with an even number of quote characters before it, and is idempotent. |
| Yaml.StripCommentLoop | internal/manifest/manifest.go:249-262 | The loop computes that. |
| Yaml.EitherQuoteToggles | internal/manifest/manifest.go:252-254 | Either quote character hides a '#', and closes what the other opened. |
| Yaml.UnquoteExactly | internal/manifest/manifest.go:264-269 | One pair of like quotes around a value goes, and nothing else. |
| Yaml.AcceptedExactly | internal/manifest/manifest.go:144-245 | Which lines are accepted, by indentation, section, key and value. |
| YamlWriter.WrittenIsRead | internal/manifest/manifest.go:138-247 | Round trip: every manifest that can be written in the subset, in quotes and with its environment in any order, is read back field by field as it was. |
| YamlWriter.WrittenDocumentIsRead | internal/manifest/manifest.go:51-71 | The same of the whole document. |
| YamlWriter.UnquotedIsQuotable | internal/manifest/manifest.go:249-262 | Any value on one line without quote characters can be written, whatever else it holds. |
| Yaml.LinesAppend | internal/manifest/manifest.go:142 | A text cut at a line end, of either kind, has the lines of its two parts. |
| Yaml.ParseItemsLoop | internal/manifest/manifest.go:232-239 | The loop over the listed steps reads all of them or reports a fault. |
| Yaml.ParseYamlLoop | internal/manifest/manifest.go:138-247 | The line loop computes the fold over lines, stopping at the first fault. |
| Yaml.SkippedExactly | internal/manifest/manifest.go:143-147 | The lines passed over are exactly those that are blank or only a comment. |
| Yaml.InsertedLinesVanish | internal/manifest/manifest.go:143-147 | Inserting such lines anywhere changes nothing but the line number of a later fault. |
| Yaml.TrailingCommentExactly | internal/manifest/manifest.go:249-262 | Appending a comment leaves a line's content alone exactly when the line already has one or does not end inside quotes. |
| Yaml.TrailingCommentsVanish | internal/manifest/manifest.go:143-148 | On such a line it leaves the whole outcome alone. |
| Yaml.TrimRightIsUnseen | internal/manifest/manifest.go:51-63 | White space at the end of the text makes no difference. |
| Yaml.CommentLinesVanish | internal/manifest/manifest.go:51-71 | In a whole document: a comment-only or blank line after any text that is not blank makes no difference. |
| Yaml.CommentInFrontExactly | internal/manifest/manifest.go:51-63 | A comment before the first line is transparent exactly when that line is not indented, or the document was faulty anyway. |
| Yaml.CommentUnreadsADocument | internal/manifest/manifest.go:51-63 | Such documents exist. |

## Left out

- HTTP, the CLI, the browser pages, flags and process wiring: plumbing around the operations modelled here.
- `ReconcileAll` and the list calls: they call the modelled operations name by name.
- Prometheus queries: the backend's answer carries a rate, or the fact that it could not be read.
- Floating point: rates and thresholds are real numbers, so a threshold or rate that is not a number is not covered.
- Persistence failures, and update functions that return an error: every store write succeeds whole. The file store would keep its change in memory when writing the file fails.
- Time, messages, events, logs and the team of a record: not part of the state, so the fixed points are modulo these.
- The error rate and logs of a backend result: only failure, readiness and step are used by the controller.
- Mutual exclusion itself: the lock table is not modelled; that one job per name runs at a time is the shape of the machine. Several control-plane processes on one store are not covered.
- Names are independent: the machine is per service name, and `Controllers` proves that an operation leaves the others alone.
- A backend acceptance installs the whole golden path at once in the control-loop machine; the adapter's separate upserts are in `Kubernetes`, where interruption is covered.
- Each upsert is one step, from reading the object to patching it. In the operator's machine a whole Ensure, complete or stopped anywhere, is one step.
- API-server internals: watches, garbage collection, field ownership. Server-side apply overwrites the fields asked for and merges labels; whose fields are whose is not tracked.
- Pod specs, probes, TLS and policy contents: an object has a name, namespace, labels, selector, revision, owners, cluster address and the few manifest fields that show a change.
- `Resources` and `Watch` of the adapter: reading only.
- A manifest whose strings hold both a quote character and an exposed '#' is outside the written round trip, and so is one that names a namespace, for which the subset has no key.
- Quantity syntax, environment-name syntax, number syntax and JSON decoding are library calls, taken as arbitrary functions.
- Characters, not bytes: texts are sequences of characters, and indentation counts spaces and tabs.
- Someone editing the operator's finalizer or status by hand, and edits that leave the spec as it was.
- The operator's resource is one name in one namespace; replicas working on different resources do not meet in this model.
- Tenancy, quotas and the audit log: single-function checks.
- The worker's endless select loop is not a method: its receive, clear and reconcile are steps of the `Workers` machine. `EnsureNamespace` and name normalisation of a resource kind are not modelled.
- ScaleNeverGoesBack: crashes are excluded, because a crash forgets the stages of the call in flight (`CrashForgetsProgress`) and the scale can then go back.
- ConvergedMeansEveryStepAccounted: with crashes it does not exclude that a step that stopped a call had passed before; `FirstConvergenceExactly` does, without crashes.
