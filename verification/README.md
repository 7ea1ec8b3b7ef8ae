# Verification of Cascader

Cascader is a Kubernetes operator. When an annotated Deployment, StatefulSet or DaemonSet restarts
and has become stable, Cascader restarts the workloads named in its annotations; those restarts may
cascade. This project models the two coupled cores of the operator and proves properties of them:

* the **dependency graph and its cycle guard**: reference lists in annotations, the recursive search
  with its path slice, and the verdict that decides whether a cascade may run;
* the **cascade protocol**: what the watch admits as work, the reconcile of one workload cut at every
  access to the cluster, and the state machine in which reconciles of different workloads, users,
  built-in controllers and API failures interleave freely.

The project file is dfyconfig.toml; `dafny verify dfyconfig.toml` covers all files.

## Files

| file | models |
|---|---|
| Text.dfy, Refs.dfy | splitting and trimming; kinds, keys, identifiers, target references |
| Extraction.dfy | `extractTargets` for an arbitrary map iteration order |
| Objects.dfy, Predicates.dfy, Patches.dfy | workloads and `Stable`; event admission; annotation writes as merge patches |
| Guard.dfy, WalkCount.dfy | the cycle guard as a specification, its theorems, what its counts mean |
| GoSlice.dfy, Client.dfy, Reconciler.dfy | the imperative operator: slices over shared arrays, client calls that may fail, search, reconcile |
| Job.dfy, Session.dfy, FullRound.dfy | one reconcile as a sequence of steps; undisturbed, with the API calls each step makes; and with no call failing |
| Machine.dfy, Turns.dfy | the whole operator as a state machine over actions; the turns of a workload |
| Endings.dfy | what holds of the copy and the cluster when a reconcile ends in each of its ways |
| Justified.dfy, Writes.dfy, WakeUps.dfy, Rounds.dfy, Tokens.dfy, Rollout.dfy | invariants and theorems about every run |
| Ledger.dfy, OwnWrites.dfy, Finite.dfy | why cascades are finite |
| Endless.dfy, StaleCopy.dfy | runs that show where finiteness and the rollout order end |

The methods of Reconciler.dfy and Client.dfy are proved against the specification functions:
`Reconcile` and `ReconcileWorkload` take the steps that Job.dfy defines, in order, each meeting what
its own numbered calls to the API meet, and the state machine is built from the same steps. Any Get
and any patch may fail. Map iteration picks keys in any order, and may pick differently every time.

## What the proofs bring out

* The guard is stronger than documented: it rejects every workload from which any cycle, missing
  workload or malformed reference can be reached, not only cycles through the source.
* Restarts are not gated by the last-observed-restart mark: a reconcile that finds it comes to the
  same end of the check as one that has to set it, so a second reconcile of a stable workload fires
  again. What bounds restarts is the number of admitted events and the walks they pay for.
* The repository's README.md (line 171) names `kubectl.kubernetes.io/restartedAt` as the annotation a
  restart writes; the code writes `cascader.tkb.ch/last-observed-restart`. The model follows the code.
* The documented conditions of restart detection are those of the code, with two exceptions. A change
  of a restart annotation outside the pod template is not looked at (README.md, lines 193-194). And a
  DaemonSet counts as updating by its updated and unavailable pods (internal/predicates/utils.go:149).
* Clearing an annotation through a merge patch can destroy other annotations: exactly when the copy
  read had only that one, and the server copy has gained others. In no run does the operator do so,
  because a workload whose mark is cleared has targets and so a second annotation; no step of the
  operator changes anything but its mark, the restart timestamp and the generation.
* Cascades are finite, and the bound counts actions of users and other controllers only, if and only
  if every workload from which there are walks is settled: not stable and in transition at once. Only
  a DaemonSet that wants no pods while its status still counts one as updated or unavailable can be
  unsettled. If such a one has targets and the guard passes it, it restarts them without end, after a
  single event that need not change anything: each reconcile's own mark is work for the next one.
* Safe rollout order holds, for the firing and for each restart that follows from it, of every spec up
  to the copy the reconcile read in its own turn. It does not hold of a spec written after that copy
  was read: a concrete run of the state machine ends with the source firing while its newest spec has
  not been observed. The live generation is one that the copy's status has observed exactly when no
  write since the read has raised it, and then the live spec is the copy's own.

## Model

| member | source | states |
|---|---|---|
| Refs.IdsAreIdentity | internal/utils/helper.go:94-97 | Two keys with supported kinds and slash-free namespaces have the same identifier if and only if they are the same workload, so path membership and the self-dependency test compare workloads. |
| Refs.SlashedNamespacesCollide | internal/utils/helper.go:94-97 | Without slash-free namespaces two different workloads can share an identifier. |
| Refs.TargetAccepted | internal/targets/target.go:40-56 | A reference is accepted exactly when it has fewer than two slashes and its kind is supported; an accepted one has slash-free parts if the source's namespace has. |
| Refs.ParsePrinted | internal/utils/helper.go:77-92 | Parsing a printed reference, qualified or relative to its own namespace, gives back the target. |
| Text.SplitOfJoin | internal/controller/base_reconciler.go:185-186 | Splitting at the separator undoes joining, for pieces free of it. |
| Text.JoinOfSplit | internal/controller/base_reconciler.go:185-186 | Joining undoes splitting, for every text. |
| Text.SpacesByCode | internal/controller/base_reconciler.go:187 | What trimming treats as white space is the White_Space property of the Unicode standard, code point by code point. |
| Text.TrimOfPadded | internal/controller/base_reconciler.go:187-190 | Trimming removes exactly the white space around a text that has none at its ends. |
| Extraction.GatherAnyOrder | internal/controller/base_reconciler.go:179-198 | For every iteration order of the kind map, extraction succeeds or fails alike and finds the same targets with the same multiplicities. |
| Extraction.ExtractionFailsExactly | internal/controller/base_reconciler.go:171-201 | Extraction fails if and only if some item of some kind annotation has two or more slashes; otherwise every target is a well-formed key. |
| Extraction.PrintedListRoundTrip | internal/controller/base_reconciler.go:185-197 | Printing any list of references with any padding and empty items and extracting it again recovers exactly that list, in order and with multiplicity. |
| Extraction.PrintedAnnotationsRoundTrip | internal/controller/base_reconciler.go:179-198 | So for all kind annotations of a workload together, in whatever order they are visited: exactly the references written are recovered. |
| Objects.StableExactly | internal/workloads/deployment_workload.go:49-82 | The stability test, for all three kinds, decides that the status has observed the spec and the wanted pods (if any) are all updated, ready and, where reported, available with none unavailable. |
| Predicates.AdmitsExactly | internal/predicates/predicate.go:41-57 | With the check lists of the three controllers, an update is admitted exactly if the new object has a kind annotation and its template changed, it is a transitioning DaemonSet, it is another workload that lost its only pod, or it scaled to or from zero. |
| Predicates.AdmittedByTheNumbers | internal/predicates/utils.go:46-150 | In spec and status numbers, for all three kinds: an update is admitted exactly if the new object has a kind annotation and the hash tells the templates apart, the scale goes to or from zero, the only pod (ready and, for a Deployment, available) is lost, or it is a DaemonSet with a pod wanted that is not updated, or an unavailable one. |
| Predicates.NewTemplateIsAdmitted | internal/predicates/utils.go:46-66 | For every kind, an annotated workload whose new template the hash tells from the old one is admitted. |
| Predicates.CompleteDaemonSetIsIgnored | internal/predicates/utils.go:143-150 | With template and desired number unchanged, an annotated DaemonSet is not admitted exactly if all wanted pods are updated and none is unavailable. |
| Predicates.DaemonSetPodLossIsAdmitted | internal/predicates/utils.go:143-150 | From a rolled-out DaemonSet, the loss of any pod is admitted. |
| Predicates.AdmitsByScale | internal/predicates/utils.go:94-120 | In terms of the pods the stability test waits for, for all three kinds: an update is admitted for its scale exactly if before or after it, but not both, no pod is wanted. |
| Predicates.OwnWriteAdmittedExactly | internal/predicates/utils.go:46-150 | A write that touches only metadata annotations is admitted exactly for an annotated, transitioning DaemonSet. |
| Predicates.OwnWriteIsQuiet | internal/predicates/utils.go:112-150 | Hence the operator's own bookkeeping on a Deployment, a StatefulSet, or a stable DaemonSet that wants pods is never admitted. |
| Predicates.OwnWriteOfEmptyDaemonSetIsNoticed | internal/workloads/daemonset_workload.go:60-62 | A concrete stable DaemonSet that wants no pods whose mark is admitted as new work. |
| Predicates.UnsettledExactly | internal/workloads/daemonset_workload.go:48-80 | The only workloads that are stable and in transition at once are observed DaemonSets that want no pods while one is counted as updated or unavailable. |
| Predicates.PodChurnIsIgnored | internal/predicates/utils.go:112-141 | With an unchanged template and an unchanged scale other than one, no status change of a Deployment or StatefulSet is admitted. |
| Predicates.OnlyPodLossExactly | internal/predicates/utils.go:122-141 | From a rolled-out workload of one replica, pod loss is detected exactly when no pod is ready (and, for a Deployment, none available). |
| Predicates.SettledDaemonSetExactly | internal/predicates/utils.go:143-150 | A DaemonSet that wants pods, with a current status, is stable exactly when it is not transitioning and all wanted pods are ready and available. |
| Predicates.LostPodsAreNotStable | internal/predicates/utils.go:122-150 | An update admitted as pod loss or DaemonSet transition, with pods wanted, shows a workload that is not stable. |
| Patches.MergeOfDiff | internal/utils/helper.go:127-152 | Merging a difference into the copy it was taken from gives the modified annotations. |
| Patches.SetChangesOneKey | internal/utils/helper.go:127-152 | Setting an annotation changes that key only, on a server copy that may have changed meanwhile. |
| Patches.ClearChangesOneKey | internal/utils/helper.go:154-175 | Clearing an annotation removes that key only, unless it was the only one of the copy read, which empties the server's map. |
| Patches.ClearLosesOthersExactly | internal/utils/helper.go:154-175 | Clearing destroys another annotation if and only if the copy read had no other one and the server copy has. |
| Patches.HopNoticedExactly | internal/targets/deployment.go:55-75 | A restart is admitted as new work exactly when the target has a kind annotation and the timestamp is new both to the copy fetched and to the server copy at the time of the patch, if the hash tells the two templates apart. |
| Patches.NoticedHopChangedTemplate | internal/predicates/utils.go:46-66 | Whatever the hash, an admitted restart changed the pod template. |
| Patches.RestartAwaitsStatus | internal/targets/deployment.go:55-75 | A restart with a timestamp new to the copy fetched and to the server copy makes the target unstable until its status observes the new generation; any other restart changes nothing. |
| Patches.SameSecondCoalesces | internal/targets/deployment.go:63-70 | Once a restart has stamped the server copy, a further one with the same timestamp changes nothing and is not noticed, whatever copy it was based on. |
| Patches.MarkKeepsDeps | internal/controller/base_reconciler.go:143-155 | Setting the mark leaves the dependencies of the server copy unchanged, whatever copy was read. |
| Patches.UnmarkKeepsDeps | internal/controller/base_reconciler.go:158-168 | So does clearing it, if the copy read carries a kind annotation. |
| Client.UniqueAnnotations | internal/utils/helper.go:33-48 | The start-up check succeeds if and only if there are annotations and all their values differ. |
| Client.CheckedKeysAreApart | internal/app/run.go:72-154 | After the check the kind map has one entry per kind, with the kinds' own names, all supported, and neither the mark nor the requeue key is a kind annotation. |
| Client.DefaultKeysPass | internal/flag/flag.go:28-32 | The default keys pass the check; restarts are stamped under the default key of the mark. |
| Client.KubeClient.Patch | internal/utils/helper.go:119-122 | A successful patch merges the difference into the server's copy and refreshes the object; a failed one changes nothing. |
| Client.PatchWorkloadAnnotation | internal/utils/helper.go:129-152 | Its effect on the store and the object in memory is that of the specified write, or nothing. |
| Client.DeleteWorkloadAnnotation | internal/utils/helper.go:156-175 | Its effect on the store is that of the specified removal, or nothing. |
| Client.PatchPodTemplateAnnotation | internal/utils/helper.go:101-125 | Its effect on the store is that of writing the given key in the template, with the generation bumped if the template changed, or nothing. |
| Client.Trigger | internal/targets/statefulset.go:55-75 | A restart stamps the target's template with the current time exactly if the target exists and neither call fails; a target that could not be fetched is not patched. |
| Guard.GuardIsExact | internal/controller/cycle_detection.go:56-127 | The guard passes if and only if no walk from the source, first step to a given target and later steps along stored annotations, meets a workload twice, and every workload reached exists and has readable dependencies. |
| Guard.GuardIsHereditary | internal/controller/cycle_detection.go:87-127 | If the guard passes a root it passes every workload that a walk from it reaches. |
| Guard.GuardPassesTargets | internal/controller/cycle_detection.go:109-124 | If the guard passes a source it passes each target on the target's own dependencies, and the walks counted below the source are those counted from the target itself. |
| Guard.VerdictIgnoresOrder | internal/controller/base_reconciler.go:179-198 | For any two choices of iteration orders, one at the source and at every workload the search reaches, extraction fails alike, the verdict is the same and so is the number of Gets of a passing check. |
| Guard.FiringCost | internal/controller/cycle_detection.go:87-127 | The cost of restarting all targets of a passed workload, in any order, one per restart plus what each may cause, is its number of walks. |
| Guard.SearchShrinks | internal/controller/cycle_detection.go:91-117 | Each level of the search shrinks the set of stored identifiers off the path, on cyclic stores too. |
| WalkCount.WalksAreCounted | internal/controller/cycle_detection.go:110-124 | The recursive count equals the size of the set of all walks, a walk being a sequence of choices in target lists. |
| WalkCount.NIsNumberOfWalks | internal/controller/cycle_detection.go:56-127 | So the ledger's weight of a workload the guard passes is its number of non-empty dependency walks. |
| GoSlice.Append | internal/controller/cycle_detection.go:91-117 | Appending yields the longer contents and leaves the shorter slice's contents alone, in place or copied. |
| Reconciler.BaseReconciler.ExtractTargets | internal/controller/base_reconciler.go:171-201 | The nested loops, with keys picked in any order, compute the specified extraction for that order, which is the reference extraction up to order and choice of error. |
| Reconciler.BaseReconciler.DetectCycle | internal/controller/cycle_detection.go:87-127 | The search with a shared backing array terminates, keeps the caller's path, and reports nothing exactly if the target is clear and no Get it makes fails; what it reports is a real cycle, or an error at the end of a real chain. Each call nests one level deeper than its caller, which termination rests on, and its level plus the stored identifiers off its path never exceeds the number of stored workloads plus one. |
| Reconciler.BaseReconciler.CheckCycle | internal/controller/cycle_detection.go:56-83 | Nil exactly if the specification passes and none of its Gets fails, with one Get per non-empty walk; a reported indirect path starts at the source, follows dependencies, has distinct elements but the last, which occurs earlier. The search starts at level 1, so no call is deeper than the number of stored workloads plus one. |
| Reconciler.LassoIsRealCycle | internal/controller/cycle_detection.go:73-79 | A path that closes on an earlier element or on the source contains a genuine cycle. |
| Reconciler.BaseReconciler.TriggerReloads | internal/controller/base_reconciler.go:224-265 | Every target is attempted once, in order, with one Get each; the i-th restart succeeds exactly if its target exists and neither its own Get nor its own patch, both known by number, fails; successes and failures add up to the number of targets. |
| Reconciler.BaseReconciler.ReconcileWorkload | internal/controller/base_reconciler.go:52-140 | One undisturbed reconcile takes the specified steps in order to their end, each succeeding or failing as its own numbered API calls do, and leaves the store, the call counts and the outcome they lead to (only the number of Gets of a check that blocks is left open). |
| Reconciler.BaseReconciler.Reconcile | internal/controller/deployment_reconciler.go:43-57 | So does the entry point, beginning with the Get of the workload, including a missing workload and a failed fetch. |
| Endings.CheckExactly | internal/controller/base_reconciler.go:77-120 | The check ends as a bad reference, without targets, blocked, unstable with a delay, or firing, exactly when the copy and the cluster are so; the delay is the annotated one if it is there, not blank and parses, and the default otherwise. |
| Endings.BlockedExactly | internal/controller/base_reconciler.go:96-111 | The check blocks exactly if there are targets and a Get fails or some walk meets a workload twice or one that is missing or unreadable. |
| Endings.StepEndsExactly | internal/controller/base_reconciler.go:52-120 | For every step before firing: it ends in an error exactly if the fetch or the mark fails or a reference is malformed; it ends so as to be called again exactly if it fails or defers an unfinished rollout by a positive delay; it ends for good exactly if the workload is not stored, has no targets, is blocked, or is unfinished with a non-positive delay; it fires exactly on a finished rollout. |
| FullRound.FullRoundOrNone | internal/controller/base_reconciler.go:52-140 | If no call fails and nobody interferes: a reconcile fires if and only if the workload is rolled out, has targets and passes the guard; then it restarts every one of its dependencies, each of which ends up with a timestamp taken during this reconcile, and the mark is gone. Otherwise the workload carries the mark it had or one timed during this reconcile; a malformed reference is an error; no targets or a blocking guard end it for good; an unfinished rollout asks to be called again after the annotated delay or the default. |
| Job.RetriesNeverRepeatRestarts | internal/controller/base_reconciler.go:69-139 | Counting the restarts attempted in each step, whatever others do in between: a reconcile that ends in an error or a positive requeue has attempted none, and one that has attempted any ends having attempted each of its targets exactly once, in order; in between it remembers exactly those it has attempted. |
| Job.MarkDoesNotGateRestarts | internal/controller/base_reconciler.go:61-120 | From the step that sets or finds the mark to the end of the check, a reconcile that finds the mark and one that has to set it come to the same end or to the same targets. |
| Justified.RestartsAreJustified | internal/controller/base_reconciler.go:96-129 | In every run, every restart that is attempted ends a chain of history entries in strictly increasing order, from an event from outside, each the recorded cause of the next; each firing in it was decided on a stable copy that the guard passed, with its dependencies as targets, and each restart is of a target of the firing before it. |
| Justified.FiringsAreSafe | internal/controller/base_reconciler.go:96-129 | In every run, every firing was decided on a stable copy with exactly its dependencies as targets, and no walk from the workload met a cycle or a missing workload in the cluster the guard looked at. |
| Justified.RunsKeepHistory | internal/controller/base_reconciler.go:52-140 | Every step of every run keeps the links of the history and of the pending work. |
| Writes.OperatorWritesOnlyItsKeys | internal/utils/helper.go:99-175 | In every run, whatever others do, no step of the operator changes anything in any workload but its mark, the restart timestamp and the generation counting template changes; clearing the mark never takes another annotation with it. |
| Writes.MarkIsSetAndCleared | internal/controller/base_reconciler.go:61-126 | In every run, a step that sets the mark and succeeds leaves it in the cluster with the current time, and one that clears it and succeeds leaves none there. |
| Writes.OperatorKeepsGraph | internal/controller/base_reconciler.go:143-168 | In every run, with users editing, creating and deleting workloads at will, no step of the operator changes the dependency graph. |
| Writes.OnlyApiFailuresStopRestarts | internal/controller/base_reconciler.go:230-249 | As long as nobody deletes workloads, an attempted restart fails exactly if the API does. |
| Rounds.RoundsAreExact | internal/controller/base_reconciler.go:224-265 | In every run, the restarts attempted on account of a firing are those of its targets, in order and each once: the first of them while its round is under way, all of them when it is over. |
| Ledger.CascadeLedger | internal/controller/base_reconciler.go:52-140 | While the dependency graph is kept, in every reachable state the restarts attempted, failed ones included, plus all that pending work may still attempt are at most the walks brought in by admissions no restart caused. |
| Ledger.AdvanceKeepsCurrent | internal/controller/base_reconciler.go:52-140 | While the graph is kept, the copy a reconcile goes on with keeps showing the current dependencies, even if the workload changed since it was read. |
| OwnWrites.OwnWritesArePaidFor | internal/predicates/utils.go:143-150 | In every run in which no copy of a workload that is stable and in transition at once is stored, the operator's own writes to that workload are admitted at most twice per action from outside on it, and once more if it was there at the start, whatever other workloads are like. |
| Finite.CascadesAreFinite | internal/controller/base_reconciler.go:52-140 | If that holds of the workloads that have walks, and the graph is kept, the restarts attempted in any run and all that pending work may still attempt are bounded by the walks of the workloads others act on, three times for each action, and the walks of the workloads at the start. |
| Finite.RoundsAreFinite | internal/controller/base_reconciler.go:52-140 | If it holds of all workloads, the rounds fired and the work pending are at most three per action from outside, one per workload at the start and one per restart. |
| Endless.UnsettledRestartsForever | internal/controller/base_reconciler.go:61-140 | From any cluster with a DaemonSet that is stable and in transition, has targets and passes the guard, one event from outside that changes nothing is enough for any number of restarts, with the graph unchanged. |
| Endless.FiniteExactly | internal/controller/base_reconciler.go:52-140 | From a fresh start, what the operator restarts after an event that changes nothing is bounded for every workload, however long it goes on, if and only if every workload from which there are walks is settled. |
| Endless.EmptyDaemonSetRestartsForever | internal/workloads/daemonset_workload.go:60-62 | Such a cluster exists: a DaemonSet that wants no pods, one target, and for every n a run with one event from outside and n restarts. |
| Ledger.LaterHopsAreNotBlocked | internal/controller/base_reconciler.go:95-111 | While the graph is kept, once a workload has fired the guard never blocks one of its targets in its turn, short of an API failure. |
| Tokens.RoundsWithinAdmissions | internal/controller/base_reconciler.go:52-140 | In every run and for every workload, rounds fired plus pending work never exceed admitted events. |
| Tokens.RoundsArePaidFor | internal/controller/base_reconciler.go:52-140 | While the graph is kept, all rounds ever fired are bounded by the admissions no restart caused and the walks they brought in. |
| Turns.EveryReconcileHasATurn | internal/controller/deployment_reconciler.go:43-57 | Whenever a workload is being reconciled, it is in a turn that began in exactly one step of the run, in which the queue handed it out. |
| WakeUps.HopsAreAdmittedExactly | internal/targets/deployment.go:55-75 | In the state machine, a successful restart is admitted as work for its target exactly when the target has a kind annotation and the timestamp is new, if the hash tells the two templates apart. |
| WakeUps.OutsideEventsAdmittedExactly | internal/predicates/predicate.go:41-66 | Of what others do, an update is admitted exactly if the watch's update filter passes it, a deletion exactly if the workload had a kind annotation, and a creation never. |
| WakeUps.OwnEventsAdmittedExactly | internal/predicates/predicate.go:41-57 | Of what the operator does, exactly a write that changes the workload and passes the update filter is admitted. |
| WakeUps.AdmittedWorkWaits | internal/predicates/predicate.go:43-61 | Every admitted event leaves work waiting in the queue, without a break until a step after the event hands it out, also while an earlier reconcile of the workload is under way. |
| WakeUps.SettlesExactly | internal/controller/base_reconciler.go:52-139 | Those facts hold exactly of the steps that fire or end a reconcile without a further call. |
| WakeUps.NoLostWakeUp | internal/controller/base_reconciler.go:80-139 | For every admitted event, at any later point work is waiting, or a turn begun after the event is under way and has not fired, or such a turn has settled, judged by the copy and the cluster: it fired on a finished rollout, or gave up because the workload was not stored, its copy had no targets, a Get of the check failed or the guard found something, or the rollout was unfinished and the delay asked for is not positive. |
| WakeUps.UnstableGivesUpExactly | internal/controller/base_reconciler.go:203-222 | With the positive default delay, a reconcile that finds its rollout unfinished gives up exactly if the workload's own requeue annotation parses to a delay that is not positive; in any case its outcome carries the annotated delay or the default. |
| Rollout.SafeRolloutOrder | internal/workloads/deployment_workload.go:49-82 | Whenever a workload fires, and whenever one of its targets is restarted after that, the copy it acts on was the cluster's at some point since this very turn began, with its rollout complete; every spec it had up to that point, so every spec from before the turn, is the spec of that copy or an older one, of a generation the copy's status has observed. |
| Rollout.TriggersActOnCopies | internal/controller/base_reconciler.go:120-129 | Every restart that is attempted goes back to a firing of its reconcile, so the rollout order covers it. |
| Rollout.LiveSpecCoveredExactly | internal/controller/base_reconciler.go:115-129 | When a workload fires or a target is restarted, the generation in the cluster is one that the copy's status has observed if and only if no write since the copy was read has raised it; then the live template and, where the spec gives it, number of replicas are those of the copy, whose rollout the copy shows complete. |
| StaleCopy.UnobservedSpecDoesNotStopTheFiring | internal/controller/base_reconciler.go:115-129 | A concrete run from a fresh start that ends with a workload firing while its current spec is unobserved. |

## Left out

- The Kubernetes client, caches, watches and leader election: a finite map of workloads stands for the cluster, reads are current, and each call may fail; a stale cache is not modelled.
- Job.Advance: the cycle check is one step, although its fetches are separate calls between which others may act; a restart's fetch and patch are one step as well.
- Finite.CascadesAreFinite: bounds restarts, not retries; an unstable workload is looked at again for as long as it is unstable and its delay is positive.
- Machine.Step: merging of several updates into one event by the informer is not modelled; each write is one event. Rate limits and delays are reduced to "waiting".
- Creation, deletion and updates from outside are arbitrary actions; the theorems that need a kept graph or disciplined generations say so in their premises.
- Guard.GuardIsExact: assumes slash-free namespaces, as Kubernetes guarantees; see Refs.SlashedNamespacesCollide for why.
- Reconciler.BaseReconciler.CheckCycle: the path of a cycle is a list of identifiers, not the text joined with arrows.
- JSON text and the FNV hash: annotation maps are patched as maps, and the template hash is an arbitrary function, assumed to tell two templates apart only where stated.
- Duration parsing and time formatting: an arbitrary parser, and an arbitrary text per patch for the current time.
- int32 counters: replica counts and generations are unbounded integers; the code only compares them.
- Objects of other types and a missing `spec.replicas` in `Stable`, which dereferences it: the API server fills it in.
- Logging, events, metrics, command-line flags, TLS, reason strings and error texts.
- Work outstanding when the operator stops: create events are dropped by design, so nothing is claimed across a restart of the operator.
