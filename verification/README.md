# The KubeStellar OCM status agent, verified in Dafny

The status agent runs beside a workload cluster. It watches AppliedManifestWork objects, which list the
resources a hub has had applied to the cluster; starts one informer per kind of listed resource and stops
it when the last resource of that kind is gone; and keeps, on the hub, one WorkStatus object per workload
object with that object's status. This project models the agent's two state machines and the pure functions
under them, and proves what they are there for.

## How the model is laid out

| file | what it holds |
|---|---|
| `Base.dfy` | options, map lookups, the string operations taken from Go's `strings` package |
| `Schema.dfy` | group/version/kind identifiers, queue and lister keys, excluded kinds |
| `Names.dfy` | WorkStatus names, a parser that undoes them, and when two objects share one |
| `SafeMaps.dfy` | the mutex-guarded maps, as classes, one method call being one atomic step |
| `Diff.dfy` | the diff of two resource lists, for every order a Go map may be walked in |
| `Index.dfy` | the informer lifecycle as a step machine; every channel is a fresh number |
| `Confluence.dfy` | interleavings of start and stop loops, iteration by iteration |
| `LockSteps.dfy` | the same loops at the granularity of single map operations |
| `TwoLoops.dfy` | two loops on one kind at that granularity: which schedules go wrong |
| `SerialLoops.dfy` | calls that go one after another on each kind, at that granularity |
| `Objects.dfy` | objects, resource lists, owners, key lookups, the copy queued for a deletion |
| `Tracking.dfy` | AppliedManifestWork events and the loops they set off, as one machine |
| `Refinement.dfy`, `IndexRefinement.dfy` | the incrementally kept index against the recomputed one |
| `SharedUids.dfy` | which events leave the index other than the recomputed one, without hypotheses on UIDs |
| `FailedLookups.dfy` | the same when lookups fail and cut loops short |
| `Watching.dfy` | from the tracked manifests to the listers that queue keys are looked up in |
| `LatestLists.dfy` | the index against the lists of the events themselves |
| `AwInformer.dfy` | manifests that list an AppliedManifestWork, and what becomes of the agent's own informer |
| `Hub.dfy` | the hub: calls that go through, fail, or take effect and then fail |
| `WorkStatuses.dfy`, `Retry.dfy` | `handleWorkStatus`, the goal it works toward, reruns and deletions |
| `Outcomes.dfy` | what `handleWorkStatus` and the hub calls come to, said with the fields of the objects |
| `Workers.dfy` | several attempts for one object, all live or all deletions, interleaved hub call by hub call |
| `MixedWorkers.dfy` | live and deletion attempts for one WorkStatus, interleaved likewise |
| `Provenance.dfy` | where every WorkStatus comes from |
| `Drain.dfy` | `reconcile` and the work queue, in any order of keys and with any failures |
| `Collisions.dfy` | keys of objects that share a WorkStatus name |
| `Agent.dfy` | the agent object with its fields updated in place, tied to the machines above |
| `AgentOutcomes.dfy` | what handling an AppliedManifestWork comes to, said with the fields of its resources |
| `AgentRuns.dfy` | any sequence of calls on the object is a run of the machine |

The machines are functions on values, so that runs and interleavings can be quantified over. The agent
itself is a class whose methods follow the Go methods branch by branch, and whose contracts equate what they
leave behind with a step, or a run of steps, of a machine.

## What is assumed, and where

* One loop iteration is one atomic step in `Index`, `Confluence`, `Tracking` and the modules built on
  `Tracking`. The locks of the code are finer, and two loops inside an iteration on the same kind can go
  wrong: `TwoLoops` says which schedules of two starts miss the informer and which of two stops panic, and
  has a start beside a stop that goes wrong as well. Where no two loops are inside an iteration on the same kind, every
  interleaving is one of whole iterations (`LockSteps.Reduction`, `LockSteps.LockStepsAreSequential`), and
  where the calls on one kind do not overlap at all the outcome is that of the calls in their order
  (`SerialLoops.SerialCallsInOrder`).
* Handling an event (the lookup of the manifest, the comparison and the update of what is tracked) is one
  step of `Tracking`. The code takes the lock of the tracked manifests for each of these on its own, and a
  plain and a deletion key of one AppliedManifestWork are different queue items that two workers can have
  in hand at once; such overlaps are outside the model.
* Channel safety, count/informer agreement and list alignment (`Index.RunSafe`, `Tracking.EveryRunSafe`)
  need nothing beyond that granularity: duplicate or shared UIDs, mappers that change or fail, and any
  resource list are all covered. They say that no `close` and no stopper assertion panics. A lookup through
  the nil mapper of a failed discovery is a panic too; it is no step of the machines but an outcome of the
  methods of `StatusAgent.Agent`, with its exact condition.
* Index refinement (`IndexRefinement`, `LatestLists`) needs more, and `Refinement.GoodLabel` lists it: a
  lookup always yields the same kind, UIDs are distinct within and across manifests and keep their resource,
  no resource is an AppliedManifestWork, and no loop of an earlier event for a manifest is still running when
  the next event for it is handled. `SharedUids` drops what is said of UIDs and of AppliedManifestWorks, and
  gives the exact condition under which one event, from a drained state, keeps the agreement;
  `FailedLookups` does so when lookups fail.
* Retry, drain and worker convergence need deletions to reach the hub, because the code drops a failed
  Delete (`Retry.DeletionLostIff` is the exact condition under which that loses a deletion). Worker
  convergence is about attempts for one object that are all live or all deletions; for a mix of both
  `MixedWorkers` says what decides.
* Drain convergence also needs distinct WorkStatus names (`Drain.NamesApart`, a sufficient condition).
  `Collisions` has the exact condition for two keys with one WorkStatus, live or deleted, and objects that do
  share one; `Names.NameAmbiguousIff` says which names can be shared.

## What the proofs say about the code

* Adding the UID that already is the whole set of its kind starts a second informer over the first, whose
  channel is then stored nowhere and is never closed; nothing else loses an informer (`Index.StepLosesIff`,
  `Index.ReaddLeaks`). A first UID of the AppliedManifestWork kind does the same to the agent's own informer,
  except that `run()` still holds that channel (`Index.StepLeakIff`).
* When a manifest lists an AppliedManifestWork, the start it launches replaces the agent's own informer by
  a second one, and the stop that follows takes that one down: the agent is left without a lister for
  AppliedManifestWorks, so that it finds the owner of no object, while its first informer runs on until
  shutdown (`AwInformer.StartThenStop`, `AwInformer.AwListerOfRunGoneIff`). The close at shutdown
  (pkg/agent/agent.go:149-150) panics exactly when the first iteration that resolves to that kind is one of
  `stopInformers`: the stop overtakes the start, or the lookup of the start fails
  (`AwInformer.ShutdownOfRunPanicsIff`, `StopBeforeStart`, `StartLookupFails`).
* Two manifests that list the same resource are in order until one of them drops it: then the UID is no
  longer counted although it is still listed (`SharedUids.SharedDropBreaksIff`,
  `AgentRuns.SharedUidBreaksRefinement`).
* The comment on the copy made for deletions (pkg/util/unstructured.go:85-86) promises one without spec and
  status. For the `*unstructured.Unstructured` objects the informers deliver, reflection finds neither field
  and both stay (`Objects.CopyStrippedIff`).
* A live attempt that has found no WorkStatus yet and is overtaken by the deletion of its object creates it
  afterwards: no call fails, no key is left, and the gone object has a WorkStatus
  (`MixedWorkers.StaleCreateSurvives`, `MixedWorkers.AnyObjectCanBeOvertaken`).
* Two live objects with one WorkStatus name: the one whose key is taken first sets its owner and source, the
  one taken last its status, so it may report one object's status as another's (`Collisions.FirstOwnsLastReports`).
* A failed discovery stores a nil mapper (pkg/agent/informers.go:31 and 128), and the next lookup through it
  crashes; the early return of `stopInformers` keeps the old mapper. Both are in the contracts of
  `StartInformers` and `StopInformers`.
* An update to an empty resource list is requeued without ever stopping the old informers
  (pkg/agent/reconcilers.go:88-91), so the index stands for each manifest's latest nonempty list; it is that
  of the latest lists iff no list with a watched resource was emptied (`LatestLists.EmptyUpdateIgnoredIff`).
* A WorkStatus name stands for just one namespace and name, of one kind and under one AppliedManifestWork, iff
  neither has a dash and the full name is shorter than 253 characters (`Names.NameAmbiguousIff`).

## Model

| member | source | states |
|---|---|---|
| `Schema.NamespaceNameRoundTrip` | pkg/util/keys.go:25-39 | the namespace/name half of a queue key splits back to the same namespace and name |
| `Schema.SplitCases` | pkg/util/unstructured.go:117-120 | splitting fails iff the key has two slashes, and otherwise the parts join to the key; one leading slash means no namespace |
| `Schema.ExcludedIff` | pkg/agent/agent.go:31-40 | of all kinds without slashes, those not watched are the seven listed, given as group, version and kind |
| `Schema.QueueKeyIsKindKey` | pkg/util/keys.go:33-47 | the two ways a kind is turned into a key agree on every kind |
| `Schema.KindKeyInjective` | pkg/util/keys.go:41-47 | slash-free kinds share a lister key iff they are the same kind |
| `Schema.KindKeyNeedsSlashFree` | pkg/util/keys.go:41-47 | two kinds that share a key when a version holds a slash |
| `Objects.QueuedKeyFindsObject` | pkg/util/unstructured.go:110-130 | the key an object is queued under reads, in the cache of the informer started for its kind, exactly that object's entry, or reports it not found |
| `Objects.OtherKindsDoNotMatter` | pkg/util/unstructured.go:110-123 | informers of other kinds starting or stopping do not change what a key finds |
| `Objects.LookupCases` | pkg/util/unstructured.go:110-130 | a lookup says there is no lister iff there is none, that the key is malformed iff its name has two slashes, and otherwise reads the cache under the name, less a leading slash |
| `Objects.OwnerFoundIff` | pkg/ocm/ocm.go:78-102 | an object's AppliedManifestWork is what is cached under the name in its first such owner reference, with that object's name, UID and content |
| `Objects.CopyByFields` | pkg/util/unstructured.go:70-103 | the queued copy clears UID, resource version, generation, creation time, managed fields and one annotation, and keeps identity, labels, owners and content |
| `Objects.ListGVRs` | pkg/ocm/ocm.go:27-38 | the i-th GVR has group, version and resource of the i-th applied resource |
| `Objects.GetTrackedObjectsUID` | pkg/ocm/ocm.go:40-46 | the i-th UID is that of the i-th applied resource |
| `Objects.AppliedOwnerIff` | pkg/ocm/ocm.go:66-67 | an owner reference counts iff it has the API version and kind of AppliedManifestWork |
| `Objects.AppliedOwnerName` | pkg/ocm/ocm.go:63-76 | the name is that of the first owner reference to an AppliedManifestWork, and empty if there is none |
| `Objects.GetAppliedManifestWorkName` | pkg/ocm/ocm.go:63-72 | the loop returns that name |
| `Names.NameByParts` | pkg/util/utils.go:52-62 | the untruncated name is UID, group and version run together with upper-case letters shifted to lower, kind likewise, namespace and name, with dashes between |
| `Names.NameIsCut` | pkg/util/utils.go:63-75 | the WorkStatus name is the longest prefix of that with at most 253 characters |
| `Names.ParseFullName` | pkg/util/utils.go:52-64 | a parser recovers the five parts from an untruncated WorkStatus name |
| `Names.NameInjective` | pkg/util/utils.go:52-64 | for UIDs of equal length, dash-free kinds and namespaces and untruncated names: names equal iff all five parts are |
| `Names.NameInjectiveByFields` | pkg/util/utils.go:52-64 | the same for slash-free kinds, said with the fields: equal iff UID, namespace and name are equal, and group with version, and kind, but for case |
| `Names.DashedNamespaceCollides` | pkg/util/utils.go:52-64 | ("a-b", "c") and ("a", "b-c") get the same name, so the namespace must be dash-free |
| `Names.AmbiguousIffDashed` | pkg/util/utils.go:52-62 | before truncation, some other namespace and name give the same full name iff a dash occurs in the namespace or the name |
| `Names.NameAmbiguousIff` | pkg/util/utils.go:52-75 | some other namespace and name give the same WorkStatus name iff one of the two has a dash or the full name reaches 253 characters |
| `Names.TruncatedNamesCollide` | pkg/util/utils.go:63-75 | names that agree on the first 253 characters are the same WorkStatus name, however the objects' names go on |
| `SafeMaps.SafeMap.Set` | pkg/util/safemaps.go:22-26 | the map afterwards has the value under the key and is otherwise unchanged |
| `SafeMaps.SafeMap.Delete` | pkg/util/safemaps.go:28-32 | the map afterwards lacks the key and is otherwise unchanged |
| `SafeMaps.SafeMap.Get` | pkg/util/safemaps.go:34-39 | the value under the key, or that there is none |
| `SafeMaps.SafeUIDMap.AddUID` | pkg/util/safemaps.go:62-69 | the key's UID set gains the UID, all other sets stay |
| `SafeMaps.SafeUIDMap.DeleteUID` | pkg/util/safemaps.go:71-77 | the key's UID set loses the UID, no key appears or goes, all other sets stay |
| `SafeMaps.SafeUIDMap.GetUIDCount` | pkg/util/safemaps.go:79-86 | the size of the key's UID set, a missing one counting as empty |
| `SafeMaps.HasPrefixInMap` | pkg/util/safemaps.go:102-109 | true iff some key has the prefix, for every order of the keys |
| `Diff.ToMap` | pkg/util/utils.go:26-34 | the map has exactly the listed UIDs, each with the GVR of its last occurrence |
| `Diff.CollectRemoved` | pkg/util/utils.go:36-43 | for every order: the base-only UIDs once each with their GVRs, and the updated map less what both have |
| `Diff.CollectAll` | pkg/util/utils.go:44-48 | for every order: what is left of the updated map, once each with its GVR |
| `Diff.GetAddedRemovedInfo` | pkg/util/utils.go:13-49 | the result is one of the diffs `IsDiff` allows: early returns as in the code, otherwise the two set differences, duplicate-free, with last GVRs |
| `Diff.DiffUids` | pkg/util/utils.go:13-49 | on every path the added UIDs are exactly updated minus base and the removed ones base minus updated |
| `Diff.DiffOfDistinct` | pkg/util/utils.go:15-23 | for distinct UIDs the early returns meet the specification of the general path, so the results keep their GVRs |
| `Diff.DiffDistinctIff` | pkg/util/utils.go:13-49 | the added list repeats no UID iff the base is nonempty or the update repeats none; the removed one iff the base is empty, the update is not, or the base repeats none |
| `Diff.EarlyReturnKeepsDuplicates` | pkg/util/utils.go:18-23 | with a repeated UID the early return keeps the repetition while the general path keeps only the last GVR |
| `Diff.FoldReachesLast` | pkg/util/utils.go:13-49 | folding the diffs of any chain of updates over the first UID set yields the last |
| `Index.BootedByName` | pkg/agent/informers.go:14-26 | the agent starts with one informer, lister and stopper, for the AppliedManifestWork kind and resource by name, and nothing counted |
| `Index.StepWithSafe` | pkg/agent/informers.go:35-57 | no iteration panics, and each keeps: equal keys in informers, listers and stoppers; an informer iff a nonempty UID set; stored channels open and pairwise distinct |
| `Index.RunSafe` | pkg/agent/informers.go:28-146 | the same for every run of iterations, whatever the UIDs, the mapper's answers and the interleaving; no channel is closed twice and no stopper is missing |
| `Index.StepStopsAwIff` | pkg/agent/informers.go:103-125 | an iteration closes the channel then stored for the AppliedManifestWork kind iff it removes for that kind and leaves no UID |
| `Index.AwInformerSurvives` | pkg/agent/agent.go:148-151 | runs that never resolve to that kind leave its informer running and its channel open for the one close at shutdown |
| `Index.ShutdownPanicsIff` | pkg/agent/agent.go:148-151 | the close at shutdown is a second one iff the first iteration of the run on that kind is a removal |
| `Index.AwListedIff` | pkg/agent/informers.go:48-125 | the AppliedManifestWork lister is there at the end of a run iff the run has no iteration on that kind or leaves a UID of it counted |
| `AwInformer.ShutdownOfRunPanicsIff` | pkg/agent/agent.go:148-151 | the same condition over every run of events and loops |
| `AwInformer.AwListerOfRunGoneIff` | pkg/agent/informers.go:48-125 | the lister is gone after such a run iff some iteration resolved to that kind and none of its UIDs is counted |
| `AwInformer.StopBeforeStart` | pkg/agent/reconcilers.go:116-128 | a manifest that lists an AppliedManifestWork appears and goes, the stop overtakes the start, and shutdown panics |
| `AwInformer.StartLookupFails` | pkg/agent/informers.go:37-41 | ... or the lookup of the start fails, with the same end |
| `AwInformer.StartThenStop` | pkg/agent/informers.go:51-56 | ... and in the ordinary order shutdown is fine, the first informer runs on and the lister is gone |
| `Index.StepLeakIff` | pkg/agent/informers.go:48-56 | an iteration leaves a running informer whose channel is stored for no kind iff it adds to a kind with an informer and the set then has one UID |
| `Index.StepLosesIff` | pkg/agent/informers.go:48-56 | it leaves one that nothing will ever stop iff, moreover, the channel replaced is not the one that run() closes |
| `Index.ReaddLeaks` | pkg/agent/informers.go:51-56 | adding one UID twice to an empty kind leaves two informers running with one stopper |
| `Confluence.RunIteration` | pkg/agent/informers.go:35-57 | a loop's run from an index on is its next iteration and then the rest |
| `Confluence.StartIterations` | pkg/agent/informers.go:35-57 | a start makes, in order, one addition for each GVR before the first failed lookup whose kind is not excluded, and no other |
| `Confluence.StopIterations` | pkg/agent/informers.go:104-125 | a stop makes, in order, one removal for each GVR before the first failed lookup |
| `Confluence.ShuffleElements` | pkg/agent/reconcilers.go:110-111 | an interleaving has exactly the iterations of its loops |
| `Confluence.StepUids` | pkg/agent/informers.go:114-121 | one iteration on the UID sets; skipping a kind without informer equals deleting from its (empty) set |
| `Confluence.RunUidsExact` | pkg/agent/informers.go:35-125 | after any run a UID is counted iff the last iteration on it is an addition, or there is none and it was counted before |
| `Confluence.RunUids` | pkg/agent/informers.go:35-57 | a run in which no UID is both added and removed ends with each set plus what was added less what was removed |
| `Confluence.ShufflesAgree` | pkg/agent/informers.go:35-57 | any two interleavings of the same loops end with the same UID sets and the same kinds having an informer |
| `Confluence.InterleavingIsSequential` | pkg/agent/reconcilers.go:110-111 | any interleaving of any number of start and stop calls ends as if the calls were made one after another |
| `Confluence.ConflictingOrderMatters` | pkg/agent/reconcilers.go:110-111 | with a UID both added and removed the two orders differ in whether the kind has an informer |
| `LockSteps.TwoAddersStartNothing` | pkg/agent/informers.go:49-56 | at the granularity of the locks, a trace of two starts on an empty kind that both count two UIDs and start no informer |
| `LockSteps.TwoRemoversCloseTwice` | pkg/agent/informers.go:116-146 | ... and one of two stops that close one channel twice |
| `TwoLoops.TwoStartsIff` | pkg/agent/informers.go:49-56 | two starts on an empty kind, any schedule of their map operations: no panic, and in the end the kind has an informer iff the one that moved first also moved second |
| `TwoLoops.TwoStopsIff` | pkg/agent/informers.go:116-146 | two stops that together empty a kind: a schedule run to its end panics iff both deletions come before the first count, and otherwise the informer is stopped |
| `TwoLoops.StartBesideStop` | pkg/agent/informers.go:49-146 | a start that comes between a stop's count and its close: the stop closes the new channel, the kind counts a UID without informer, and the old informer runs on with its channel stored nowhere |
| `LockSteps.MicroSimulates` | pkg/util/safemaps.go:22-86 | each single map operation is, seen from whole iterations, one whole iteration or nothing |
| `LockSteps.Reduction` | pkg/util/safemaps.go:22-86 | if no two loops are inside an iteration on one kind, no schedule panics and each finished one leaves the state of some shuffle of whole iterations |
| `LockSteps.LockStepsAreSequential` | pkg/util/safemaps.go:22-86 | and so ends with the UID sets and informers of the calls made one after another |
| `Confluence.RunShape` | pkg/agent/informers.go:35-125 | what a run makes of a kind's UID set and informer depends on its iterations on that kind alone |
| `SerialLoops.SerialCallsInOrder` | pkg/util/safemaps.go:22-86 | where the calls on one kind run one after another, map operations on different kinds interleaving at will, the outcome is that of the calls in that order, conflicting UIDs and the AppliedManifestWork kind included |
| `Tracking.EveryRunSafe` | pkg/agent/reconcilers.go:75-131 | in every run of events and loop iterations: no panic of close or of the stopper assertion, counts and informers agree, channels safe, tracked lists nonempty and aligned |
| `Tracking.DiffListed` | pkg/agent/reconcilers.go:107-111 | every list handed to startInformers or stopInformers has as many UIDs as GVRs, and each pair comes from one resource of an earlier event |
| `Tracking.HandleEnabled` | pkg/agent/reconcilers.go:100-114 | the machine takes exactly the diffs the code can compute, and for every event there is one, so it never gets stuck on an event |
| `Tracking.ReorderingStartsNothing` | pkg/agent/reconcilers.go:100-113 | an update that permutes distinct UIDs is recorded and gives both loops nothing to do |
| `Refinement.HeldUnique` | pkg/agent/reconcilers.go:84-128 | of all entries the index stands for at any point of a run, no two share a UID |
| `Refinement.PopHeld` | pkg/agent/informers.go:35-57 | an iteration of a start adds its entry to those, one of a stop takes it out, and nothing else changes |
| `Refinement.IterateRefines` | pkg/agent/informers.go:35-125 | every loop iteration keeps the index in agreement with the tracked lists and the loops in progress |
| `IndexRefinement.DiffEntries` | pkg/util/utils.go:13-49 | when UIDs keep their GVRs, the diff's (UID, GVR) pairs are the two differences of the pairs |
| `IndexRefinement.HandleRefines` | pkg/agent/reconcilers.go:75-131 | every event keeps that agreement |
| `IndexRefinement.RunRefines` | pkg/agent/reconcilers.go:75-131 | so does every run under the hypotheses |
| `IndexRefinement.IndexRefinesTracked` | pkg/agent/reconcilers.go:84-128 | once the loops have drained, each kind's UID set equals the one recomputed from all tracked manifests less excluded kinds, and the kind has an informer iff it is nonempty |
| `IndexRefinement.RunningAreStored` | pkg/agent/informers.go:48-100 | at every point of such a run the running informers are exactly those with a stored channel, one for each registered kind |
| `SharedUids.LoopsReachForecast` | pkg/agent/reconcilers.go:110-127 | loops with disjoint UIDs, in any interleaving, end with the UID sets and tracked manifests forecast at their start |
| `SharedUids.EventKeepsAgreementIff` | pkg/agent/reconcilers.go:75-131 | from a drained state whose UID sets equal the recomputed ones, any event with any UIDs leads to such a state again iff, for each kind, nothing it stops is counted for another manifest, nothing stays counted that no list has, and nothing listed goes uncounted |
| `SharedUids.SharedDropBreaksIff` | pkg/agent/reconcilers.go:100-128 | where a UID is one resource within the manifest: iff no entry it drops is listed, under the same kind, by another tracked manifest |
| `FailedLookups.DoneDecides` | pkg/agent/informers.go:37-41 | whatever lookups fail, each UID set ends with what was there and the starts got done, less what the stops got done |
| `FailedLookups.FaultyEventAgreesIff` | pkg/agent/reconcilers.go:75-131 | one event, with lookups failing: agreement is kept iff, for each kind, what the loops got done fits the lists |
| `FailedLookups.CutOffBreaksIff` | pkg/agent/informers.go:104-110 | where a UID is one resource within the manifest: iff every entry of a watched kind that was cut off is listed by another manifest under the same kind, and none that was stopped is |
| `Watching.ListedObjectsAreFound` | pkg/util/unstructured.go:110-130 | after any drained run under the hypotheses, an object of a listed, watched kind has a lister of its very kind, and its queue key reads its entry in that lister's cache |
| `LatestLists.IndexRefinesLists` | pkg/agent/reconcilers.go:84-128 | the drained index counts the UIDs in each manifest's latest nonempty list since it was last deleted, read off the events alone |
| `LatestLists.EmptyUpdateIgnoredIff` | pkg/agent/reconcilers.go:86-91 | it counts those of the latest lists iff no list that had a resource of a watched kind was emptied |
| `Outcomes.ManagedIff` | pkg/agent/reconcilers.go:23-27 | a ManifestWork is KubeStellar's iff some label key starts with one of the two prefixes, given in full |
| `Outcomes.CreateMeans` | pkg/agent/reconcilers.go:226-228 | a Create takes effect iff the key is free and it does not fail before, and reports an error iff it failed or the key was taken |
| `Outcomes.UpdateMeans` | pkg/agent/reconcilers.go:234-256 | a patch or status update changes just that label or status of an existing WorkStatus, unless it fails before |
| `Outcomes.DeleteMeans` | pkg/agent/reconcilers.go:161-165 | a Delete removes just that WorkStatus, unless it fails before, and reports an error iff it failed or there was none |
| `Outcomes.UpsertSucceedsIff` | pkg/agent/reconcilers.go:170-258 | an attempt for a live object succeeds iff each call it has to make goes through, its ManifestWork can be had where the WorkStatus is missing, and, unless that is not KubeStellar's, the kind is known and the object has a status |
| `Outcomes.UpdatedByFields` | pkg/agent/reconcilers.go:234-258 | success on an existing WorkStatus: status and singleton label are the object's, all else is as it was |
| `Outcomes.CreatedByFields` | pkg/agent/reconcilers.go:171-258 | success without one: none is made for a ManifestWork that is not KubeStellar's; otherwise owner, labels, each field of the source, time and status are as told |
| `Outcomes.SuccessReportsStatus` | pkg/util/unstructured.go:132-152 | whatever calls fail, success with the WorkStatus there means the object is unstructured with a status, and that status is reported |
| `Outcomes.DeletionByFields` | pkg/agent/reconcilers.go:155-168 | a deletion succeeds iff the AppliedManifestWork is found and the Get does not fail, and touches only its WorkStatus |
| `WorkStatuses.UpsertTowardGoal` | pkg/agent/reconcilers.go:170-258 | whatever calls fail, with or without effect: the goal for the object stays the same, success means it was reached, and once reached it is not left |
| `WorkStatuses.LabelAndReportTowardGoal` | pkg/agent/reconcilers.go:234-258 | the last two calls on an existing WorkStatus move it toward the goal and touch no other |
| `Retry.HandleTowardGoal` | pkg/agent/reconcilers.go:133-259 | the same for both branches of handleWorkStatus; without failures it succeeds iff the goal is attainable |
| `Retry.RetryConverges` | pkg/agent/reconcilers.go:133-259 | attempts until one succeeds leave the hub a single failure-free run would; they do succeed if that run would and one attempt meets no failure; together they create at most one WorkStatus |
| `Retry.DeletionLostIff` | pkg/agent/reconcilers.go:155-168 | a deletion is reported done with the WorkStatus still there iff it was there, the Get went through and the Delete failed before its effect |
| `Retry.DeletionTargetsCreation` | pkg/util/unstructured.go:70-103 | the copy queued for a deleted object has the live object's owner, WorkStatus name and queue key |
| `Retry.CreateThenDelete` | pkg/agent/reconcilers.go:155-168 | creating for the live object and deleting for its copy, each with any failures, leaves the WorkStatuses that were there, less the object's |
| `Retry.HandleFrame` | pkg/agent/reconcilers.go:133-259 | an attempt changes no WorkStatus but the object's own and no ManifestWork |
| `Workers.AloneIsHandle` | pkg/agent/reconcilers.go:133-259 | hub call by hub call, an attempt left to itself does what handleWorkStatus does in one go |
| `Workers.SeenLabelsDecide` | pkg/agent/reconcilers.go:234-244 | whether to patch is decided by the WorkStatus as the attempt has read or made it, not as the hub has it by then |
| `Workers.CallCloser` | pkg/agent/reconcilers.go:155-258 | amid other attempts for the same object, each call leaves the goal as it is, loses nothing of what is reached, and ends well only at the goal |
| `Workers.WorkersConverge` | pkg/agent/reconcilers.go:133-259 | any number of attempts for one object, all live or all deletions, interleaved call by call with any failures, create at most one WorkStatus; once one has ended well the hub is and stays that of one failure-free run |
| `MixedWorkers.LastEffectDecides` | pkg/agent/reconcilers.go:155-228 | any number of live and deletion attempts for one WorkStatus, interleaved with any failures: it is there in the end iff the last Create or Delete that took effect is a Create, or none did and it was there before |
| `MixedWorkers.StaleCreateSurvives` | pkg/agent/reconcilers.go:155-228 | a live attempt overtaken by the deletion of its object: no call fails, both end well, and the WorkStatus is there |
| `MixedWorkers.AnyObjectCanBeOvertaken` | pkg/agent/reconcilers.go:133-168 | any object of a proper scene can have two such attempts |
| `Provenance.JobKeepsOrMakes` | pkg/agent/reconcilers.go:170-244 | one call keeps owner, source and KubeStellar label of every WorkStatus, or made it: in the cluster's namespace, under the built name, for a ManifestWork with a KubeStellar label |
| `Provenance.MadeByFields` | pkg/agent/reconcilers.go:187-221 | what it made, field by field: key, owner, and each field of the source |
| `Provenance.EveryWorkStatusExplained` | pkg/agent/reconcilers.go:170-244 | over every run, each WorkStatus on the hub was there before with the same owner and source, or was made by one of the calls and carries a KubeStellar label from then on |
| `Drain.DrainConverges` | pkg/agent/reconcilers.go:30-72 | any order of the queued keys, with any failures and retries, ends with each object's WorkStatus at its goal and all else untouched |
| `Drain.DrainOrderIrrelevant` | pkg/agent/agent.go:227-280 | two drains of one queue, in whatever order and with whatever failures, leave the same hub |
| `Drain.DrainedHubReports` | pkg/agent/reconcilers.go:30-72 | that hub: a present object's WorkStatus has the status of the object, which has one, and its singleton label; a gone object's is gone |
| `Drain.IdleKeyLeaves` | pkg/agent/reconcilers.go:32-64 | a key whose object is gone and that carries none, one without a lister, and one of an object without owner leave the queue, and the hub stays |
| `Drain.MalformedKeyStays` | pkg/agent/reconcilers.go:49-51 | a malformed key stays queued, and the hub stays |
| `Drain.LiveKeyByLookup` | pkg/agent/reconcilers.go:61-71 | a key whose owned object is cached leaves iff handling the object succeeds |
| `Drain.DeletionKeyByLookup` | pkg/agent/reconcilers.go:38-71 | a key that carries its gone, owned object leaves iff the deletion got through its lookups, and then, unless the Delete failed before its effect, no WorkStatus has the object's name |
| `Drain.NoKeyLost` | pkg/agent/agent.go:255-271 | at any point of a drain a key is still queued, or asks for nothing, or has its WorkStatus at the goal |
| `Collisions.CollidingNamesOrderMatters` | pkg/agent/reconcilers.go:147-168 | with a deleted and a live object sharing a WorkStatus name, the order of their keys decides whether it exists in the end |
| `Collisions.FirstOwnsLastReports` | pkg/agent/reconcilers.go:170-253 | two live objects sharing a WorkStatus name: the WorkStatus reports the status of the one taken last, and if it was not there has owner and source of the one taken first |
| `Collisions.TwinsAgreeIff` | pkg/agent/reconcilers.go:170-253 | the order of two such objects does not matter iff their statuses are equal, their singleton labels do not contradict, and, if the WorkStatus is still to be made, ManifestWork and source are equal |
| `Collisions.TwinDrainsAgreeIff` | pkg/agent/agent.go:227-280 | the same condition for the two drains of their keys |
| `Collisions.DeletionAndLiveAgreeIff` | pkg/agent/reconcilers.go:155-184 | a deletion and a live object sharing a WorkStatus: the order does not matter iff, once gone, the WorkStatus would not be made again |
| `Collisions.DeletionsAgree` | pkg/agent/reconcilers.go:155-168 | two deletions never disagree |
| `Collisions.DashedNamesCollide` | pkg/util/utils.go:52-64 | a deleted "a-b"/"c" and a live "a"/"b-c" of one kind under one AppliedManifestWork do share a name that way |
| `Collisions.DashedNamesAreTwins` | pkg/util/utils.go:52-64 | and so do the two when both are live |
| `Drain.HealthyKeyLeaves` | pkg/agent/agent.go:255-271 | a key whose goal is attainable leaves the queue on an attempt without failures |
| `Drain.DrainTerminates` | pkg/agent/agent.go:227-280 | steps taken plus keys still queued never exceed the keys at the start plus the steps that met a failure |
| `Drain.DrainCompletes` | pkg/agent/agent.go:227-280 | after that many steps the queue is empty |
| `StatusAgent.Agent.constructor` | pkg/agent/agent.go:95-118 | a new agent with the AppliedManifestWork informer started is in the machine's first state |
| `StatusAgent.Agent.StartInformer` | pkg/agent/informers.go:60-101 | the three maps get the kind's entry and its informer runs |
| `StatusAgent.Agent.StopInformer` | pkg/agent/informers.go:134-146 | the channel is closed and the three entries are gone |
| `StatusAgent.Agent.AddOne` | pkg/agent/informers.go:48-56 | one iteration on a counted kind is an Add step of the machine |
| `StatusAgent.Agent.StartOne` | pkg/agent/informers.go:43-56 | the seven excluded kinds change nothing; for any other slash-free kind the UID is counted by an Add step |
| `StatusAgent.Agent.RemoveOne` | pkg/agent/informers.go:112-124 | one iteration is a Remove step of the machine |
| `StatusAgent.Agent.StartEach` | pkg/agent/informers.go:35-57 | the loop is the run of the call's iterations, up to the first failed lookup |
| `StatusAgent.Agent.StartInformers` | pkg/agent/informers.go:28-58 | the mapper is replaced first; the call crashes iff discovery failed and there is a GVR to look up, and otherwise is the run of its iterations |
| `StatusAgent.Agent.StopEach` | pkg/agent/informers.go:104-125 | the loop is the run of the call's iterations and says whether every lookup succeeded |
| `StatusAgent.Agent.StopInformers` | pkg/agent/informers.go:103-132 | as above, with the mapper replaced only if every lookup succeeded |
| `StatusAgent.Agent.RunLaunched` | pkg/agent/reconcilers.go:110-118 | a launched call leaves the list of those, and then all is as for startInformers, the crash without a mapper included |
| `StatusAgent.Agent.HandleAppliedManifestWork` | pkg/agent/reconcilers.go:74-131 | every branch of the event handler: what is tracked, launched, stopped and reported; of manifests that can be converted exactly those that are there with an empty list are requeued |
| `AgentOutcomes.AppliedByFields` | pkg/agent/reconcilers.go:84-118 | a manifest with resources: tracked with their UIDs, groups, versions and resources in order; new, unchanged and changed lists told apart, with what is launched and stopped for each |
| `AgentOutcomes.EmptyByFields` | pkg/agent/reconcilers.go:88-91 | one without: nothing changes and it is requeued |
| `AgentOutcomes.GoneByFields` | pkg/agent/reconcilers.go:119-128 | one that is gone: what it listed is stopped, and it is tracked no more unless the stop crashed |
| `StatusAgent.Agent.UpdateTracked` | pkg/agent/reconcilers.go:100-113 | an update records the new list, launches the start of an added diff and stops the removed one |
| `StatusAgent.Agent.HandleWorkStatus` | pkg/agent/reconcilers.go:133-259 | the sequence of hub calls has the outcome of the specification, for every failure of every call; it crashes iff it gets to a lookup in a missing REST mapper |
| `StatusAgent.Agent.RemoveWorkStatus` | pkg/agent/reconcilers.go:155-168 | the deletion branch, its dropped error included |
| `StatusAgent.Agent.MakeWorkStatus` | pkg/agent/reconcilers.go:171-232 | the creation branch: every early return, and the created object field by field |
| `StatusAgent.Agent.LabelAndReport` | pkg/agent/reconcilers.go:234-258 | the label patch, if needed, then the status update |
| `StatusAgent.Agent.Reconcile` | pkg/agent/reconcilers.go:29-72 | a manifest's key changes no WorkStatus and any other key leaves the informers and tracked manifests alone; requeue and error are said by what the key's lookup finds |
| `StatusAgent.Agent.ObjectFor` | pkg/agent/reconcilers.go:30-52 | the cached object, or the deleted one the key carries if none is cached; otherwise done with, or an error for a malformed key |
| `StatusAgent.Agent.ReconcileObject` | pkg/agent/reconcilers.go:54-72 | manifests, managed workloads and everything else are told apart |
| `StatusAgent.Agent.EnqueueObject` | pkg/agent/agent.go:188-215 | the key goes in plain, with a stripped copy if the object is gone, or not at all without a lister or under a malformed key |
| `StatusAgent.Agent.ProcessNextWorkItem` | pkg/agent/agent.go:227-280 | some queued key is reconciled, with what that does to the maps or the hub, and leaves the queue iff it neither failed nor asked for another try; by what its lookup finds: no lister, a gone object it does not carry and an object without owner leave, a malformed key and a manifest with an empty list stay |
| `StatusAgent.Agent.SyncKey` | pkg/agent/agent.go:234-272 | the part of it that puts the key back |
| `AgentRuns.LoopRuns` | pkg/agent/informers.go:35-57 | a thread's loop in the machine does to the index what the call's iterations do |
| `AgentRuns.HandlingIsARun` | pkg/agent/reconcilers.go:84-130 | handling an event with the agent object is a run of the machine, so what every run keeps holds of the object |
| `AgentRuns.LaunchedIsARun` | pkg/agent/reconcilers.go:110-118 | so is a launched start |
| `AgentRuns.AgentIsARun` | pkg/agent/reconcilers.go:75-131 | any sequence of calls on a new agent object, launched calls run in any order, is a run of the machine on the same events, with what is launched and not yet run the loops the machine has still to run |
| `AgentRuns.SharedUidBreaksRefinement` | pkg/agent/reconcilers.go:119-128 | two manifests list one UID and one manifest goes: drained, the other is still tracked, yet its kind has no UID and no informer |

## Left out

- The mutex of SafeMap and SafeUIDMap, and ListValues (pkg/util/safemaps.go:41-49), which only the wait for cache sync uses. A method call is one atomic step.
- The Go scheduler inside the class: `StatusAgent.Agent` runs one goroutine at a time. Interleavings of the loops are the subject of `Confluence`, `LockSteps`, `TwoLoops`, `SerialLoops` and `Tracking`, and those of attempts for one WorkStatus of `Workers` (all live or all deletions) and `MixedWorkers` (both); `Drain` and `Provenance` take an attempt as one step.
- Which schedules of a start beside a stop of one kind go wrong at the granularity of the locks: one that does is given (`TwoLoops.StartBesideStop`), and that keeping them apart is enough is proved.
- Changes of the listers within one `reconcile`, and changes of the hub by others within one attempt. Between attempts `Provenance` lets the ManifestWorks change; other writers of WorkStatuses are not modelled, and a resource version conflict is one of the transient failures.
- client-go: event delivery by informers, deduplication, rate limiting and the processing set of the work queue (a multiset here), the discovery behind the REST mapper (a partial map that may be absent).
- `shouldSkipUpdate` and `shouldSkipDelete` (pkg/agent/agent.go:282-292): a comparison and a constant.
- Start, run and runWorker beyond the first informer and the close at shutdown: contexts, timeouts, worker spawning, cache sync.
- Logging, and `GenerateObjectInfoString`.
- `IsListerNotFound` tells errors apart by their text (pkg/util/utils.go:66-68); here a missing lister is a result of its own.
- Objects as maps of JSON values: status is an opaque value that may be absent, conversion to AppliedManifestWork may fail, copies are values. So the label map that a new WorkStatus shares with the ManifestWork just fetched (pkg/agent/reconcilers.go:195-201) is not seen to be shared.
- Failure of `SetControllerReference` (pkg/agent/reconcilers.go:188-190) for reasons other than the hub.
- Go strings as bytes: lowering is that of ASCII, and truncation counts characters.
- Labels of a ManifestWork that change after the WorkStatus was made, and removal of the singleton label: the code does not follow them.
- Deletion of WorkStatuses by the hub through owner references.
- The command, the manager, the add-on controller, roles and observability packages: flags, deployment and client plumbing.
