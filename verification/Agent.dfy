// The agent object of pkg/agent, its maps updated in place, one goroutine at a time; what its
// methods do is tied to the machines of the other modules, where interleaving is studied.

module StatusAgent {
  import opened Base
  import opened Schema
  import opened Names
  import opened SafeMaps
  import opened Diff
  import opened Objects
  import Index
  import opened Confluence
  import opened Tracking
  import H = Hub
  import W = WorkStatuses
  import opened Drain

  // A REST mapper: KindFor and RESTMapping, each failing where it has no entry.
  datatype Mapper = Mapper(kinds: RestMapper, resources: map<GVK, GVR>)

  // Crashed is a call through a nil REST mapper, which a failed discovery leaves behind.
  datatype Exit = Done | Failed | Crashed

  class Agent {
    const clusterName: string
    const listers: SafeMap<Index.Lister>
    const informers: SafeMap<Index.Informer>
    const stoppers: SafeMap<nat>
    const trackedAppliedManifests: SafeMap<AppliedManifestInfo>
    const objectsCount: SafeUIDMap
    const hubClient: H.Client
    var restMapper: Option<Mapper>
    var workqueue: multiset<Key>
    // startInformers calls launched with go and not yet run
    var launched: seq<AppliedManifestInfo>
    // the next channel make(chan) will yield; those of running informers; those closed
    var nextChannel: nat
    ghost var running: set<nat>
    ghost var closed: set<nat>

    ghost predicate Separate() {
      && informers as object != listers && stoppers as object != listers && stoppers as object != informers
      && trackedAppliedManifests as object != listers && trackedAppliedManifests as object != informers
      && trackedAppliedManifests as object != stoppers
      && objectsCount as object != this && hubClient as object != this
      && listers as object != this && informers as object != this && stoppers as object != this
      && trackedAppliedManifests as object != this
    }

    ghost function State(): Index.State
      reads this`running, this`closed, this`nextChannel, listers, informers, stoppers, objectsCount
    {
      Index.State(objectsCount.v, informers.v, listers.v, stoppers.v, running, closed, nextChannel)
    }

    ghost predicate Valid()
      reads this, listers, informers, stoppers, objectsCount, trackedAppliedManifests
    {
      && Separate()
      && Index.Consistent(State()) && Index.Bounded(State())
      && AllAligned(trackedAppliedManifests.v)
      && forall i :: 0 <= i < |launched| ==> Aligned(launched[i])
    }

    // NewAgent, and the start of the AppliedManifestWork informer
    constructor (clusterName: string, restMapper: Mapper, hubClient: H.Client)
      ensures Valid() && State() == Index.BOOTED
      ensures this.clusterName == clusterName && this.restMapper == Some(restMapper) && this.hubClient == hubClient
      ensures trackedAppliedManifests.v == map[] && workqueue == multiset{} && launched == []
    {
      this.clusterName, this.restMapper, this.hubClient := clusterName, Some(restMapper), hubClient;
      listers := new SafeMap();
      informers := new SafeMap();
      stoppers := new SafeMap();
      trackedAppliedManifests := new SafeMap();
      objectsCount := new SafeUIDMap();
      workqueue, launched := multiset{}, [];
      nextChannel, running, closed := 1, {}, {};
      new;
      Index.BootedConsistent();
      StartInformer(APPLIED_MANIFEST_WORK_GVR, AW_KEY, 0);
    }

    // ----- informers.go -----

    method StartInformer(gvr: GVR, key: string, stopper: nat)
      requires Separate()
      modifies this`running, informers, listers, stoppers
      ensures State() == Index.StartInformer(old(State()), key, gvr, stopper)
    {
      informers.Set(key, Index.Informer(gvr, stopper));
      listers.Set(key, Index.Lister(gvr, stopper));
      stoppers.Set(key, stopper);
      running := running + {stopper};
    }

    // The requires are what close and the type assertion demand; Valid agents meet them.
    method StopInformer(key: string)
      requires Separate() && key in stoppers.v && stoppers.v[key] !in closed
      modifies this`running, this`closed, informers, listers, stoppers
      ensures Index.Fine(State()) == Index.StopInformer(old(State()), key)
    {
      var stopper := stoppers.Get(key);
      closed := closed + {stopper.value};
      running := running - {stopper.value};
      informers.Delete(key);
      listers.Delete(key);
      stoppers.Delete(key);
    }

    // One iteration of startInformers on a kind that is not excluded.
    method AddOne(gvr: GVR, key: string, uid: string)
      requires Separate()
      modifies this`running, this`nextChannel, informers, listers, stoppers, objectsCount
      ensures Index.Fine(State()) == Index.Step(old(State()), Index.Add(key, gvr, uid))
    {
      ghost var s := State();
      objectsCount.AddUID(key, uid);
      var count := objectsCount.GetUIDCount(key);
      assert State() == s.(counts := Added(s.counts, key, uid));
      if count == 1 {
        var stopper := nextChannel;
        nextChannel := nextChannel + 1;
        StartInformer(gvr, key, stopper);
      }
    }

    // One iteration of startInformers once the kind is known.
    method StartOne(gvr: GVR, gvk: GVK, uid: string, ghost call: Call)
      requires Valid() && call.Start?
      modifies this`running, this`nextChannel, informers, listers, stoppers, objectsCount
      ensures Valid()
      ensures var ops := OpsOf(call, gvr, gvk, uid);
              if ops == [] then State() == old(State()) else Index.Step(old(State()), ops[0]) == Index.Fine(State())
      ensures gvk in EXCLUDED_KINDS ==> State() == old(State())
      ensures SlashFreeKind(gvk) && gvk !in EXCLUDED_KINDS ==> uid in Uids(State().counts, KindKey(gvk))
    {
      WatchedIff(gvk);
      if Excluded(gvk) {
        return;
      }
      Index.StepSafe(State(), Index.Add(KindKey(gvk), gvr, uid));
      AddOne(gvr, KindKey(gvk), uid);
    }

    // One iteration of stopInformers.
    method RemoveOne(key: string, uid: string)
      requires Valid()
      modifies this`running, this`closed, informers, listers, stoppers, objectsCount
      ensures Valid() && Index.Fine(State()) == Index.Step(old(State()), Index.Remove(key, uid))
    {
      ghost var s := State();
      Index.StepSafe(s, Index.Remove(key, uid));
      var informer := informers.Get(key);
      if informer.None? {
        return;
      }
      objectsCount.DeleteUID(key, uid);
      var count := objectsCount.GetUIDCount(key);
      assert State() == s.(counts := Removed(s.counts, key, uid));
      if count == 0 {
        StopInformer(key);
      }
    }

    // The loop of startInformers over a mapper that is there: the run of the call's iterations.
    method StartEach(gvrs: seq<GVR>, uids: seq<string>, kinds: RestMapper)
      requires Valid() && |gvrs| <= |uids|
      modifies this`running, this`nextChannel, informers, listers, stoppers, objectsCount
      ensures Valid()
      ensures Index.Run(old(State()), Iterations(kinds, Start(AppliedManifestInfo(uids, gvrs)))) == Index.Fine(State())
    {
      ghost var call := Start(AppliedManifestInfo(uids, gvrs));
      ghost var whole := Index.Run(State(), Iterations(kinds, call));
      for i := 0 to |gvrs|
        invariant Valid() && Index.Run(State(), IterationsFrom(kinds, call, i)) == whole
      {
        if gvrs[i] !in kinds {
          return;
        }
        ghost var before := State();
        StartOne(gvrs[i], kinds[gvrs[i]], uids[i], call);
        RunIteration(before, State(), kinds, call, i);
      }
    }

    /** discovered is what getRestMapper came back with; without a mapper the first lookup crashes. */
    method StartInformers(gvrs: seq<GVR>, uids: seq<string>, discovered: Option<Mapper>) returns (exit: Exit)
      requires Valid() && |gvrs| <= |uids|
      modifies this`restMapper, this`running, this`nextChannel, informers, listers, stoppers, objectsCount
      ensures Valid() && restMapper == discovered
      ensures exit == if discovered.None? && gvrs != [] then Crashed else Done
      ensures match discovered
              case None => State() == old(State())
              case Some(mapper) =>
                Index.Run(old(State()), Iterations(mapper.kinds, Start(AppliedManifestInfo(uids, gvrs)))) == Index.Fine(State())
    {
      restMapper := discovered;
      if restMapper.None? {
        return if gvrs == [] then Done else Crashed;
      }
      StartEach(gvrs, uids, restMapper.value.kinds);
      return Done;
    }

    // The loop of stopInformers, which tells whether every lookup succeeded.
    method StopEach(info: AppliedManifestInfo, kinds: RestMapper) returns (finished: bool)
      requires Valid() && |info.gvrs| <= |info.uids|
      modifies this`running, this`closed, informers, listers, stoppers, objectsCount
      ensures Valid() && (finished <==> forall gvr :: gvr in info.gvrs ==> gvr in kinds)
      ensures Index.Run(old(State()), Iterations(kinds, Stop(info))) == Index.Fine(State())
    {
      ghost var whole := Index.Run(State(), Iterations(kinds, Stop(info)));
      for i := 0 to |info.gvrs|
        invariant Valid() && Index.Run(State(), IterationsFrom(kinds, Stop(info), i)) == whole
        invariant forall j :: 0 <= j < i ==> info.gvrs[j] in kinds
      {
        if info.gvrs[i] !in kinds {
          assert info.gvrs[i] in info.gvrs;
          return false;
        }
        ghost var before := State();
        RemoveOne(KindKey(kinds[info.gvrs[i]]), info.uids[i]);
        RunIteration(before, State(), kinds, Stop(info), i);
      }
      assert forall gvr :: gvr in info.gvrs ==> gvr in kinds;
      return true;
    }

    /** The mapper is replaced at the end, unless a lookup failed and the loop returned early. */
    method StopInformers(info: AppliedManifestInfo, discovered: Option<Mapper>) returns (exit: Exit)
      requires Valid() && |info.gvrs| <= |info.uids|
      modifies this`restMapper, this`running, this`closed, informers, listers, stoppers, objectsCount
      ensures Valid()
      ensures exit == if old(restMapper).None? && info.gvrs != [] then Crashed else Done
      ensures restMapper == if forall gvr :: gvr in info.gvrs ==> old(restMapper).Some? && gvr in old(restMapper).value.kinds
                            then discovered else old(restMapper)
      ensures match old(restMapper)
              case None => State() == old(State())
              case Some(mapper) => Index.Run(old(State()), Iterations(mapper.kinds, Stop(info))) == Index.Fine(State())
    {
      var finished := info.gvrs == [];
      if restMapper.None? {
        if !finished {
          assert info.gvrs[0] in info.gvrs;
          return Crashed;
        }
      } else {
        finished := StopEach(info, restMapper.value.kinds);
      }
      if finished {
        restMapper := discovered;
      }
      return Done;
    }

    // a goroutine launched earlier gets to run
    method RunLaunched(i: nat, discovered: Option<Mapper>) returns (exit: Exit)
      requires Valid() && i < |launched|
      modifies this`restMapper, this`running, this`nextChannel, this`launched, informers, listers, stoppers, objectsCount
      ensures Valid() && launched == old(launched)[..i] + old(launched)[i + 1..] && restMapper == discovered
      ensures exit == if discovered.None? && old(launched)[i].gvrs != [] then Crashed else Done
      ensures match discovered
              case None => State() == old(State())
              case Some(mapper) =>
                Index.Run(old(State()), Iterations(mapper.kinds, Start(old(launched)[i]))) == Index.Fine(State())
    {
      var info := launched[i];
      launched := launched[..i] + launched[i + 1..];
      exit := StartInformers(info.gvrs, info.uids, discovered);
    }

    // ----- reconcilers.go -----

    /** Which plan, and how it was carried out; diff is what GetAddedRemovedInfo returned, if called. */
    method HandleAppliedManifestWork(obj: Object, isBeingDeleted: bool, discovered: Option<Mapper>)
      returns (requeue: bool, exit: Exit, ghost diff: Change)
      requires Valid()
      modifies this`restMapper, this`running, this`closed, this`launched, informers, listers, stoppers, objectsCount,
               trackedAppliedManifests
      ensures Valid()
      ensures ManifestHandled(obj, isBeingDeleted, diff, old(restMapper), old(Shot()), Shot(), requeue, exit)
      ensures ManifestAnswered(obj, isBeingDeleted, requeue, exit)
    {
      diff := Change(EMPTY_INFO, EMPTY_INFO);
      exit, requeue := Done, false;
      var aWork := ToAppliedManifestWork(obj);
      if aWork.None? {
        return true, Failed, diff;
      }
      if !isBeingDeleted {
        var gvrs := ListGVRs(aWork.value.content.appliedResources);
        if |gvrs| == 0 {
          return true, Done, diff;
        }
        var uids := GetTrackedObjectsUID(aWork.value.content.appliedResources);
        var info := AppliedManifestInfo(uids, gvrs);
        var oldInfo := trackedAppliedManifests.Get(obj.name);
        if oldInfo.Some? {
          if info == oldInfo.value {
            return;
          }
          exit, diff := UpdateTracked(obj.name, oldInfo.value, info, discovered);
        } else {
          trackedAppliedManifests.Set(obj.name, info);
          launched := launched + [info];
        }
      } else {
        var oldInfo := trackedAppliedManifests.Get(obj.name);
        if oldInfo.None? {
          return;
        }
        exit := StopInformers(oldInfo.value, discovered);
        if exit == Done {
          trackedAppliedManifests.Delete(obj.name);
        }
      }
    }

    // The branch for a manifest that is already tracked with another list.
    method UpdateTracked(name: string, oldInfo: AppliedManifestInfo, info: AppliedManifestInfo, discovered: Option<Mapper>)
      returns (exit: Exit, ghost diff: Change)
      requires Valid() && Aligned(oldInfo) && Aligned(info) && info.uids != []
      modifies this`restMapper, this`running, this`closed, this`launched, informers, listers, stoppers, objectsCount,
               trackedAppliedManifests
      ensures Valid()
      ensures IsDiff(oldInfo, info, diff.added, diff.removed) && Aligned(diff.added) && Aligned(diff.removed)
      ensures trackedAppliedManifests.v == old(trackedAppliedManifests.v)[name := info]
      ensures launched == old(launched) + [diff.added]
      ensures Stopped(old(restMapper), diff.removed, old(State()), State())
      ensures exit == if old(restMapper).None? && diff.removed.gvrs != [] then Crashed else Done
    {
      var added, removed := GetAddedRemovedInfo(oldInfo, info);
      diff := Change(added, removed);
      DiffListed(oldInfo, info, diff, Elements(Entries(oldInfo)) + Elements(Entries(info)));
      trackedAppliedManifests.Set(name, info);
      launched := launched + [added];
      exit := StopInformers(removed, discovered);
    }

    ghost function Env(cluster: Cluster): W.Env
      reads this`restMapper, listers
    {
      W.Env(clusterName, listers.v, cluster, if restMapper.Some? then restMapper.value.resources else map[])
    }

    /** The WorkStatus object is filled in field by field and the hub changed call by call. */
    method HandleWorkStatus(obj: Object, isBeingDeleted: bool, cluster: Cluster, f: W.Faults) returns (exit: Exit)
      requires Valid()
      modifies hubClient
      ensures W.Handled(hubClient.hub, exit == Done) == W.HandleWorkStatus(Env(cluster), old(hubClient.hub), obj, isBeingDeleted, f)
      ensures exit == Crashed <==> restMapper.None? && W.AsksMapper(Env(cluster), old(hubClient.hub), obj, isBeingDeleted, f)
    {
      var aWork := GetAppliedManifestWork(obj, listers.v, cluster);
      if aWork.None? {
        return Failed;
      }
      var key := H.ObjectKey(clusterName, BuildWorkstatusName(aWork.value.uid, obj.gvk, obj.namespace, obj.name));
      if isBeingDeleted {
        exit := RemoveWorkStatus(key, f);
        return;
      }
      var workStatus := H.ZERO_WORK_STATUS;
      var got := hubClient.GetWorkStatus(key, f.get);
      if got.NotGot? {
        if got.error != H.Error.NotFound {
          return Failed;
        }
        var made;
        made, exit := MakeWorkStatus(key, aWork.value, obj, f);
        if made.None? {
          return;
        }
        workStatus := made.value;
      } else {
        workStatus := got.value;
      }
      exit := LabelAndReport(key, workStatus, obj, f);
    }

    method RemoveWorkStatus(key: H.ObjectKey, f: W.Faults) returns (exit: Exit)
      modifies hubClient
      ensures exit != Crashed && W.Handled(hubClient.hub, exit == Done) == W.DeleteWorkStatus(old(hubClient.hub), key, f)
    {
      var got := hubClient.GetWorkStatus(key, f.get);
      if got.NotGot? && got.error != H.Error.NotFound {
        return Failed;
      }
      var error := hubClient.DeleteWorkStatus(key, f.delete);
      return Done;
    }

    // The branch for a WorkStatus that is not there yet; None when the caller is to return.
    method MakeWorkStatus(key: H.ObjectKey, aWork: AppliedManifestWork, obj: Object, f: W.Faults)
      returns (made: Option<H.WorkStatus>, exit: Exit)
      modifies hubClient
      ensures var mwKey := H.ObjectKey(clusterName, aWork.content.manifestWorkName);
              match H.Fetch(old(hubClient.hub).manifestWorks, mwKey, f.getManifestWork)
              case NotGot(_) => made.None? && exit == Failed && hubClient.hub == old(hubClient.hub)
              case Got(mw) =>
                if !W.KubeStellarManaged(mw.labels) then made.None? && exit == Done && hubClient.hub == old(hubClient.hub)
                else if restMapper.None? then made.None? && exit == Crashed && hubClient.hub == old(hubClient.hub)
                else if obj.gvk !in restMapper.value.resources then made.None? && exit == Failed && hubClient.hub == old(hubClient.hub)
                else
                  var ws := W.NewWorkStatus(mw, aWork, obj, restMapper.value.resources[obj.gvk]);
                  var created := H.Create(old(hubClient.hub), key, ws, f.create);
                  && hubClient.hub == created.hub
                  && if created.error.Some? then made.None? && exit == Failed else made == Some(ws)
    {
      var workStatus := H.ZERO_WORK_STATUS;
      var manifestWork := hubClient.GetManifestWork(aWork.content.manifestWorkName, clusterName, f.getManifestWork);
      if manifestWork.NotGot? {
        return None, Failed;
      }
      var managed := HasPrefixInMap(manifestWork.value.labels, W.MANAGED_BY_PREFIX);
      if !managed {
        managed := HasPrefixInMap(manifestWork.value.labels, W.TRANSPORT_PREFIX);
      }
      if !managed {
        return None, Done;
      }
      workStatus := workStatus.(owner := Some(aWork.content.manifestWorkName));
      workStatus := workStatus.(labels := manifestWork.value.labels);
      if W.SINGLETON_LABEL in obj.labels {
        workStatus := workStatus.(labels := workStatus.labels[W.SINGLETON_LABEL := obj.labels[W.SINGLETON_LABEL]]);
      }
      if restMapper.None? {
        return None, Crashed;
      }
      if obj.gvk !in restMapper.value.resources {
        return None, Failed;
      }
      var gvr := restMapper.value.resources[obj.gvk];
      workStatus := workStatus.(sourceRef := H.SourceRef(gvr.group, gvr.version, gvr.resource, obj.gvk.kind, obj.name, obj.namespace));
      workStatus := workStatus.(currencyTime := 0);
      var error := hubClient.CreateWorkStatus(key, workStatus, f.create);
      if error.Some? {
        return None, Failed;
      }
      return Some(workStatus), Done;
    }

    method LabelAndReport(key: H.ObjectKey, workStatus: H.WorkStatus, obj: Object, f: W.Faults) returns (exit: Exit)
      modifies hubClient
      ensures exit != Crashed
      ensures W.Handled(hubClient.hub, exit == Done) == W.LabelAndReport(old(hubClient.hub), key, workStatus, obj, f)
    {
      if W.SINGLETON_LABEL in obj.labels {
        var objVal := obj.labels[W.SINGLETON_LABEL];
        if W.SINGLETON_LABEL !in workStatus.labels || workStatus.labels[W.SINGLETON_LABEL] != objVal {
          var error := hubClient.Patch(key, W.SINGLETON_LABEL, objVal, f.patch);
          if error.Some? {
            return Failed;
          }
        }
      }
      var rawStatus := GetObjectStatusAsBytes(obj);
      if rawStatus.None? {
        return Failed;
      }
      var error := hubClient.StatusUpdate(key, rawStatus.value, f.update);
      return if error.Some? then Failed else Done;
    }

    ghost function Shot(): Snapshot
      reads this, listers, informers, stoppers, objectsCount, trackedAppliedManifests
    {
      Snapshot(State(), trackedAppliedManifests.v, launched)
    }

    /** requeue asks for another try without an error. */
    method Reconcile(key: Key, cluster: Cluster, discovered: Option<Mapper>, f: W.Faults)
      returns (requeue: bool, exit: Exit, ghost diff: Change)
      requires Valid()
      modifies this`restMapper, this`running, this`closed, this`launched, informers, listers, stoppers, objectsCount,
               trackedAppliedManifests, hubClient
      ensures Valid()
      ensures var work := Resolve(old(listers.v), cluster, key);
              if work.ManifestEvent? then
                hubClient.hub == old(hubClient.hub)
                && ManifestHandled(work.obj, work.isBeingDeleted, diff, old(restMapper), old(Shot()), Shot(), requeue, exit)
              else
                W.Handled(hubClient.hub, exit == Done) == Drain.Reconcile(old(Env(cluster)), old(hubClient.hub), key, f)
                && requeue == work.Unusable? && Shot() == old(Shot())
      ensures Answered(GetObjectFromKey(old(listers.v), cluster, key), key.deleted, requeue, exit)
    {
      diff := Change(EMPTY_INFO, EMPTY_INFO);
      var found;
      found, requeue, exit := ObjectFor(key, cluster);
      if found.None? {
        return;
      }
      var (obj, isBeingDeleted) := found.value;
      requeue, exit, diff := ReconcileObject(obj, isBeingDeleted, cluster, discovered, f);
    }

    // The object a key stands for and whether it is deleted; None when reconcile returns right away.
    method ObjectFor(key: Key, cluster: Cluster) returns (found: Option<(Object, bool)>, requeue: bool, exit: Exit)
      ensures match found
              case Some((obj, isBeingDeleted)) => Resolve(listers.v, cluster, key) == Classify(obj, isBeingDeleted)
              case None =>
                Resolve(listers.v, cluster, key) == (if exit == Done then Nothing else Unusable)
                && requeue == (exit == Failed) && exit != Crashed
      ensures match found
              case Some((obj, isBeingDeleted)) =>
                GetObjectFromKey(listers.v, cluster, key) == (if isBeingDeleted then NotFound else Found(obj))
                && (isBeingDeleted ==> key.deleted == Some(obj))
              case None =>
                (GetObjectFromKey(listers.v, cluster, key) == NotFound ==> key.deleted.None?)
                && !GetObjectFromKey(listers.v, cluster, key).Found?
                && Answered(GetObjectFromKey(listers.v, cluster, key), key.deleted, requeue, exit)
    {
      match GetObjectFromKey(listers.v, cluster, key) {
        case Found(obj) => return Some((obj, false)), false, Done;
        case NotFound =>
          if key.deleted.None? {
            return None, false, Done;
          }
          return Some((key.deleted.value, true)), false, Done;
        case ListerNotFound => return None, false, Done;
        case InvalidKey => return None, true, Failed;
      }
    }

    // reconcile once it has its object
    method ReconcileObject(obj: Object, isBeingDeleted: bool, cluster: Cluster, discovered: Option<Mapper>, f: W.Faults)
      returns (requeue: bool, exit: Exit, ghost diff: Change)
      requires Valid()
      modifies this`restMapper, this`running, this`closed, this`launched, informers, listers, stoppers, objectsCount,
               trackedAppliedManifests, hubClient
      ensures Valid()
      ensures match Classify(obj, isBeingDeleted)
              case ManifestEvent(_, _) =>
                hubClient.hub == old(hubClient.hub)
                && ManifestHandled(obj, isBeingDeleted, diff, old(restMapper), old(Shot()), Shot(), requeue, exit)
              case Workload(_, _) =>
                W.Handled(hubClient.hub, exit == Done)
                == W.HandleWorkStatus(old(Env(cluster)), old(hubClient.hub), obj, isBeingDeleted, f)
                && !requeue && Shot() == old(Shot())
              case _ => hubClient.hub == old(hubClient.hub) && exit == Done && !requeue && Shot() == old(Shot())
      ensures ObjectAnswered(obj, isBeingDeleted, requeue, exit)
    {
      diff := Change(EMPTY_INFO, EMPTY_INFO);
      if IsAppliedManifestWork(obj) {
        requeue, exit, diff := HandleAppliedManifestWork(obj, isBeingDeleted, discovered);
        return;
      }
      if !IsManagedByAppliedManifestWork(obj) {
        return false, Done, diff;
      }
      exit := HandleWorkStatus(obj, isBeingDeleted, cluster, f);
      requeue := false;
    }

    // ----- agent.go -----

    /** An object that is gone from its cache is queued with a stripped copy; without a lister, or
        under a malformed key, the event is dropped. */
    method EnqueueObject(obj: Object, skipCheckIsDeleted: bool, cluster: Cluster)
      modifies this`workqueue
      ensures var key := KeyForGroupVersionKindNamespaceName(obj);
              workqueue == old(workqueue) +
                if skipCheckIsDeleted then multiset{key}
                else match GetObjectFromKey(listers.v, cluster, key)
                     case Found(_) => multiset{key}
                     case NotFound => multiset{key.(deleted := Some(CopyObjectMetaAndType(obj)))}
                     case _ => multiset{}
    {
      var key := KeyForGroupVersionKindNamespaceName(obj);
      if !skipCheckIsDeleted {
        var found := GetObjectFromKey(listers.v, cluster, key);
        if found.NotFound? {
          var deletedObj := CopyObjectMetaAndType(obj);
          key := key.(deleted := Some(deletedObj));
          workqueue := workqueue + multiset{key};
          return;
        }
        if !found.Found? {
          return;
        }
      }
      workqueue := workqueue + multiset{key};
    }

    /** Takes any key off the queue; it stays off only if reconcile neither failed nor asked for
        another try. (Get blocks on an empty queue.) */
    method ProcessNextWorkItem(cluster: Cluster, discovered: Option<Mapper>, f: W.Faults)
      returns (key: Key, requeue: bool, exit: Exit, ghost diff: Change)
      requires Valid() && workqueue != multiset{}
      modifies this`restMapper, this`running, this`closed, this`launched, this`workqueue, informers, listers, stoppers, objectsCount,
               trackedAppliedManifests, hubClient
      ensures Valid() && key in old(workqueue)
      ensures workqueue == if exit == Done && !requeue then old(workqueue) - multiset{key} else old(workqueue)
      ensures var work := Resolve(old(listers.v), cluster, key);
              if work.ManifestEvent? then
                hubClient.hub == old(hubClient.hub)
                && ManifestHandled(work.obj, work.isBeingDeleted, diff, old(restMapper), old(Shot()), Shot(), requeue, exit)
              else
                QueueState(workqueue, hubClient.hub)
                == QueueStep(old(Env(cluster)), QueueState(old(workqueue), old(hubClient.hub)), Pick(key, f))
                && Shot() == old(Shot())
      ensures Answered(GetObjectFromKey(old(listers.v), cluster, key), key.deleted, requeue, exit)
    {
      key :| key in workqueue;
      ghost var env, was, before := Env(cluster), hubClient.hub, workqueue;
      PutBack(workqueue, key);
      workqueue := workqueue - multiset{key};
      requeue, exit, diff := SyncKey(key, cluster, discovered, f);
      if !WorkOf(env, key).ManifestEvent? {
        StepOfReconcile(env, before, was, key, f, hubClient.hub, exit == Done, requeue, workqueue);
      }
    }

    // the function that processNextWorkItem wraps around reconcile
    method SyncKey(key: Key, cluster: Cluster, discovered: Option<Mapper>, f: W.Faults)
      returns (requeue: bool, exit: Exit, ghost diff: Change)
      requires Valid()
      modifies this`restMapper, this`running, this`closed, this`launched, this`workqueue, informers, listers, stoppers, objectsCount,
               trackedAppliedManifests, hubClient
      ensures Valid()
      ensures workqueue == if exit == Done && !requeue then old(workqueue) else old(workqueue) + multiset{key}
      ensures var work := Resolve(old(listers.v), cluster, key);
              if work.ManifestEvent? then
                hubClient.hub == old(hubClient.hub)
                && ManifestHandled(work.obj, work.isBeingDeleted, diff, old(restMapper), old(Shot()), Shot(), requeue, exit)
              else
                W.Handled(hubClient.hub, exit == Done) == Drain.Reconcile(old(Env(cluster)), old(hubClient.hub), key, f)
                && requeue == work.Unusable? && Shot() == old(Shot())
      ensures Answered(GetObjectFromKey(old(listers.v), cluster, key), key.deleted, requeue, exit)
    {
      requeue, exit, diff := Reconcile(key, cluster, discovered, f);
      if exit != Done || requeue {
        workqueue := workqueue + multiset{key};
      }
    }
  }

  lemma WatchedIff(gvk: GVK)
    ensures gvk in EXCLUDED_KINDS ==> Excluded(gvk)
    ensures SlashFreeKind(gvk) && gvk !in EXCLUDED_KINDS ==> !Excluded(gvk)
  {
    if gvk in EXCLUDED_KINDS {
      ExcludedKindsPlain(gvk);
    }
    if SlashFreeKind(gvk) {
      ExcludedIff(gvk);
    }
  }

  // reconcile and what becomes of the key, as one step of the queue
  lemma StepOfReconcile(env: W.Env, queue: multiset<Key>, hub: H.State, key: Key, f: W.Faults,
                        hub': H.State, done: bool, requeue: bool, queue': multiset<Key>)
    requires !WorkOf(env, key).ManifestEvent? && W.Handled(hub', done) == Drain.Reconcile(env, hub, key, f)
    requires requeue == WorkOf(env, key).Unusable? && queue' == if done && !requeue then queue - multiset{key} else queue
    ensures QueueState(queue', hub') == QueueStep(env, QueueState(queue, hub), Pick(key, f))
  {
  }

  lemma PutBack<T>(queue: multiset<T>, x: T)
    requires x in queue
    ensures queue - multiset{x} + multiset{x} == queue
  {
  }

  datatype Snapshot = Snapshot(state: Index.State, tracked: Tracked, launched: seq<AppliedManifestInfo>)

  // ----- the answer to a key, said by what its lookup finds -----

  /** An AppliedManifestWork that cannot be converted is an error and tried again; one that is there with an
      empty list is tried again without an error; anything else is done with, short of a crash. */
  ghost predicate ManifestAnswered(obj: Object, isBeingDeleted: bool, requeue: bool, exit: Exit) {
    match obj.applied
    case None => requeue && exit == Failed
    case Some(content) => exit != Failed && (requeue <==> !isBeingDeleted && content.appliedResources == [])
  }

  // Objects without an owning AppliedManifestWork are done with at once.
  ghost predicate ObjectAnswered(obj: Object, isBeingDeleted: bool, requeue: bool, exit: Exit) {
    if obj.gvk == GVK("work.open-cluster-management.io", "v1", "AppliedManifestWork") then
      ManifestAnswered(obj, isBeingDeleted, requeue, exit)
    else !requeue && (AppliedOwnerName(obj.owners) == "" ==> exit == Done)
  }

  /** A key without a lister, or whose object is gone and that carries none, is done with; a malformed one is
      an error and tried again. */
  ghost predicate Answered(found: Lookup, deleted: Option<Object>, requeue: bool, exit: Exit) {
    match found
    case Found(obj) => ObjectAnswered(obj, false, requeue, exit)
    case NotFound => if deleted.Some? then ObjectAnswered(deleted.value, true, requeue, exit) else !requeue && exit == Done
    case ListerNotFound => !requeue && exit == Done
    case InvalidKey => requeue && exit == Failed
  }

  ghost predicate Stopped(mapper: Option<Mapper>, info: AppliedManifestInfo, s: Index.State, t: Index.State)
    requires |info.gvrs| <= |info.uids|
  {
    match mapper
    case None => t == s
    case Some(m) => Index.Run(s, Iterations(m.kinds, Stop(info))) == Index.Fine(t)
  }

  ghost predicate ManifestHandled(obj: Object, isBeingDeleted: bool, diff: Change, mapper: Option<Mapper>,
                                  was: Snapshot, now: Snapshot, requeue: bool, exit: Exit)
  {
    match ToAppliedManifestWork(obj)
    case None => requeue && exit == Failed && now == was
    case Some(aw) =>
      var ev := if isBeingDeleted then Deleted(obj.name) else Applied(obj.name, aw.content.appliedResources);
      CarriedOut(PlanFor(was.tracked, ev), obj.name, diff, mapper, was, now, requeue, exit)
  }

  /** A plan as the machine of module Tracking has it, with the stop loop already run to its end and
      the start loop launched. */
  ghost predicate CarriedOut(plan: Plan, name: string, diff: Change, mapper: Option<Mapper>,
                             was: Snapshot, now: Snapshot, requeue: bool, exit: Exit)
  {
    && requeue == plan.Requeue?
    && match plan
       case Requeue => now == was && exit == Done
       case Ignore => now == was && exit == Done
       case Track(info) => now == Snapshot(was.state, was.tracked[name := info], was.launched + [info]) && exit == Done
       case Update(prior, info) =>
         && DiffFits(plan, diff)
         && now.tracked == was.tracked[name := info] && now.launched == was.launched + [diff.added]
         && Stopped(mapper, diff.removed, was.state, now.state)
         && exit == if mapper.None? && diff.removed.gvrs != [] then Crashed else Done
       case Untrack(prior) =>
         && Aligned(prior)
         && now.launched == was.launched && Stopped(mapper, prior, was.state, now.state)
         && exit == (if mapper.None? && prior.gvrs != [] then Crashed else Done)
         && now.tracked == if exit == Done then was.tracked - {name} else was.tracked
  }
}
