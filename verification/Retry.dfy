// Reruns of handleWorkStatus until it succeeds, and deletions.

module Retry {
  import opened Base
  import opened Objects
  import H = Hub
  import opened WorkStatuses

  // What one object, alive or deleted, asks of the hub.
  ghost function JobGoal(env: Env, h: H.State, obj: Object, isBeingDeleted: bool): H.State {
    match GetAppliedManifestWork(obj, env.listers, env.cluster)
    case None => h
    case Some(aw) =>
      if isBeingDeleted then h.(workStatuses := h.workStatuses - {WorkStatusKey(env, aw, obj)}) else Goal(env, h, aw, obj)
  }

  ghost predicate JobAttainable(env: Env, h: H.State, obj: Object, isBeingDeleted: bool) {
    match GetAppliedManifestWork(obj, env.listers, env.cluster)
    case None => false
    case Some(aw) => isBeingDeleted || Attainable(env, h, aw, obj)
  }

  // The one failure handleWorkStatus does not notice.
  predicate DeleteGetsThrough(isBeingDeleted: bool, f: Faults) {
    isBeingDeleted ==> f.delete != H.FailsBefore
  }

  /** One attempt, with any failures: see UpsertTowardGoal. */
  lemma HandleTowardGoal(env: Env, h: H.State, obj: Object, isBeingDeleted: bool, f: Faults)
    requires DeleteGetsThrough(isBeingDeleted, f)
    ensures var r := HandleWorkStatus(env, h, obj, isBeingDeleted, f);
            && JobGoal(env, r.hub, obj, isBeingDeleted) == JobGoal(env, h, obj, isBeingDeleted)
            && (JobAttainable(env, r.hub, obj, isBeingDeleted) <==> JobAttainable(env, h, obj, isBeingDeleted))
            && (r.ok ==> r.hub == JobGoal(env, h, obj, isBeingDeleted) && JobAttainable(env, h, obj, isBeingDeleted))
            && (JobGoal(env, h, obj, isBeingDeleted) == h ==> r.hub == h)
            && (f == NO_FAULTS ==> r == Handled(JobGoal(env, h, obj, isBeingDeleted), JobAttainable(env, h, obj, isBeingDeleted)))
  {
    match GetAppliedManifestWork(obj, env.listers, env.cluster)
    case None =>
    case Some(aw) =>
      if isBeingDeleted {
        var key := WorkStatusKey(env, aw, obj);
        assert h.workStatuses - {key} - {key} == h.workStatuses - {key};
        assert key !in h.workStatuses ==> h.workStatuses - {key} == h.workStatuses;
      } else {
        UpsertTowardGoal(env, h, aw, obj, f);
      }
  }

  // Attempts under the given failures, up to the first that succeeds.
  ghost function Attempts(env: Env, h: H.State, obj: Object, isBeingDeleted: bool, fs: seq<Faults>): Handled
    decreases |fs|
  {
    if fs == [] then Handled(h, false)
    else
      var r := HandleWorkStatus(env, h, obj, isBeingDeleted, fs[0]);
      if r.ok then r else Attempts(env, r.hub, obj, isBeingDeleted, fs[1..])
  }

  /** Retry convergence: once an attempt succeeds the hub is the one a single failure-free run would
      have left; if that run would succeed, so do the attempts as soon as one of them meets no
      failure; and however they end, all attempts together create at most one WorkStatus. */
  lemma {:induction false} RetryConverges(env: Env, h: H.State, obj: Object, isBeingDeleted: bool, fs: seq<Faults>)
    requires forall i :: 0 <= i < |fs| ==> DeleteGetsThrough(isBeingDeleted, fs[i])
    ensures var r, once := Attempts(env, h, obj, isBeingDeleted, fs), HandleWorkStatus(env, h, obj, isBeingDeleted, NO_FAULTS);
            && (r.ok ==> r == once)
            && (once.ok && NO_FAULTS in fs ==> r.ok)
            && r.hub.created <= once.hub.created && |once.hub.created| <= |h.created| + 1
    decreases |fs|
  {
    HandleTowardGoal(env, h, obj, isBeingDeleted, NO_FAULTS);
    if fs != [] {
      HandleTowardGoal(env, h, obj, isBeingDeleted, fs[0]);
      var r := HandleWorkStatus(env, h, obj, isBeingDeleted, fs[0]);
      if !r.ok {
        RetryConverges(env, r.hub, obj, isBeingDeleted, fs[1..]);
        HandleTowardGoal(env, r.hub, obj, isBeingDeleted, NO_FAULTS);
        assert NO_FAULTS in fs ==> NO_FAULTS == fs[0] || NO_FAULTS in fs[1..];
      }
    }
  }

  /** Exactly when a deletion is reported done although the WorkStatus is still there. */
  lemma DeletionLostIff(env: Env, h: H.State, obj: Object, f: Faults)
    requires GetAppliedManifestWork(obj, env.listers, env.cluster).Some?
    ensures var key := WorkStatusKey(env, GetAppliedManifestWork(obj, env.listers, env.cluster).value, obj);
            var r := HandleWorkStatus(env, h, obj, true, f);
            r.ok && key in r.hub.workStatuses <==> key in h.workStatuses && f.get == H.NoFault && f.delete == H.FailsBefore
  {
  }

  /** The copy queued for a deleted object has the live object's owner, WorkStatus and queue key. */
  lemma DeletionTargetsCreation(env: Env, obj: Object)
    ensures var copy := CopyObjectMetaAndType(obj);
            && AppliedOwnerName(copy.owners) == AppliedOwnerName(obj.owners)
            && IsAppliedManifestWork(copy) == IsAppliedManifestWork(obj)
            && GetAppliedManifestWork(copy, env.listers, env.cluster) == GetAppliedManifestWork(obj, env.listers, env.cluster)
            && (forall aw :: WorkStatusKey(env, aw, copy) == WorkStatusKey(env, aw, obj))
            && KeyForGroupVersionKindNamespaceName(copy) == KeyForGroupVersionKindNamespaceName(obj)
  {
  }

  /** Creating for the live object and then deleting for its copy leaves no WorkStatus. */
  lemma {:induction false} CreateThenDelete(env: Env, h: H.State, obj: Object, fs: seq<Faults>, gs: seq<Faults>)
    requires forall i :: 0 <= i < |gs| ==> gs[i].delete != H.FailsBefore
    ensures var up := Attempts(env, h, obj, false, fs);
            var down := Attempts(env, up.hub, CopyObjectMetaAndType(obj), true, gs);
            down.ok ==> JobGoal(env, h, obj, true).workStatuses == down.hub.workStatuses
  {
    var up, copy := Attempts(env, h, obj, false, fs), CopyObjectMetaAndType(obj);
    var down := Attempts(env, up.hub, copy, true, gs);
    RetryConverges(env, up.hub, copy, true, gs);
    HandleTowardGoal(env, up.hub, copy, true, NO_FAULTS);
    AttemptsFrame(env, h, obj, false, fs);
    if down.ok {
      var aw := GetAppliedManifestWork(obj, env.listers, env.cluster).value;
      DeletionTargetsCreation(env, obj);
      var key := WorkStatusKey(env, aw, obj);
      assert WorkStatusKey(env, aw, copy) == key;
      forall k ensures Find(h.workStatuses - {key}, k) == Find(up.hub.workStatuses - {key}, k) {
        assert k != key ==> Find(h.workStatuses, k) == Find(up.hub.workStatuses, k);
      }
      assert h.workStatuses - {key} == up.hub.workStatuses - {key} by {
        SameFinds(h.workStatuses - {key}, up.hub.workStatuses - {key});
      }
    }
  }

  lemma SameFinds<K, V>(m: map<K, V>, n: map<K, V>)
    requires forall k :: k in m || k in n ==> Find(m, k) == Find(n, k)
    ensures m == n
  {
    forall k ensures k in m <==> k in n {
      if k in m || k in n {
        assert Find(m, k) == Find(n, k);
      }
    }
    forall k | k in m ensures m[k] == n[k] {
      assert Find(m, k) == Find(n, k);
    }
  }

  // h and r agree on everything but, possibly, the WorkStatus under the key
  ghost predicate AgreeElsewhere(h: H.State, r: H.State, key: H.ObjectKey) {
    && r.manifestWorks == h.manifestWorks
    && forall k :: k != key ==> Find(r.workStatuses, k) == Find(h.workStatuses, k) && r.created[k] == h.created[k]
  }

  lemma LabelAndReportFrame(h: H.State, key: H.ObjectKey, ws: H.WorkStatus, obj: Object, f: Faults)
    ensures AgreeElsewhere(h, LabelAndReport(h, key, ws, obj, f).hub, key)
  {
  }

  /** An attempt changes no WorkStatus but the object's own, and no ManifestWork. */
  lemma HandleFrame(env: Env, h: H.State, obj: Object, isBeingDeleted: bool, f: Faults)
    ensures var r := HandleWorkStatus(env, h, obj, isBeingDeleted, f).hub;
            match GetAppliedManifestWork(obj, env.listers, env.cluster)
            case None => r == h
            case Some(aw) => AgreeElsewhere(h, r, WorkStatusKey(env, aw, obj))
  {
    match GetAppliedManifestWork(obj, env.listers, env.cluster)
    case None =>
    case Some(aw) =>
      if !isBeingDeleted {
        UpsertFrame(env, h, aw, obj, f);
      }
  }

  lemma UpsertFrame(env: Env, h: H.State, aw: AppliedManifestWork, obj: Object, f: Faults)
    ensures AgreeElsewhere(h, UpsertWorkStatus(env, h, aw, obj, f).hub, WorkStatusKey(env, aw, obj))
  {
    var key := WorkStatusKey(env, aw, obj);
    match StandingOf(env, h, aw, obj)
    case Exists => LabelAndReportFrame(h, key, h.workStatuses[key], obj, f);
    case Creatable(mw, gvr) =>
      var ws := NewWorkStatus(mw, aw, obj, gvr);
      LabelAndReportFrame(H.Create(h, key, ws, f.create).hub, key, ws, obj, f);
    case _ =>
  }

  lemma {:induction false} AttemptsFrame(env: Env, h: H.State, obj: Object, isBeingDeleted: bool, fs: seq<Faults>)
    ensures var r := Attempts(env, h, obj, isBeingDeleted, fs).hub;
            forall aw :: GetAppliedManifestWork(obj, env.listers, env.cluster) == Some(aw) ==>
              forall key :: key != WorkStatusKey(env, aw, obj) ==> Find(r.workStatuses, key) == Find(h.workStatuses, key)
    decreases |fs|
  {
    if fs != [] {
      var r := HandleWorkStatus(env, h, obj, isBeingDeleted, fs[0]);
      HandleFrame(env, h, obj, isBeingDeleted, fs[0]);
      if !r.ok {
        AttemptsFrame(env, r.hub, obj, isBeingDeleted, fs[1..]);
      }
    }
  }
}
