// handleWorkStatus of pkg/agent/reconcilers.go: one object, one WorkStatus, and up to five hub calls
// any of which may fail.

module WorkStatuses {
  import opened Base
  import opened Text
  import opened Schema
  import opened Names
  import opened Objects
  import H = Hub

  const MANAGED_BY_PREFIX := "managed-by.kubestellar.io"
  const TRANSPORT_PREFIX := "transport.kubestellar.io"
  const SINGLETON_LABEL := "managed-by.kubestellar.io/singletonstatus"

  // What the agent knows: its cluster's name, the listers with what they have cached, and the
  // resource its REST mapper has for a kind.
  datatype Env = Env(clusterName: string, listers: Listers, cluster: Cluster, gvrFor: map<GVK, GVR>)

  datatype Faults = Faults(get: H.Fault, getManifestWork: H.Fault, create: H.Fault, patch: H.Fault, update: H.Fault, delete: H.Fault)

  const NO_FAULTS := Faults(H.NoFault, H.NoFault, H.NoFault, H.NoFault, H.NoFault, H.NoFault)

  ghost predicate HasPrefixed(labels: H.Labels, prefix: string) {
    exists key :: key in labels && HasPrefix(key, prefix)
  }

  ghost predicate KubeStellarManaged(labels: H.Labels) {
    HasPrefixed(labels, MANAGED_BY_PREFIX) || HasPrefixed(labels, TRANSPORT_PREFIX)
  }

  function WorkStatusKey(env: Env, aw: AppliedManifestWork, obj: Object): H.ObjectKey {
    H.ObjectKey(env.clusterName, BuildWorkstatusName(aw.uid, obj.gvk, obj.namespace, obj.name))
  }

  function ManifestWorkKey(env: Env, aw: AppliedManifestWork): H.ObjectKey {
    H.ObjectKey(env.clusterName, aw.content.manifestWorkName)
  }

  function WithSingleton(labels: H.Labels, obj: Object): H.Labels {
    if SINGLETON_LABEL in obj.labels then labels[SINGLETON_LABEL := obj.labels[SINGLETON_LABEL]] else labels
  }

  function SourceOf(obj: Object, gvr: GVR): H.SourceRef {
    H.SourceRef(gvr.group, gvr.version, gvr.resource, obj.gvk.kind, obj.name, obj.namespace)
  }

  function NewWorkStatus(mw: H.ManifestWork, aw: AppliedManifestWork, obj: Object, gvr: GVR): H.WorkStatus {
    H.WorkStatus(WithSingleton(mw.labels, obj), Some(aw.content.manifestWorkName), SourceOf(obj, gvr), 0, None)
  }

  datatype Handled = Handled(hub: H.State, ok: bool)

  // ----- the sequence of calls -----

  ghost function HandleWorkStatus(env: Env, h: H.State, obj: Object, isBeingDeleted: bool, f: Faults): Handled {
    match GetAppliedManifestWork(obj, env.listers, env.cluster)
    case None => Handled(h, false)
    case Some(aw) =>
      if isBeingDeleted then DeleteWorkStatus(h, WorkStatusKey(env, aw, obj), f)
      else UpsertWorkStatus(env, h, aw, obj, f)
  }

  // The Delete error is logged and dropped.
  function DeleteWorkStatus(h: H.State, key: H.ObjectKey, f: Faults): Handled {
    match H.Fetch(h.workStatuses, key, f.get)
    case NotGot(Transient) => Handled(h, false)
    case _ => Handled(H.Delete(h, key, f.delete).hub, true)
  }

  ghost function UpsertWorkStatus(env: Env, h: H.State, aw: AppliedManifestWork, obj: Object, f: Faults): Handled {
    var key := WorkStatusKey(env, aw, obj);
    match H.Fetch(h.workStatuses, key, f.get)
    case Got(ws) => LabelAndReport(h, key, ws, obj, f)
    case NotGot(NotFound) =>
      (match H.Fetch(h.manifestWorks, ManifestWorkKey(env, aw), f.getManifestWork)
       case NotGot(_) => Handled(h, false)
       case Got(mw) =>
         if !KubeStellarManaged(mw.labels) then Handled(h, true)
         else if obj.gvk !in env.gvrFor then Handled(h, false)
         else
           var ws := NewWorkStatus(mw, aw, obj, env.gvrFor[obj.gvk]);
           var created := H.Create(h, key, ws, f.create);
           if created.error.Some? then Handled(created.hub, false) else LabelAndReport(created.hub, key, ws, obj, f))
    case NotGot(_) => Handled(h, false)
  }

  // Patch the singleton label if the object's differs, then report the status.
  function LabelAndReport(h: H.State, key: H.ObjectKey, ws: H.WorkStatus, obj: Object, f: Faults): Handled {
    if SINGLETON_LABEL in obj.labels && Find(ws.labels, SINGLETON_LABEL) != Some(obj.labels[SINGLETON_LABEL]) then
      var patched := H.PatchLabel(h, key, SINGLETON_LABEL, obj.labels[SINGLETON_LABEL], f.patch);
      if patched.error.Some? then Handled(patched.hub, false) else Report(patched.hub, key, obj, f)
    else Report(h, key, obj, f)
  }

  function Report(h: H.State, key: H.ObjectKey, obj: Object, f: Faults): Handled {
    match GetObjectStatusAsBytes(obj)
    case None => Handled(h, false)
    case Some(status) =>
      var updated := H.UpdateStatus(h, key, status, f.update);
      Handled(updated.hub, updated.error.None?)
  }

  // Whether the calls get to the point where the REST mapper is asked for the object's resource.
  ghost predicate AsksMapper(env: Env, h: H.State, obj: Object, isBeingDeleted: bool, f: Faults) {
    match GetAppliedManifestWork(obj, env.listers, env.cluster)
    case None => false
    case Some(aw) =>
      && !isBeingDeleted
      && f.get == H.NoFault && WorkStatusKey(env, aw, obj) !in h.workStatuses
      && f.getManifestWork == H.NoFault && ManifestWorkKey(env, aw) in h.manifestWorks
      && KubeStellarManaged(h.manifestWorks[ManifestWorkKey(env, aw)].labels)
  }

  // ----- what it is for -----

  // Whether the object's WorkStatus can be had: it exists, or everything needed to create it does.
  datatype Standing = Exists | Creatable(mw: H.ManifestWork, gvr: GVR) | Unmanaged | Blocked

  ghost function StandingOf(env: Env, h: H.State, aw: AppliedManifestWork, obj: Object): Standing {
    if WorkStatusKey(env, aw, obj) in h.workStatuses then Exists
    else if ManifestWorkKey(env, aw) !in h.manifestWorks then Blocked
    else if !KubeStellarManaged(h.manifestWorks[ManifestWorkKey(env, aw)].labels) then Unmanaged
    else if obj.gvk !in env.gvrFor then Blocked
    else Creatable(h.manifestWorks[ManifestWorkKey(env, aw)], env.gvrFor[obj.gvk])
  }

  // A WorkStatus that says about the object what it should.
  function Reporting(ws: H.WorkStatus, obj: Object): H.WorkStatus {
    var labelled := ws.(labels := WithSingleton(ws.labels, obj));
    match GetObjectStatusAsBytes(obj)
    case None => labelled
    case Some(status) => labelled.(status := Some(status))
  }

  /** The hub with the object's WorkStatus as it should be, in one stroke. */
  ghost function Goal(env: Env, h: H.State, aw: AppliedManifestWork, obj: Object): H.State {
    var key := WorkStatusKey(env, aw, obj);
    match StandingOf(env, h, aw, obj)
    case Exists => h.(workStatuses := h.workStatuses[key := Reporting(h.workStatuses[key], obj)])
    case Creatable(mw, gvr) =>
      h.(workStatuses := h.workStatuses[key := Reporting(NewWorkStatus(mw, aw, obj, gvr), obj)],
         created := h.created + multiset{key})
    case _ => h
  }

  // Whether nothing but hub failures stands in the way.
  ghost predicate Attainable(env: Env, h: H.State, aw: AppliedManifestWork, obj: Object) {
    match StandingOf(env, h, aw, obj)
    case Unmanaged => true
    case Blocked => false
    case _ => GetObjectStatusAsBytes(obj).Some?
  }

  lemma Overwrite<K, V>(m: map<K, V>, k: K, a: V, b: V)
    ensures m[k := a][k := b] == m[k := b]
    ensures k in m ==> m[k := m[k]] == m
  {
  }

  lemma ReportingTwice(ws: H.WorkStatus, obj: Object)
    ensures Reporting(Reporting(ws, obj), obj) == Reporting(ws, obj)
    ensures Reporting(ws.(labels := WithSingleton(ws.labels, obj)), obj) == Reporting(ws, obj)
    ensures GetObjectStatusAsBytes(obj).Some? ==>
              Reporting(ws, obj) == ws.(labels := WithSingleton(ws.labels, obj), status := GetObjectStatusAsBytes(obj))
  {
    if SINGLETON_LABEL in obj.labels {
      Overwrite(ws.labels, SINGLETON_LABEL, obj.labels[SINGLETON_LABEL], obj.labels[SINGLETON_LABEL]);
    }
  }

  lemma LabelsSettled(labels: H.Labels, obj: Object)
    ensures WithSingleton(labels, obj) == labels
       <==> !(SINGLETON_LABEL in obj.labels && Find(labels, SINGLETON_LABEL) != Some(obj.labels[SINGLETON_LABEL]))
  {
    if SINGLETON_LABEL in obj.labels {
      assert WithSingleton(labels, obj)[SINGLETON_LABEL] == obj.labels[SINGLETON_LABEL];
    }
  }

  // the last two calls, on an existing WorkStatus
  lemma ReportTowardGoal(h: H.State, key: H.ObjectKey, obj: Object, f: Faults)
    requires key in h.workStatuses && WithSingleton(h.workStatuses[key].labels, obj) == h.workStatuses[key].labels
    ensures var ws, r := h.workStatuses[key], Report(h, key, obj, f);
            && (r.hub == h || r.hub == h.(workStatuses := h.workStatuses[key := Reporting(ws, obj)]))
            && (r.ok ==> GetObjectStatusAsBytes(obj).Some? && r.hub == h.(workStatuses := h.workStatuses[key := Reporting(ws, obj)]))
            && (f == NO_FAULTS ==> r.ok == GetObjectStatusAsBytes(obj).Some?)
            && (GetObjectStatusAsBytes(obj).None? ==> Reporting(ws, obj) == ws)
  {
    ReportingTwice(h.workStatuses[key], obj);
  }

  lemma LabelAndReportTowardGoal(h: H.State, key: H.ObjectKey, obj: Object, f: Faults)
    requires key in h.workStatuses
    ensures var ws := h.workStatuses[key];
            var r, goal := LabelAndReport(h, key, ws, obj, f), h.(workStatuses := h.workStatuses[key := Reporting(ws, obj)]);
            && key in r.hub.workStatuses && Reporting(r.hub.workStatuses[key], obj) == Reporting(ws, obj)
            && r.hub == h.(workStatuses := h.workStatuses[key := r.hub.workStatuses[key]])
            && (r.ok ==> GetObjectStatusAsBytes(obj).Some? && r.hub == goal)
            && (goal == h ==> r.hub == h)
            && (f == NO_FAULTS ==> r.hub == goal && r.ok == GetObjectStatusAsBytes(obj).Some?)
  {
    var ws := h.workStatuses[key];
    var labelled := ws.(labels := WithSingleton(ws.labels, obj));
    var mid := h.(workStatuses := h.workStatuses[key := labelled]);
    LabelsSettled(ws.labels, obj);
    LabelsSettled(labelled.labels, obj);
    ReportingTwice(ws, obj);
    Overwrite(h.workStatuses, key, labelled, Reporting(ws, obj));
    ReportTowardGoal(mid, key, obj, f);
    if h.workStatuses[key := Reporting(ws, obj)] == h.workStatuses {
      assert h.workStatuses[key := Reporting(ws, obj)][key] == ws;
    }
  }

  /** Whatever calls fail, with or without their effect, the goal stays the same; success means it
      was reached; and once reached it is not left. */
  lemma UpsertTowardGoal(env: Env, h: H.State, aw: AppliedManifestWork, obj: Object, f: Faults)
    ensures var r := UpsertWorkStatus(env, h, aw, obj, f);
            && Goal(env, r.hub, aw, obj) == Goal(env, h, aw, obj)
            && (Attainable(env, r.hub, aw, obj) <==> Attainable(env, h, aw, obj))
            && (r.ok ==> r.hub == Goal(env, h, aw, obj) && Attainable(env, h, aw, obj))
            && (Goal(env, h, aw, obj) == h ==> r.hub == h)
            && (f == NO_FAULTS ==> r == Handled(Goal(env, h, aw, obj), Attainable(env, h, aw, obj)))
  {
    var key := WorkStatusKey(env, aw, obj);
    match StandingOf(env, h, aw, obj)
    case Exists =>
      LabelAndReportTowardGoal(h, key, obj, f);
      var r := UpsertWorkStatus(env, h, aw, obj, f);
      Overwrite(h.workStatuses, key, r.hub.workStatuses[key], Reporting(h.workStatuses[key], obj));
      Overwrite(h.workStatuses, key, h.workStatuses[key], h.workStatuses[key]);
    case Creatable(mw, gvr) => CreateTowardGoal(env, h, aw, obj, f, mw, gvr);
    case _ =>
  }

  lemma CreateTowardGoal(env: Env, h: H.State, aw: AppliedManifestWork, obj: Object, f: Faults, mw: H.ManifestWork, gvr: GVR)
    requires StandingOf(env, h, aw, obj) == Creatable(mw, gvr)
    ensures var r := UpsertWorkStatus(env, h, aw, obj, f);
            && Goal(env, r.hub, aw, obj) == Goal(env, h, aw, obj)
            && (Attainable(env, r.hub, aw, obj) <==> Attainable(env, h, aw, obj))
            && (r.ok ==> r.hub == Goal(env, h, aw, obj) && Attainable(env, h, aw, obj))
            && Goal(env, h, aw, obj) != h
            && (f == NO_FAULTS ==> r == Handled(Goal(env, h, aw, obj), Attainable(env, h, aw, obj)))
  {
    var key, ws := WorkStatusKey(env, aw, obj), NewWorkStatus(mw, aw, obj, gvr);
    var mid := h.(workStatuses := h.workStatuses[key := ws], created := h.created + multiset{key});
    var r := UpsertWorkStatus(env, h, aw, obj, f);
    assert key in Goal(env, h, aw, obj).workStatuses;
    LabelAndReportTowardGoal(mid, key, obj, f);
    Overwrite(h.workStatuses, key, ws, Reporting(ws, obj));
    if r.hub != h {
      Overwrite(h.workStatuses, key, ws, r.hub.workStatuses[key]);
      Overwrite(h.workStatuses, key, r.hub.workStatuses[key], Reporting(ws, obj));
    }
  }
}
