// Where WorkStatuses come from, over every run of the agent.

module Provenance {
  import opened Base
  import opened Text
  import opened Schema
  import opened Objects
  import H = Hub
  import opened WorkStatuses
  import opened Retry
  import Names

  // One call of handleWorkStatus, with the ManifestWorks as others have left them by then.
  datatype Job = Job(env: Env, manifestWorks: map<H.ObjectKey, H.ManifestWork>, obj: Object, isBeingDeleted: bool, faults: Faults)

  ghost function RunJob(h: H.State, job: Job): H.State {
    HandleWorkStatus(job.env, h.(manifestWorks := job.manifestWorks), job.obj, job.isBeingDeleted, job.faults).hub
  }

  ghost function RunJobs(h: H.State, jobs: seq<Job>): H.State
    decreases |jobs|
  {
    if jobs == [] then h else RunJobs(RunJob(h, jobs[0]), jobs[1..])
  }

  /** The WorkStatus was created by this call: in the cluster's namespace under the built name, for a
      ManifestWork with a KubeStellar label, and it names the object as its source. */
  ghost predicate MadeBy(job: Job, key: H.ObjectKey, owner: Option<string>, source: H.SourceRef) {
    match GetAppliedManifestWork(job.obj, job.env.listers, job.env.cluster)
    case None => false
    case Some(aw) =>
      && !job.isBeingDeleted
      && key == WorkStatusKey(job.env, aw, job.obj) && key.namespace == job.env.clusterName
      && owner == Some(aw.content.manifestWorkName)
      && ManifestWorkKey(job.env, aw) in job.manifestWorks
      && KubeStellarManaged(job.manifestWorks[ManifestWorkKey(job.env, aw)].labels)
      && job.obj.gvk in job.env.gvrFor && source == SourceOf(job.obj, job.env.gvrFor[job.obj.gvk])
  }

  /** ... field by field. */
  lemma MadeByFields(job: Job, key: H.ObjectKey, owner: Option<string>, source: H.SourceRef)
    requires MadeBy(job, key, owner, source)
    ensures var env, obj := job.env, job.obj;
            && GetAppliedManifestWork(obj, env.listers, env.cluster).Some? && obj.gvk in env.gvrFor && !job.isBeingDeleted
            && var aw, gvr := GetAppliedManifestWork(obj, env.listers, env.cluster).value, env.gvrFor[obj.gvk];
               && key.namespace == env.clusterName
               && key.name == Names.BuildWorkstatusName(aw.uid, obj.gvk, obj.namespace, obj.name)
               && owner == Some(aw.content.manifestWorkName)
               && source.group == gvr.group && source.version == gvr.version && source.resource == gvr.resource
               && source.kind == obj.gvk.kind && source.namespace == obj.namespace && source.name == obj.name
               && H.ObjectKey(env.clusterName, aw.content.manifestWorkName) in job.manifestWorks
               && KubeStellarManaged(job.manifestWorks[H.ObjectKey(env.clusterName, aw.content.manifestWorkName)].labels)
  {
  }

  // Kept: owner and source as before, and a KubeStellar label if there was one.
  ghost predicate Kept(was: H.WorkStatus, ws: H.WorkStatus) {
    ws.owner == was.owner && ws.sourceRef == was.sourceRef && (KubeStellarManaged(was.labels) ==> KubeStellarManaged(ws.labels))
  }

  ghost predicate KeptOrMade(h: H.State, job: Job, r: H.State) {
    forall key :: key in r.workStatuses ==>
      if key in h.workStatuses then Kept(h.workStatuses[key], r.workStatuses[key])
      else MadeBy(job, key, r.workStatuses[key].owner, r.workStatuses[key].sourceRef)
           && KubeStellarManaged(r.workStatuses[key].labels)
  }

  lemma SingletonKeepsManaged(labels: H.Labels, value: string)
    requires KubeStellarManaged(labels)
    ensures KubeStellarManaged(labels[SINGLETON_LABEL := value])
  {
    var prefix := if HasPrefixed(labels, MANAGED_BY_PREFIX) then MANAGED_BY_PREFIX else TRANSPORT_PREFIX;
    var key :| key in labels && HasPrefix(key, prefix);
    assert key in labels[SINGLETON_LABEL := value];
  }

  lemma LabelAndReportKeeps(h: H.State, key: H.ObjectKey, obj: Object, f: Faults)
    requires key in h.workStatuses
    ensures var r := LabelAndReport(h, key, h.workStatuses[key], obj, f).hub;
            key in r.workStatuses && Kept(h.workStatuses[key], r.workStatuses[key])
  {
    if KubeStellarManaged(h.workStatuses[key].labels) && SINGLETON_LABEL in obj.labels {
      SingletonKeepsManaged(h.workStatuses[key].labels, obj.labels[SINGLETON_LABEL]);
    }
  }

  // the object's own WorkStatus
  lemma UpsertOwn(h: H.State, job: Job, aw: AppliedManifestWork)
    requires h.manifestWorks == job.manifestWorks && !job.isBeingDeleted
    requires GetAppliedManifestWork(job.obj, job.env.listers, job.env.cluster) == Some(aw)
    ensures var key := WorkStatusKey(job.env, aw, job.obj);
            var r := UpsertWorkStatus(job.env, h, aw, job.obj, job.faults).hub;
            && (key in h.workStatuses ==> key in r.workStatuses && Kept(h.workStatuses[key], r.workStatuses[key]))
            && (key in r.workStatuses && key !in h.workStatuses ==>
                  MadeBy(job, key, r.workStatuses[key].owner, r.workStatuses[key].sourceRef)
                  && KubeStellarManaged(r.workStatuses[key].labels))
  {
    match StandingOf(job.env, h, aw, job.obj)
    case Exists => LabelAndReportKeeps(h, WorkStatusKey(job.env, aw, job.obj), job.obj, job.faults);
    case Creatable(mw, gvr) => CreateMakes(h, job, aw, mw, gvr);
    case _ =>
  }

  lemma CreateMakes(h: H.State, job: Job, aw: AppliedManifestWork, mw: H.ManifestWork, gvr: GVR)
    requires h.manifestWorks == job.manifestWorks && !job.isBeingDeleted
    requires GetAppliedManifestWork(job.obj, job.env.listers, job.env.cluster) == Some(aw)
    requires StandingOf(job.env, h, aw, job.obj) == Creatable(mw, gvr)
    ensures var key := WorkStatusKey(job.env, aw, job.obj);
            var r := UpsertWorkStatus(job.env, h, aw, job.obj, job.faults).hub;
            key in r.workStatuses ==>
              MadeBy(job, key, r.workStatuses[key].owner, r.workStatuses[key].sourceRef)
              && KubeStellarManaged(r.workStatuses[key].labels)
  {
    var key, ws := WorkStatusKey(job.env, aw, job.obj), NewWorkStatus(mw, aw, job.obj, gvr);
    if SINGLETON_LABEL in job.obj.labels {
      SingletonKeepsManaged(mw.labels, job.obj.labels[SINGLETON_LABEL]);
    }
    assert KubeStellarManaged(ws.labels);
    LabelAndReportKeeps(h.(workStatuses := h.workStatuses[key := ws], created := h.created + multiset{key}), key, job.obj, job.faults);
  }

  lemma UpsertKeepsOrMakes(h: H.State, job: Job, aw: AppliedManifestWork)
    requires h.manifestWorks == job.manifestWorks && !job.isBeingDeleted
    requires GetAppliedManifestWork(job.obj, job.env.listers, job.env.cluster) == Some(aw)
    ensures KeptOrMade(h, job, UpsertWorkStatus(job.env, h, aw, job.obj, job.faults).hub)
  {
    var key := WorkStatusKey(job.env, aw, job.obj);
    var r := UpsertWorkStatus(job.env, h, aw, job.obj, job.faults).hub;
    UpsertOwn(h, job, aw);
    UpsertFrame(job.env, h, aw, job.obj, job.faults);
    forall k | k in r.workStatuses && k != key ensures k in h.workStatuses && r.workStatuses[k] == h.workStatuses[k] {
      assert Find(r.workStatuses, k) == Find(h.workStatuses, k);
    }
  }

  /** One call: every WorkStatus is kept with owner, source and KubeStellar label, or made by it. */
  lemma JobKeepsOrMakes(h: H.State, job: Job)
    ensures KeptOrMade(h, job, RunJob(h, job))
  {
    match GetAppliedManifestWork(job.obj, job.env.listers, job.env.cluster)
    case None =>
    case Some(aw) =>
      if !job.isBeingDeleted {
        UpsertKeepsOrMakes(h.(manifestWorks := job.manifestWorks), job, aw);
      }
  }

  /** Provenance over every run: a WorkStatus on the hub afterwards either was there before, with the
      owner and source it has now, or was made by one of the calls; and what a call made carries a
      KubeStellar label from then on. */
  lemma {:induction false} EveryWorkStatusExplained(h: H.State, jobs: seq<Job>, key: H.ObjectKey)
    requires key in RunJobs(h, jobs).workStatuses
    ensures var ws := RunJobs(h, jobs).workStatuses[key];
            || (key in h.workStatuses && Kept(h.workStatuses[key], ws))
            || (KubeStellarManaged(ws.labels) && exists i :: 0 <= i < |jobs| && MadeBy(jobs[i], key, ws.owner, ws.sourceRef))
    decreases |jobs|
  {
    if jobs != [] {
      var r := RunJob(h, jobs[0]);
      JobKeepsOrMakes(h, jobs[0]);
      EveryWorkStatusExplained(r, jobs[1..], key);
      var ws := RunJobs(h, jobs).workStatuses[key];
      if i :| 0 <= i < |jobs| - 1 && MadeBy(jobs[1..][i], key, ws.owner, ws.sourceRef) {
        assert MadeBy(jobs[i + 1], key, ws.owner, ws.sourceRef);
      } else {
        assert key in r.workStatuses && Kept(r.workStatuses[key], ws);
        if key !in h.workStatuses {
          assert MadeBy(jobs[0], key, ws.owner, ws.sourceRef);
        }
      }
    }
  }
}
