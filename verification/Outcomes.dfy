// What handleWorkStatus comes to, said with the fields of the objects involved: when it succeeds, what it
// leaves on the hub, and what each hub call means.

module Outcomes {
  import opened Base
  import opened Text
  import opened Objects
  import H = Hub
  import opened WorkStatuses
  import Names

  // ----- the hub -----

  lemma FetchMeans<T>(m: map<H.ObjectKey, T>, key: H.ObjectKey, fault: H.Fault)
    ensures var r := H.Fetch(m, key, fault);
            && (r.Got? <==> fault == H.NoFault && key in m) && (r.Got? ==> r.value == m[key])
            && (r == H.NotGot(H.Error.NotFound) <==> fault == H.NoFault && key !in m)
  {
  }

  /** A Create takes effect iff the key is free and the call does not fail before; it reports an error iff it
      failed or the key was taken. */
  lemma CreateMeans(h: H.State, key: H.ObjectKey, ws: H.WorkStatus, fault: H.Fault)
    ensures var r := H.Create(h, key, ws, fault);
            && (r.error.None? <==> fault == H.NoFault && key !in h.workStatuses)
            && r.hub.manifestWorks == h.manifestWorks
            && if key !in h.workStatuses && fault != H.FailsBefore then
                 r.hub.workStatuses == h.workStatuses[key := ws] && r.hub.created == h.created + multiset{key}
               else r.hub == h
  {
  }

  lemma DeleteMeans(h: H.State, key: H.ObjectKey, fault: H.Fault)
    ensures var r := H.Delete(h, key, fault);
            && (r.error.None? <==> fault == H.NoFault && key in h.workStatuses)
            && r.hub.manifestWorks == h.manifestWorks && r.hub.created == h.created
            && forall k :: Find(r.hub.workStatuses, k) == if k == key && fault != H.FailsBefore then None else Find(h.workStatuses, k)
  {
  }

  /** A label patch or a status update changes that label or that status of an existing WorkStatus, unless it
      fails before, and nothing else. */
  lemma UpdateMeans(h: H.State, key: H.ObjectKey, labelKey: string, value: string, status: RawStatus, fault: H.Fault)
    ensures var p, u := H.PatchLabel(h, key, labelKey, value, fault), H.UpdateStatus(h, key, status, fault);
            && (p.error.None? <==> fault == H.NoFault && key in h.workStatuses)
            && (u.error.None? <==> fault == H.NoFault && key in h.workStatuses)
            && if key in h.workStatuses && fault != H.FailsBefore then
                 var ws := h.workStatuses[key];
                 && p.hub == h.(workStatuses := h.workStatuses[key := ws.(labels := ws.labels[labelKey := value])])
                 && u.hub == h.(workStatuses := h.workStatuses[key := ws.(status := Some(status))])
               else p.hub == h && u.hub == h
  {
  }

  // ----- success -----

  // An unstructured object that has a status.
  predicate HasStatus(obj: Object) {
    !obj.goStruct && obj.status.Some?
  }

  /** Owned by KubeStellar: some label starts with one of its two prefixes. */
  lemma ManagedIff(labels: H.Labels)
    ensures KubeStellarManaged(labels) <==>
              exists key, rest :: key in labels && (key == "managed-by.kubestellar.io" + rest || key == "transport.kubestellar.io" + rest)
  {
    forall key ensures HasPrefix(key, MANAGED_BY_PREFIX) <==> exists rest :: key == "managed-by.kubestellar.io" + rest {
      HasPrefixIff(key, MANAGED_BY_PREFIX);
    }
    forall key ensures HasPrefix(key, TRANSPORT_PREFIX) <==> exists rest :: key == "transport.kubestellar.io" + rest {
      HasPrefixIff(key, TRANSPORT_PREFIX);
    }
  }

  const SINGLETON := "managed-by.kubestellar.io/singletonstatus"

  // The object's singleton label is not the WorkStatus's.
  predicate NeedsPatch(labels: H.Labels, obj: Object) {
    SINGLETON in obj.labels && !(SINGLETON in labels && labels[SINGLETON] == obj.labels[SINGLETON])
  }

  function NameOf(env: Env, aw: AppliedManifestWork, obj: Object): H.ObjectKey {
    H.ObjectKey(env.clusterName, Names.BuildWorkstatusName(aw.uid, obj.gvk, obj.namespace, obj.name))
  }

  function OwnerKey(env: Env, aw: AppliedManifestWork): H.ObjectKey {
    H.ObjectKey(env.clusterName, aw.content.manifestWorkName)
  }

  /** When an attempt for a live object succeeds. With the WorkStatus there: the object has a status and the
      calls go through, the patch where one is needed. Without: the ManifestWork can be had, and either it is
      not KubeStellar's, and nothing is to be done, or the mapper knows the kind, the WorkStatus is made and
      the status reported. */
  lemma UpsertSucceedsIff(env: Env, h: H.State, aw: AppliedManifestWork, obj: Object, f: Faults)
    ensures var key, mwKey := NameOf(env, aw, obj), OwnerKey(env, aw);
            UpsertWorkStatus(env, h, aw, obj, f).ok <==>
              && f.get == H.NoFault
              && if key in h.workStatuses then
                   HasStatus(obj) && f.update == H.NoFault && (NeedsPatch(h.workStatuses[key].labels, obj) ==> f.patch == H.NoFault)
                 else
                   && f.getManifestWork == H.NoFault && mwKey in h.manifestWorks
                   && (KubeStellarManaged(h.manifestWorks[mwKey].labels) ==>
                         obj.gvk in env.gvrFor && f.create == H.NoFault && HasStatus(obj) && f.update == H.NoFault)
  {
  }

  /** A WorkStatus that was there: a successful attempt leaves it with the object's status and singleton
      label, and all else as it was. */
  lemma UpdatedByFields(env: Env, h: H.State, aw: AppliedManifestWork, obj: Object, f: Faults)
    requires UpsertWorkStatus(env, h, aw, obj, f).ok && NameOf(env, aw, obj) in h.workStatuses
    ensures var key, hub := NameOf(env, aw, obj), UpsertWorkStatus(env, h, aw, obj, f).hub;
            && key in hub.workStatuses && hub.created == h.created && hub.manifestWorks == h.manifestWorks
            && var was, ws := h.workStatuses[key], hub.workStatuses[key];
               && ws.status == obj.status && obj.status.Some?
               && ws.owner == was.owner && ws.sourceRef == was.sourceRef && ws.currencyTime == was.currencyTime
               && forall l :: Find(ws.labels, l) == if l == SINGLETON && l in obj.labels then Some(obj.labels[l]) else Find(was.labels, l)
  {
  }

  /** One that was not there: a successful attempt makes it iff the ManifestWork is KubeStellar's, and then
      with the ManifestWork as owner and its labels, the object's singleton label and status, the object as
      source, and no currency time yet. */
  lemma CreatedByFields(env: Env, h: H.State, aw: AppliedManifestWork, obj: Object, f: Faults)
    requires UpsertWorkStatus(env, h, aw, obj, f).ok && NameOf(env, aw, obj) !in h.workStatuses
    ensures var key, mwKey, hub := NameOf(env, aw, obj), OwnerKey(env, aw), UpsertWorkStatus(env, h, aw, obj, f).hub;
            && mwKey in h.manifestWorks
            && if !KubeStellarManaged(h.manifestWorks[mwKey].labels) then hub == h
               else
                 && key in hub.workStatuses && hub.created == h.created + multiset{key} && obj.gvk in env.gvrFor
                 && var mw, ws, gvr := h.manifestWorks[mwKey], hub.workStatuses[key], env.gvrFor[obj.gvk];
                    && ws.owner == Some(aw.content.manifestWorkName) && ws.status == obj.status && obj.status.Some?
                    && (forall l :: Find(ws.labels, l) == if l == SINGLETON && l in obj.labels then Some(obj.labels[l]) else Find(mw.labels, l))
                    && ws.sourceRef.group == gvr.group && ws.sourceRef.version == gvr.version && ws.sourceRef.resource == gvr.resource
                    && ws.sourceRef.kind == obj.gvk.kind && ws.sourceRef.name == obj.name && ws.sourceRef.namespace == obj.namespace
                    && ws.currencyTime == 0
  {
  }

  /** Whatever calls fail: a success with the WorkStatus on the hub means that it reports the status of an
      object that has one. */
  lemma SuccessReportsStatus(env: Env, h: H.State, aw: AppliedManifestWork, obj: Object, f: Faults)
    ensures var key, r := NameOf(env, aw, obj), UpsertWorkStatus(env, h, aw, obj, f);
            r.ok && key in r.hub.workStatuses ==> HasStatus(obj) && r.hub.workStatuses[key].status == obj.status
  {
    if UpsertWorkStatus(env, h, aw, obj, f).ok {
      UpsertSucceedsIff(env, h, aw, obj, f);
      if NameOf(env, aw, obj) in h.workStatuses {
        UpdatedByFields(env, h, aw, obj, f);
      } else {
        CreatedByFields(env, h, aw, obj, f);
      }
    }
  }

  /** A deletion fails iff the AppliedManifestWork cannot be found or the Get fails for another reason than
      there being nothing to get; and it leaves all other WorkStatuses alone. */
  lemma DeletionByFields(env: Env, h: H.State, obj: Object, f: Faults)
    ensures var aw, r := GetAppliedManifestWork(obj, env.listers, env.cluster), HandleWorkStatus(env, h, obj, true, f);
            && (r.ok <==> aw.Some? && f.get == H.NoFault)
            && (!r.ok ==> r.hub == h)
            && (r.ok ==> forall k :: Find(r.hub.workStatuses, k)
                                  == if k == NameOf(env, aw.value, obj) && f.delete != H.FailsBefore then None else Find(h.workStatuses, k))
  {
  }

  /** Without its AppliedManifestWork no object is handled; with it a live one is upserted. */
  lemma LiveByFields(env: Env, h: H.State, obj: Object, f: Faults)
    ensures var aw, r := GetAppliedManifestWork(obj, env.listers, env.cluster), HandleWorkStatus(env, h, obj, false, f);
            if aw.None? then !r.ok && r.hub == h else r == UpsertWorkStatus(env, h, aw.value, obj, f)
  {
  }
}
