// Why drain convergence needs distinct WorkStatus names: with a shared one the order of the keys
// decides, and names with dashes do get shared.

module Collisions {
  import opened Base
  import opened Schema
  import opened Names
  import opened Index
  import opened Objects
  import H = Hub
  import opened WorkStatuses
  import opened Retry
  import opened Drain

  // the hub after a healthy key without a failure
  ghost function HealthyHub(env: Env, h: H.State, key: Key): H.State {
    if WorkOf(env, key).Workload? then KeyGoal(env, h, key) else h
  }

  lemma HealthyStep(env: Env, s: QueueState, key: Key)
    requires Healthy(env, s.hub, key)
    ensures !WorkOf(env, key).ManifestEvent?
    ensures QueueStep(env, s, Pick(key, NO_FAULTS)) == QueueState(s.queue - multiset{key}, HealthyHub(env, s.hub, key))
  {
    HealthyKeyLeaves(env, s, key);
    if WorkOf(env, key).Workload? {
      HandleTowardGoal(env, s.hub, WorkOf(env, key).obj, WorkOf(env, key).isBeingDeleted, NO_FAULTS);
    }
  }

  lemma DrainOfTwo(env: Env, s: QueueState, p: Pick, q: Pick, t: QueueState, u: QueueState)
    requires p.key in s.queue && !WorkOf(env, p.key).ManifestEvent? && QueueStep(env, s, p) == t
    requires q.key in t.queue && !WorkOf(env, q.key).ManifestEvent? && QueueStep(env, t, q) == u
    ensures IsDrain(env, s, [p, q]) && RunDrain(env, s, [p, q]) == u
  {
    assert [p, q][1..] == [q] && [q][1..] == [];
    assert IsDrain(env, u, []) && RunDrain(env, u, []) == u;
    assert IsDrain(env, t, [q]) && RunDrain(env, t, [q]) == u;
  }

  lemma TwoPicks(env: Env, s: QueueState, k: Key, l: Key)
    requires s.queue == multiset{k, l} && Healthy(env, s.hub, k) && Healthy(env, HealthyHub(env, s.hub, k), l)
    ensures var picks := [Pick(k, NO_FAULTS), Pick(l, NO_FAULTS)];
            && IsDrain(env, s, picks) && DeletesGetThrough(env, picks)
            && RunDrain(env, s, picks) == QueueState(multiset{}, HealthyHub(env, HealthyHub(env, s.hub, k), l))
  {
    HealthyStep(env, s, k);
    var t := QueueState(multiset{l}, HealthyHub(env, s.hub, k));
    assert s.queue - multiset{k} == multiset{l};
    HealthyStep(env, t, l);
    DrainOfTwo(env, s, Pick(k, NO_FAULTS), Pick(l, NO_FAULTS), t, QueueState(multiset{}, HealthyHub(env, t.hub, l)));
  }

  // k is about a deleted object, l about a live one that could have its WorkStatus, and both have WorkStatus c.
  ghost predicate Colliding(env: Env, h: H.State, k: Key, l: Key, c: H.ObjectKey) {
    && WorkOf(env, k).Workload? && WorkOf(env, k).isBeingDeleted && WorkOf(env, l).Workload? && !WorkOf(env, l).isBeingDeleted
    && TargetOf(env, k) == TargetOf(env, l) == Some(c)
    && var obj, without := WorkOf(env, l).obj, h.(workStatuses := h.workStatuses - {c});
       && StandingOf(env, without, GetAppliedManifestWork(obj, env.listers, env.cluster).value, obj).Creatable?
       && GetObjectStatusAsBytes(obj).Some?
  }

  // ... for the two keys: the deletion's goal lacks the WorkStatus, the live object's has it
  lemma CollidingGoals(env: Env, h: H.State, k: Key, l: Key, c: H.ObjectKey)
    requires Colliding(env, h, k, l, c)
    ensures Healthy(env, h, k) && Healthy(env, HealthyHub(env, h, k), l) && Healthy(env, h, l) && Healthy(env, HealthyHub(env, h, l), k)
    ensures c in HealthyHub(env, HealthyHub(env, h, k), l).workStatuses
    ensures c !in HealthyHub(env, HealthyHub(env, h, l), k).workStatuses
  {
  }

  /** A deleted and a live object whose WorkStatus names collide: whether the live object's WorkStatus
      is there in the end depends on which key is taken first. */
  lemma CollidingNamesOrderMatters(env: Env, h: H.State, k: Key, l: Key, c: H.ObjectKey)
    requires Colliding(env, h, k, l, c)
    ensures var start, p, q := QueueState(multiset{k, l}, h), Pick(k, NO_FAULTS), Pick(l, NO_FAULTS);
            && IsDrain(env, start, [p, q]) && DeletesGetThrough(env, [p, q]) && RunDrain(env, start, [p, q]).queue == multiset{}
            && IsDrain(env, start, [q, p]) && DeletesGetThrough(env, [q, p]) && RunDrain(env, start, [q, p]).queue == multiset{}
            && c in RunDrain(env, start, [p, q]).hub.workStatuses && c !in RunDrain(env, start, [q, p]).hub.workStatuses
  {
    CollidingGoals(env, h, k, l, c);
    var start := QueueState(multiset{k, l}, h);
    TwoPicks(env, start, k, l);
    assert start.queue == multiset{l, k};
    TwoPicks(env, start, l, k);
  }

  // k and l are about live objects that could both have WorkStatus c.
  ghost predicate Twins(env: Env, h: H.State, k: Key, l: Key, c: H.ObjectKey) {
    LiveFor(env, h, k, c) && LiveFor(env, h, l, c)
  }

  ghost predicate LiveFor(env: Env, h: H.State, key: Key, c: H.ObjectKey) {
    && WorkOf(env, key).Workload? && !WorkOf(env, key).isBeingDeleted && TargetOf(env, key) == Some(c)
    && var obj := WorkOf(env, key).obj;
       && GetObjectStatusAsBytes(obj).Some?
       && var standing := StandingOf(env, h, GetAppliedManifestWork(obj, env.listers, env.cluster).value, obj);
          standing.Exists? || standing.Creatable?
  }

  function StatusFor(env: Env, key: Key): Option<RawStatus>
    requires WorkOf(env, key).Workload?
  {
    GetObjectStatusAsBytes(WorkOf(env, key).obj)
  }

  lemma LiveGoal(env: Env, h: H.State, key: Key, c: H.ObjectKey)
    requires LiveFor(env, h, key, c)
    ensures Healthy(env, h, key) && HealthyHub(env, h, key).manifestWorks == h.manifestWorks
    ensures c in HealthyHub(env, h, key).workStatuses && HealthyHub(env, h, key).workStatuses[c].status == StatusFor(env, key)
  {
  }

  lemma StillLive(env: Env, h: H.State, g: H.State, key: Key, c: H.ObjectKey)
    requires LiveFor(env, h, key, c) && c in g.workStatuses
    ensures LiveFor(env, g, key, c)
  {
  }

  lemma TwinsInOrder(env: Env, h: H.State, k: Key, l: Key, c: H.ObjectKey)
    requires Twins(env, h, k, l, c)
    ensures var start, p, q := QueueState(multiset{k, l}, h), Pick(k, NO_FAULTS), Pick(l, NO_FAULTS);
            && IsDrain(env, start, [p, q]) && DeletesGetThrough(env, [p, q])
            && RunDrain(env, start, [p, q]) == QueueState(multiset{}, HealthyHub(env, HealthyHub(env, h, k), l))
  {
    LiveGoal(env, h, k, c);
    StillLive(env, h, HealthyHub(env, h, k), l, c);
    LiveGoal(env, HealthyHub(env, h, k), l, c);
    TwoPicks(env, QueueState(multiset{k, l}, h), k, l);
  }

  function OwnerOf(env: Env, key: Key): string
    requires TargetOf(env, key).Some?
  {
    GetAppliedManifestWork(WorkOf(env, key).obj, env.listers, env.cluster).value.content.manifestWorkName
  }

  function SourceFor(env: Env, key: Key): Option<H.SourceRef>
    requires WorkOf(env, key).Workload?
  {
    var obj := WorkOf(env, key).obj;
    if obj.gvk in env.gvrFor then Some(SourceOf(obj, env.gvrFor[obj.gvk])) else None
  }

  // The singleton labels do not contradict each other.
  predicate LabelsCompatible(a: Object, b: Object) {
    SINGLETON_LABEL in a.labels && SINGLETON_LABEL in b.labels ==> a.labels[SINGLETON_LABEL] == b.labels[SINGLETON_LABEL]
  }

  /** Two live objects with one WorkStatus: whoever is first makes it, if it is not there, and with that
      sets its owner and source for good; whoever is last has its status reported. */
  lemma FirstOwnsLastReports(env: Env, h: H.State, k: Key, l: Key, c: H.ObjectKey)
    requires Twins(env, h, k, l, c)
    ensures var r := HealthyHub(env, HealthyHub(env, h, k), l);
            && c in r.workStatuses && r.workStatuses[c].status == StatusFor(env, l)
            && if c in h.workStatuses then
                 r.workStatuses[c].owner == h.workStatuses[c].owner && r.workStatuses[c].sourceRef == h.workStatuses[c].sourceRef
               else
                 r.workStatuses[c].owner == Some(OwnerOf(env, k)) && Some(r.workStatuses[c].sourceRef) == SourceFor(env, k)
  {
    LiveGoal(env, h, k, c);
    StillLive(env, h, HealthyHub(env, h, k), l, c);
  }

  // the WorkStatus before either is taken, or as the first of them makes it
  ghost function BaseFor(env: Env, h: H.State, key: Key, c: H.ObjectKey): H.WorkStatus
    requires LiveFor(env, h, key, c)
  {
    var obj := WorkOf(env, key).obj;
    var aw := GetAppliedManifestWork(obj, env.listers, env.cluster).value;
    match StandingOf(env, h, aw, obj)
    case Exists => h.workStatuses[c]
    case Creatable(mw, gvr) => NewWorkStatus(mw, aw, obj, gvr)
  }

  lemma InOrder(env: Env, h: H.State, k: Key, l: Key, c: H.ObjectKey)
    requires Twins(env, h, k, l, c)
    ensures var ws := Reporting(Reporting(BaseFor(env, h, k, c), WorkOf(env, k).obj), WorkOf(env, l).obj);
            HealthyHub(env, HealthyHub(env, h, k), l)
            == h.(workStatuses := h.workStatuses[c := ws],
                  created := if c in h.workStatuses then h.created else h.created + multiset{c})
  {
    LiveGoal(env, h, k, c);
    StillLive(env, h, HealthyHub(env, h, k), l, c);
    var first := Reporting(BaseFor(env, h, k, c), WorkOf(env, k).obj);
    Overwrite(h.workStatuses, c, first, Reporting(first, WorkOf(env, l).obj));
  }

  lemma LabelsBothWays(labels: H.Labels, a: Object, b: Object)
    ensures WithSingleton(WithSingleton(labels, a), b) == WithSingleton(WithSingleton(labels, b), a) <==> LabelsCompatible(a, b)
  {
    if SINGLETON_LABEL in a.labels && SINGLETON_LABEL in b.labels {
      assert WithSingleton(WithSingleton(labels, a), b)[SINGLETON_LABEL] == b.labels[SINGLETON_LABEL];
      assert WithSingleton(WithSingleton(labels, b), a)[SINGLETON_LABEL] == a.labels[SINGLETON_LABEL];
    }
  }

  // Where each reports what it should, in either order.
  lemma ReportsBothWays(ws: H.WorkStatus, ws': H.WorkStatus, a: Object, b: Object)
    requires GetObjectStatusAsBytes(a).Some? && GetObjectStatusAsBytes(b).Some?
    requires ws.currencyTime == ws'.currencyTime
    ensures Reporting(Reporting(ws, a), b) == Reporting(Reporting(ws', b), a)
       <==> && GetObjectStatusAsBytes(a) == GetObjectStatusAsBytes(b) && ws.owner == ws'.owner && ws.sourceRef == ws'.sourceRef
            && WithSingleton(WithSingleton(ws.labels, a), b) == WithSingleton(WithSingleton(ws'.labels, b), a)
  {
    ReportingTwice(ws, a);
    ReportingTwice(ws', b);
    ReportingTwice(Reporting(ws, a), b);
    ReportingTwice(Reporting(ws', b), a);
  }

  // a label set by the creation is set again by the report
  lemma CreatedLabels(labels: H.Labels, a: Object)
    ensures WithSingleton(WithSingleton(labels, a), a) == WithSingleton(labels, a)
  {
    if SINGLETON_LABEL in a.labels {
      Overwrite(labels, SINGLETON_LABEL, a.labels[SINGLETON_LABEL], a.labels[SINGLETON_LABEL]);
    }
  }

  /** The exact condition for two live objects with one WorkStatus: the order of their keys does not
      matter iff they have the same status, their singleton labels agree, and, where the WorkStatus is
      still to be made, they have the same ManifestWork and the same source. */
  lemma TwinsAgreeIff(env: Env, h: H.State, k: Key, l: Key, c: H.ObjectKey)
    requires Twins(env, h, k, l, c)
    ensures HealthyHub(env, HealthyHub(env, h, k), l) == HealthyHub(env, HealthyHub(env, h, l), k)
       <==> && StatusFor(env, k) == StatusFor(env, l) && LabelsCompatible(WorkOf(env, k).obj, WorkOf(env, l).obj)
            && (c !in h.workStatuses ==> OwnerOf(env, k) == OwnerOf(env, l) && SourceFor(env, k) == SourceFor(env, l))
  {
    var a, b := WorkOf(env, k).obj, WorkOf(env, l).obj;
    var ws, ws' := BaseFor(env, h, k, c), BaseFor(env, h, l, c);
    InOrder(env, h, k, l, c);
    InOrder(env, h, l, k, c);
    SameCell(h, c, Reporting(Reporting(ws, a), b), Reporting(Reporting(ws', b), a));
    ReportsBothWays(ws, ws', a, b);
    if c in h.workStatuses {
      LabelsBothWays(ws.labels, a, b);
    } else if OwnerOf(env, k) == OwnerOf(env, l) {
      var mw := h.manifestWorks[H.ObjectKey(env.clusterName, OwnerOf(env, k))];
      assert ws.labels == WithSingleton(mw.labels, a) && ws'.labels == WithSingleton(mw.labels, b);
      CreatedLabels(mw.labels, a);
      CreatedLabels(mw.labels, b);
      LabelsBothWays(mw.labels, a, b);
    }
  }

  lemma SameCell(h: H.State, c: H.ObjectKey, ws: H.WorkStatus, ws': H.WorkStatus)
    ensures h.workStatuses[c := ws] == h.workStatuses[c := ws'] <==> ws == ws'
  {
    assert h.workStatuses[c := ws][c] == ws && h.workStatuses[c := ws'][c] == ws';
  }

  /** ... and so for the drains of the two keys. */
  lemma TwinDrainsAgreeIff(env: Env, h: H.State, k: Key, l: Key, c: H.ObjectKey)
    requires Twins(env, h, k, l, c)
    ensures var start, p, q := QueueState(multiset{k, l}, h), Pick(k, NO_FAULTS), Pick(l, NO_FAULTS);
            && IsDrain(env, start, [p, q]) && IsDrain(env, start, [q, p])
            && RunDrain(env, start, [p, q]).queue == RunDrain(env, start, [q, p]).queue == multiset{}
            && (RunDrain(env, start, [p, q]).hub == RunDrain(env, start, [q, p]).hub <==>
                  && StatusFor(env, k) == StatusFor(env, l) && LabelsCompatible(WorkOf(env, k).obj, WorkOf(env, l).obj)
                  && (c !in h.workStatuses ==> OwnerOf(env, k) == OwnerOf(env, l) && SourceFor(env, k) == SourceFor(env, l)))
  {
    TwinsInOrder(env, h, k, l, c);
    assert multiset{k, l} == multiset{l, k};
    TwinsInOrder(env, h, l, k, c);
    TwinsAgreeIff(env, h, k, l, c);
  }

  /** Two deletions never disagree. */
  lemma DeletionsAgree(env: Env, h: H.State, k: Key, l: Key, c: H.ObjectKey)
    requires WorkOf(env, k).Workload? && WorkOf(env, k).isBeingDeleted && TargetOf(env, k) == Some(c)
    requires WorkOf(env, l).Workload? && WorkOf(env, l).isBeingDeleted && TargetOf(env, l) == Some(c)
    ensures HealthyHub(env, HealthyHub(env, h, k), l) == HealthyHub(env, HealthyHub(env, h, l), k)
  {
  }

  ghost function StandingFor(env: Env, h: H.State, key: Key): Standing
    requires TargetOf(env, key).Some?
  {
    var obj := WorkOf(env, key).obj;
    StandingOf(env, h, GetAppliedManifestWork(obj, env.listers, env.cluster).value, obj)
  }

  /** A deletion and a live object disagree iff the live object's WorkStatus, once gone, would be made. */
  lemma DeletionAndLiveAgreeIff(env: Env, h: H.State, k: Key, l: Key, c: H.ObjectKey)
    requires WorkOf(env, k).Workload? && WorkOf(env, k).isBeingDeleted && TargetOf(env, k) == Some(c)
    requires WorkOf(env, l).Workload? && !WorkOf(env, l).isBeingDeleted && TargetOf(env, l) == Some(c)
    requires Healthy(env, h, l) && Healthy(env, HealthyHub(env, h, k), l)
    ensures HealthyHub(env, HealthyHub(env, h, k), l) == HealthyHub(env, HealthyHub(env, h, l), k)
       <==> StandingFor(env, HealthyHub(env, h, k), l).Unmanaged?
  {
    var g := HealthyHub(env, h, l);
    if c in g.workStatuses && c in h.workStatuses {
      assert h.workStatuses[c := g.workStatuses[c]] - {c} == h.workStatuses - {c};
    }
    assert c !in HealthyHub(env, g, k).workStatuses;
  }

  // ----- such objects -----

  function Workload(gvk: GVK, owner: string, namespace: string, name: string, status: RawStatus): Object {
    Object(gvk, namespace, name, "", map[], map[], [OwnerReference(AW_API_VERSION, "AppliedManifestWork", owner)],
           "", 0, 0, [], false, None, Some(status), None)
  }

  function Manifest(name: string, uid: string, manifestWork: string): Object {
    Object(APPLIED_MANIFEST_WORK_GVK, "", name, uid, map[], map[], [], "", 0, 0, [], false, None, None,
           Some(AppliedContent(manifestWork, [])))
  }

  // A cluster with one AppliedManifestWork and objects of one kind.
  datatype Scene = Scene(gvk: GVK, gvr: GVR, owner: string, uid: string, manifestWork: string, clusterName: string) {
    predicate Proper() {
      SlashFreeKind(gvk) && KindKey(gvk) != AW_KEY && gvk != APPLIED_MANIFEST_WORK_GVK && gvr != APPLIED_MANIFEST_WORK_GVR && owner != ""
    }

    function Env(store: Store): Env {
      WorkStatuses.Env(clusterName,
                       map[AW_KEY := Lister(APPLIED_MANIFEST_WORK_GVR, 0), KindKey(gvk) := Lister(gvr, 1)],
                       map[APPLIED_MANIFEST_WORK_GVR := map[owner := Manifest(owner, uid, manifestWork)], gvr := store],
                       map[gvk := gvr])
    }

    function Owner(): AppliedManifestWork {
      AppliedManifestWork(owner, uid, AppliedContent(manifestWork, []))
    }

    function Hub(): H.State {
      H.State(map[], map[H.ObjectKey(clusterName, manifestWork) := H.ManifestWork(map[TRANSPORT_PREFIX := ""])], multiset{})
    }

    function WorkStatusOf(namespace: string, name: string): H.ObjectKey {
      H.ObjectKey(clusterName, BuildWorkstatusName(uid, gvk, namespace, name))
    }
  }

  // Deployments, for one.
  lemma DeploymentsAreProper(owner: string, uid: string, manifestWork: string, clusterName: string)
    requires owner != ""
    ensures Scene(GVK("apps", "v1", "Deployment"), GVR("apps", "v1", "deployments"), owner, uid, manifestWork, clusterName).Proper()
  {
    assert KindKey(GVK("apps", "v1", "Deployment"))[0] == 'a' && AW_KEY[0] == 'w';
  }

  lemma SceneOwner(sc: Scene, store: Store, obj: Object)
    requires sc.Proper() && obj.owners == [OwnerReference(AW_API_VERSION, "AppliedManifestWork", sc.owner)]
    ensures var env := sc.Env(store);
            && AppliedOwnerName(obj.owners) == sc.owner
            && GetAppliedManifestWork(obj, env.listers, env.cluster) == Some(sc.Owner())
  {
    var env := sc.Env(store);
    assert env.listers[AW_KEY].gvr == APPLIED_MANIFEST_WORK_GVR;
    assert env.cluster[APPLIED_MANIFEST_WORK_GVR] == map[sc.owner := Manifest(sc.owner, sc.uid, sc.manifestWork)];
  }

  // The key of an object finds what the cache has under the object's namespace and name.
  lemma SceneLookup(sc: Scene, store: Store, obj: Object)
    requires sc.Proper() && obj.gvk == sc.gvk && SlashFree(obj.namespace) && SlashFree(obj.name)
    ensures var env := sc.Env(store);
            GetObjectFromKey(env.listers, env.cluster, KeyForGroupVersionKindNamespaceName(obj))
            == match Find(store, MetaNamespaceKey(obj.namespace, obj.name)) case Some(o) => Found(o) case None => NotFound
  {
    NamespaceNameRoundTrip(obj.namespace, obj.name);
    QueueKeyIsKindKey(obj.gvk);
    var env := sc.Env(store);
    assert env.listers[KindKey(sc.gvk)].gvr == sc.gvr && env.cluster[sc.gvr] == store;
  }

  lemma SceneManaged(sc: Scene)
    ensures KubeStellarManaged(sc.Hub().manifestWorks[H.ObjectKey(sc.clusterName, sc.manifestWork)].labels)
  {
    var labels: H.Labels := map[TRANSPORT_PREFIX := ""];
    assert TRANSPORT_PREFIX in labels && TRANSPORT_PREFIX <= TRANSPORT_PREFIX;
    assert HasPrefixed(labels, TRANSPORT_PREFIX);
  }

  // A cached object: its key is about it, and its WorkStatus could be made.
  lemma SceneLive(sc: Scene, store: Store, obj: Object)
    requires sc.Proper() && SlashFree(obj.namespace) && SlashFree(obj.name)
    requires obj.status.Some? && obj == Workload(sc.gvk, sc.owner, obj.namespace, obj.name, obj.status.value)
    requires Find(store, MetaNamespaceKey(obj.namespace, obj.name)) == Some(obj)
    ensures LiveFor(sc.Env(store), sc.Hub(), KeyForGroupVersionKindNamespaceName(obj), sc.WorkStatusOf(obj.namespace, obj.name))
  {
    SceneOwner(sc, store, obj);
    SceneLookup(sc, store, obj);
    SceneManaged(sc);
  }

  /** Two live objects whose names differ in where the dash is are twins, in any such cluster. */
  lemma DashedNamesAreTwins(sc: Scene, s: RawStatus, t: RawStatus)
    requires sc.Proper()
    ensures var a, b := Workload(sc.gvk, sc.owner, "a-b", "c", s), Workload(sc.gvk, sc.owner, "a", "b-c", t);
            var store := map[MetaNamespaceKey("a-b", "c") := a, MetaNamespaceKey("a", "b-c") := b];
            Twins(sc.Env(store), sc.Hub(), KeyForGroupVersionKindNamespaceName(a), KeyForGroupVersionKindNamespaceName(b),
                  sc.WorkStatusOf("a-b", "c"))
  {
    var a, b := Workload(sc.gvk, sc.owner, "a-b", "c", s), Workload(sc.gvk, sc.owner, "a", "b-c", t);
    assert MetaNamespaceKey("a-b", "c")[1] != MetaNamespaceKey("a", "b-c")[1];
    var store := map[MetaNamespaceKey("a-b", "c") := a, MetaNamespaceKey("a", "b-c") := b];
    SceneLive(sc, store, a);
    SceneLive(sc, store, b);
    DashedNamespaceCollides(sc.uid, sc.gvk);
  }

  /** ... and if the first is deleted, its key collides with that of the second. */
  lemma DashedNamesCollide(sc: Scene, s: RawStatus, t: RawStatus)
    requires sc.Proper()
    ensures var a, b := Workload(sc.gvk, sc.owner, "a-b", "c", s), Workload(sc.gvk, sc.owner, "a", "b-c", t);
            var store := map[MetaNamespaceKey("a", "b-c") := b];
            Colliding(sc.Env(store), sc.Hub(), KeyForGroupVersionKindNamespaceName(a).(deleted := Some(CopyObjectMetaAndType(a))),
                      KeyForGroupVersionKindNamespaceName(b), sc.WorkStatusOf("a-b", "c"))
  {
    var a, b := Workload(sc.gvk, sc.owner, "a-b", "c", s), Workload(sc.gvk, sc.owner, "a", "b-c", t);
    assert MetaNamespaceKey("a-b", "c")[1] != MetaNamespaceKey("a", "b-c")[1];
    var store := map[MetaNamespaceKey("a", "b-c") := b];
    SceneLive(sc, store, b);
    SceneLookup(sc, store, a);
    SceneOwner(sc, store, CopyObjectMetaAndType(a));
    DashedNamespaceCollides(sc.uid, sc.gvk);
    LiveWithout(sc, store, b, sc.WorkStatusOf("a-b", "c"));
    assert IsManagedByAppliedManifestWork(CopyObjectMetaAndType(a));
  }

  lemma LiveWithout(sc: Scene, store: Store, obj: Object, c: H.ObjectKey)
    requires LiveFor(sc.Env(store), sc.Hub(), KeyForGroupVersionKindNamespaceName(obj), c)
    ensures var env, h := sc.Env(store), sc.Hub();
            && h.(workStatuses := h.workStatuses - {c}) == h
            && StandingOf(env, h, GetAppliedManifestWork(WorkOf(env, KeyForGroupVersionKindNamespaceName(obj)).obj, env.listers, env.cluster).value,
                          WorkOf(env, KeyForGroupVersionKindNamespaceName(obj)).obj).Creatable?
  {
    assert sc.Hub().workStatuses - {c} == map[];
  }
}
