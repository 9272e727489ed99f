// Draining the work queue: reconcile and processNextWorkItem over a fixed snapshot of the listers,
// with the keys taken in any order and any hub calls failing.

module Drain {
  import opened Base
  import opened Schema
  import opened Objects
  import H = Hub
  import opened WorkStatuses
  import opened Retry
  import opened Outcomes

  // What reconcile makes of a key before it acts.
  datatype Work =
    | Nothing
    | Unusable
    | ManifestEvent(obj: Object, isBeingDeleted: bool)
    | Workload(obj: Object, isBeingDeleted: bool)

  function Classify(obj: Object, isBeingDeleted: bool): Work {
    if IsAppliedManifestWork(obj) then ManifestEvent(obj, isBeingDeleted)
    else if IsManagedByAppliedManifestWork(obj) then Workload(obj, isBeingDeleted)
    else Nothing
  }

  // A key carrying a deleted object counts as a deletion only if the object is gone by now.
  function Resolve(listers: Listers, cluster: Cluster, key: Key): Work {
    match GetObjectFromKey(listers, cluster, key)
    case Found(obj) => Classify(obj, false)
    case NotFound => if key.deleted.Some? then Classify(key.deleted.value, true) else Nothing
    case ListerNotFound => Nothing
    case InvalidKey => Unusable
  }

  function WorkOf(env: Env, key: Key): Work {
    Resolve(env.listers, env.cluster, key)
  }

  // reconcile, for keys that do not lead to an AppliedManifestWork
  ghost function Reconcile(env: Env, h: H.State, key: Key, f: Faults): Handled
    requires !WorkOf(env, key).ManifestEvent?
  {
    match WorkOf(env, key)
    case Nothing => Handled(h, true)
    case Unusable => Handled(h, false)
    case Workload(obj, isBeingDeleted) => HandleWorkStatus(env, h, obj, isBeingDeleted, f)
  }

  datatype QueueState = QueueState(queue: multiset<Key>, hub: H.State)
  datatype Pick = Pick(key: Key, faults: Faults)

  // processNextWorkItem: the key goes back unless reconcile succeeded
  ghost function QueueStep(env: Env, s: QueueState, p: Pick): QueueState
    requires !WorkOf(env, p.key).ManifestEvent?
  {
    var r := Reconcile(env, s.hub, p.key, p.faults);
    QueueState(if r.ok then s.queue - multiset{p.key} else s.queue, r.hub)
  }

  ghost predicate WorkloadKeys(env: Env, queue: multiset<Key>) {
    forall key :: key in queue ==> !WorkOf(env, key).ManifestEvent?
  }

  ghost predicate IsDrain(env: Env, s: QueueState, picks: seq<Pick>)
    decreases |picks|
  {
    picks != [] ==>
      && picks[0].key in s.queue && !WorkOf(env, picks[0].key).ManifestEvent?
      && IsDrain(env, QueueStep(env, s, picks[0]), picks[1..])
  }

  ghost function RunDrain(env: Env, s: QueueState, picks: seq<Pick>): QueueState
    requires IsDrain(env, s, picks)
    decreases |picks|
  {
    if picks == [] then s else RunDrain(env, QueueStep(env, s, picks[0]), picks[1..])
  }

  ghost predicate DeletesGetThrough(env: Env, picks: seq<Pick>) {
    forall i :: 0 <= i < |picks| && WorkOf(env, picks[i].key).Workload? ==>
      DeleteGetsThrough(WorkOf(env, picks[i].key).isBeingDeleted, picks[i].faults)
  }

  // ----- which WorkStatus a key is about -----

  function TargetOf(env: Env, key: Key): Option<H.ObjectKey> {
    match WorkOf(env, key)
    case Workload(obj, _) =>
      (match GetAppliedManifestWork(obj, env.listers, env.cluster)
       case None => None
       case Some(aw) => Some(WorkStatusKey(env, aw, obj)))
    case _ => None
  }

  /** WorkStatus names are distinct: keys about the same WorkStatus are about the same live object,
      or all about deleted ones. */
  ghost predicate NamesApart(env: Env, queue: multiset<Key>) {
    forall k, l :: k in queue && l in queue && TargetOf(env, k).Some? && TargetOf(env, k) == TargetOf(env, l) ==>
      && WorkOf(env, k).isBeingDeleted == WorkOf(env, l).isBeingDeleted
      && (!WorkOf(env, k).isBeingDeleted ==> WorkOf(env, k).obj == WorkOf(env, l).obj)
  }

  datatype Cell = Cell(workStatus: Option<H.WorkStatus>, created: nat)

  function CellAt(h: H.State, key: H.ObjectKey): Cell {
    Cell(Find(h.workStatuses, key), h.created[key])
  }

  ghost function KeyGoal(env: Env, h: H.State, key: Key): H.State
    requires WorkOf(env, key).Workload?
  {
    JobGoal(env, h, WorkOf(env, key).obj, WorkOf(env, key).isBeingDeleted)
  }

  lemma GoalElsewhere(env: Env, h: H.State, key: Key, c: H.ObjectKey)
    requires WorkOf(env, key).Workload? && TargetOf(env, key) != Some(c)
    ensures CellAt(KeyGoal(env, h, key), c) == CellAt(h, c)
  {
  }

  lemma SameCellsSameHub(g: H.State, h: H.State)
    requires g.manifestWorks == h.manifestWorks && forall c :: CellAt(g, c) == CellAt(h, c)
    ensures g == h
  {
    forall c ensures Find(g.workStatuses, c) == Find(h.workStatuses, c) && g.created[c] == h.created[c] {
      assert CellAt(g, c) == CellAt(h, c);
    }
    SameFinds(g.workStatuses, h.workStatuses);
    assert g.created == h.created;
  }

  // The goal for a WorkStatus depends on nothing but that WorkStatus and the ManifestWorks.
  lemma GoalLocal(env: Env, g: H.State, h: H.State, key: Key, c: H.ObjectKey)
    requires WorkOf(env, key).Workload? && TargetOf(env, key) == Some(c)
    requires g.manifestWorks == h.manifestWorks && CellAt(g, c) == CellAt(h, c)
    ensures CellAt(KeyGoal(env, g, key), c) == CellAt(KeyGoal(env, h, key), c)
  {
    assert Find(g.workStatuses, c) == Find(h.workStatuses, c);
    var obj := WorkOf(env, key).obj;
    var aw := GetAppliedManifestWork(obj, env.listers, env.cluster).value;
    assert StandingOf(env, g, aw, obj) == StandingOf(env, h, aw, obj);
  }

  // Keys about the same WorkStatus have the same goal for it.
  lemma SameTargetSameGoal(env: Env, queue: multiset<Key>, h: H.State, k: Key, l: Key)
    requires NamesApart(env, queue) && k in queue && l in queue
    requires TargetOf(env, k).Some? && TargetOf(env, k) == TargetOf(env, l)
    ensures WorkOf(env, k).Workload? && WorkOf(env, l).Workload? && KeyGoal(env, h, k) == KeyGoal(env, h, l)
  {
  }

  // ----- the invariant of a drain -----

  /** While draining, each WorkStatus asked for is on its way to where it should end, and there once
      one of its keys has left the queue; all others are as they were. */
  ghost predicate OnTheWay(env: Env, start: QueueState, s: QueueState) {
    && s.queue <= start.queue
    && s.hub.manifestWorks == start.hub.manifestWorks
    && (forall k :: k in start.queue ==> KeyOnTheWay(env, start, s, k))
    && (forall c :: (forall k :: k in start.queue ==> TargetOf(env, k) != Some(c)) ==> CellAt(s.hub, c) == CellAt(start.hub, c))
  }

  // If the WorkStatus of a live object is there, the object has a status.
  predicate Reportable(env: Env, hub: H.State, key: Key, c: H.ObjectKey)
    requires WorkOf(env, key).Workload?
  {
    !WorkOf(env, key).isBeingDeleted && c in hub.workStatuses ==> HasStatus(WorkOf(env, key).obj)
  }

  ghost predicate KeyOnTheWay(env: Env, start: QueueState, s: QueueState, k: Key) {
    match TargetOf(env, k)
    case None => WorkOf(env, k) == Nothing || start.queue[k] == s.queue[k]
    case Some(c) =>
      && WorkOf(env, k).Workload?
      && CellAt(KeyGoal(env, s.hub, k), c) == CellAt(KeyGoal(env, start.hub, k), c)
      && (s.queue[k] < start.queue[k] ==>
            CellAt(s.hub, c) == CellAt(KeyGoal(env, start.hub, k), c) && Reportable(env, s.hub, k, c))
  }

  lemma StepKeepsKey(env: Env, start: QueueState, s: QueueState, p: Pick, k: Key)
    requires OnTheWay(env, start, s) && NamesApart(env, start.queue) && WorkloadKeys(env, start.queue)
    requires p.key in s.queue && k in start.queue && DeletesGetThrough(env, [p])
    ensures !WorkOf(env, p.key).ManifestEvent? && KeyOnTheWay(env, start, QueueStep(env, s, p), k)
  {
    assert p.key in start.queue;
    assert KeyOnTheWay(env, start, s, k);
    if WorkOf(env, p.key).Workload? {
      if TargetOf(env, k).Some? && TargetOf(env, k) == TargetOf(env, p.key) {
        SameTarget(env, start, s, p, k, TargetOf(env, k).value);
      } else {
        OtherTarget(env, start, s, p, k);
      }
    }
  }

  // a step about one WorkStatus, seen from any other
  lemma StepElsewhere(env: Env, s: QueueState, p: Pick, c: H.ObjectKey)
    requires !WorkOf(env, p.key).ManifestEvent? && TargetOf(env, p.key) != Some(c)
    ensures CellAt(QueueStep(env, s, p).hub, c) == CellAt(s.hub, c)
  {
    if WorkOf(env, p.key).Workload? {
      HandleFrame(env, s.hub, WorkOf(env, p.key).obj, WorkOf(env, p.key).isBeingDeleted, p.faults);
    }
  }

  lemma StepManifestWorks(env: Env, s: QueueState, p: Pick)
    requires !WorkOf(env, p.key).ManifestEvent?
    ensures QueueStep(env, s, p).hub.manifestWorks == s.hub.manifestWorks
  {
    if WorkOf(env, p.key).Workload? {
      HandleFrame(env, s.hub, WorkOf(env, p.key).obj, WorkOf(env, p.key).isBeingDeleted, p.faults);
    }
  }

  // without a WorkStatus to work on, handleWorkStatus fails and its key stays
  lemma NoTargetStays(env: Env, s: QueueState, p: Pick)
    requires WorkOf(env, p.key).Workload? && TargetOf(env, p.key).None?
    ensures QueueStep(env, s, p) == s
  {
  }

  lemma OtherTarget(env: Env, start: QueueState, s: QueueState, p: Pick, k: Key)
    requires KeyOnTheWay(env, start, s, k) && WorkOf(env, p.key).Workload? && p.key in s.queue
    requires TargetOf(env, k).None? || TargetOf(env, k) != TargetOf(env, p.key)
    ensures KeyOnTheWay(env, start, QueueStep(env, s, p), k)
  {
    if TargetOf(env, p.key).None? {
      NoTargetStays(env, s, p);
    } else if TargetOf(env, k).Some? {
      var c := TargetOf(env, k).value;
      StepElsewhere(env, s, p, c);
      StepManifestWorks(env, s, p);
      GoalLocal(env, QueueStep(env, s, p).hub, s.hub, k, c);
      assert k != p.key;
    }
  }

  lemma SameTarget(env: Env, start: QueueState, s: QueueState, p: Pick, k: Key, c: H.ObjectKey)
    requires OnTheWay(env, start, s) && NamesApart(env, start.queue) && WorkOf(env, p.key).Workload?
    requires p.key in s.queue && k in start.queue && DeletesGetThrough(env, [p])
    requires TargetOf(env, k) == TargetOf(env, p.key) == Some(c)
    ensures KeyOnTheWay(env, start, QueueStep(env, s, p), k)
  {
    var t := QueueStep(env, s, p);
    assert p.key in start.queue;
    assert KeyOnTheWay(env, start, s, k);
    assert [p][0] == p;
    HandleTowardGoal(env, s.hub, WorkOf(env, p.key).obj, WorkOf(env, p.key).isBeingDeleted, p.faults);
    SameTargetSameGoal(env, start.queue, s.hub, k, p.key);
    SameTargetSameGoal(env, start.queue, t.hub, k, p.key);
    var work := WorkOf(env, p.key);
    if !work.isBeingDeleted {
      SuccessReportsStatus(env, s.hub, GetAppliedManifestWork(work.obj, env.listers, env.cluster).value, work.obj, p.faults);
      LiveByFields(env, s.hub, work.obj, p.faults);
    }
    if s.queue[k] < start.queue[k] {
      // already there, and not left
      forall d ensures CellAt(KeyGoal(env, s.hub, k), d) == CellAt(s.hub, d) {
        if d != c {
          GoalElsewhere(env, s.hub, k, d);
        }
      }
      SameCellsSameHub(KeyGoal(env, s.hub, k), s.hub);
    }
  }

  lemma StepOnTheWay(env: Env, start: QueueState, s: QueueState, p: Pick)
    requires OnTheWay(env, start, s) && NamesApart(env, start.queue) && WorkloadKeys(env, start.queue)
    requires p.key in s.queue && DeletesGetThrough(env, [p])
    ensures !WorkOf(env, p.key).ManifestEvent? && OnTheWay(env, start, QueueStep(env, s, p))
  {
    assert p.key in start.queue;
    var t := QueueStep(env, s, p);
    forall k | k in start.queue ensures KeyOnTheWay(env, start, t, k) {
      StepKeepsKey(env, start, s, p, k);
    }
    StepManifestWorks(env, s, p);
    forall c | forall k :: k in start.queue ==> TargetOf(env, k) != Some(c) ensures CellAt(t.hub, c) == CellAt(start.hub, c) {
      assert TargetOf(env, p.key) != Some(c);
      StepElsewhere(env, s, p, c);
    }
  }

  lemma {:induction false} DrainOnTheWay(env: Env, start: QueueState, s: QueueState, picks: seq<Pick>)
    requires OnTheWay(env, start, s) && NamesApart(env, start.queue) && WorkloadKeys(env, start.queue)
    requires IsDrain(env, s, picks) && DeletesGetThrough(env, picks)
    ensures OnTheWay(env, start, RunDrain(env, s, picks))
    decreases |picks|
  {
    if picks != [] {
      assert DeletesGetThrough(env, [picks[0]]) by {
        assert [picks[0]][0] == picks[0];
      }
      StepOnTheWay(env, start, s, picks[0]);
      DrainOnTheWay(env, start, QueueStep(env, s, picks[0]), picks[1..]);
    }
  }

  // ----- the theorems -----

  /** Where a drain ends, said without reference to any order. */
  ghost predicate Outcome(env: Env, start: QueueState, hub: H.State) {
    && hub.manifestWorks == start.hub.manifestWorks
    && (forall k :: k in start.queue && TargetOf(env, k).Some? ==>
          WorkOf(env, k).Workload?
          && CellAt(hub, TargetOf(env, k).value) == CellAt(KeyGoal(env, start.hub, k), TargetOf(env, k).value)
          && Reportable(env, hub, k, TargetOf(env, k).value))
    && (forall c :: (forall k :: k in start.queue ==> TargetOf(env, k) != Some(c)) ==> CellAt(hub, c) == CellAt(start.hub, c))
  }

  /** Queue drain convergence: any order of the keys, with any failures and retries on the way, ends
      with the same hub once the queue is empty. */
  lemma DrainConverges(env: Env, start: QueueState, picks: seq<Pick>)
    requires NamesApart(env, start.queue) && WorkloadKeys(env, start.queue)
    requires IsDrain(env, start, picks) && DeletesGetThrough(env, picks) && RunDrain(env, start, picks).queue == multiset{}
    ensures Outcome(env, start, RunDrain(env, start, picks).hub)
  {
    forall k | k in start.queue ensures KeyOnTheWay(env, start, start, k) {}
    DrainOnTheWay(env, start, start, picks);
    var s := RunDrain(env, start, picks);
    forall k | k in start.queue && TargetOf(env, k).Some?
      ensures WorkOf(env, k).Workload?
      ensures CellAt(s.hub, TargetOf(env, k).value) == CellAt(KeyGoal(env, start.hub, k), TargetOf(env, k).value)
      ensures Reportable(env, s.hub, k, TargetOf(env, k).value)
    {
      assert KeyOnTheWay(env, start, s, k);
    }
  }

  /** No lost key: at any point of a drain, every key is still queued, or had nothing to do, or has
      its WorkStatus where it should end, to stay there. */
  lemma NoKeyLost(env: Env, start: QueueState, picks: seq<Pick>, key: Key)
    requires NamesApart(env, start.queue) && WorkloadKeys(env, start.queue) && key in start.queue
    requires IsDrain(env, start, picks) && DeletesGetThrough(env, picks)
    ensures var s := RunDrain(env, start, picks);
            || s.queue[key] == start.queue[key]
            || WorkOf(env, key) == Nothing
            || (WorkOf(env, key).Workload? && TargetOf(env, key).Some?
                && var c := TargetOf(env, key).value; CellAt(s.hub, c) == CellAt(KeyGoal(env, start.hub, key), c))
  {
    forall k | k in start.queue ensures KeyOnTheWay(env, start, start, k) {}
    DrainOnTheWay(env, start, start, picks);
    assert KeyOnTheWay(env, start, RunDrain(env, start, picks), key);
  }

  lemma OutcomeUnique(env: Env, start: QueueState, g: H.State, h: H.State)
    requires Outcome(env, start, g) && Outcome(env, start, h)
    ensures g == h
  {
    forall c ensures CellAt(g, c) == CellAt(h, c) {
      if k :| k in start.queue && TargetOf(env, k) == Some(c) {
        assert CellAt(g, c) == CellAt(KeyGoal(env, start.hub, k), c) == CellAt(h, c);
      }
    }
    SameCellsSameHub(g, h);
  }

  /** Two drains of the same queue, in whatever order and with whatever failures, agree. */
  lemma DrainOrderIrrelevant(env: Env, start: QueueState, picks: seq<Pick>, picks': seq<Pick>)
    requires NamesApart(env, start.queue) && WorkloadKeys(env, start.queue)
    requires IsDrain(env, start, picks) && DeletesGetThrough(env, picks) && RunDrain(env, start, picks).queue == multiset{}
    requires IsDrain(env, start, picks') && DeletesGetThrough(env, picks') && RunDrain(env, start, picks').queue == multiset{}
    ensures RunDrain(env, start, picks).hub == RunDrain(env, start, picks').hub
  {
    DrainConverges(env, start, picks);
    DrainConverges(env, start, picks');
    OutcomeUnique(env, start, RunDrain(env, start, picks).hub, RunDrain(env, start, picks').hub);
  }

  /** What that hub says: a present object's WorkStatus reports it, even if its key carried a deleted
      object; a gone object's WorkStatus is gone. */
  lemma DrainedHubReports(env: Env, start: QueueState, hub: H.State, key: Key)
    requires Outcome(env, start, hub) && key in start.queue && TargetOf(env, key).Some?
    ensures var c, work := TargetOf(env, key).value, WorkOf(env, key);
            && work.Workload?
            && (work.isBeingDeleted ==> c !in hub.workStatuses)
            && (!work.isBeingDeleted && c in hub.workStatuses ==>
                  !work.obj.goStruct && work.obj.status.Some? && hub.workStatuses[c].status == work.obj.status)
            && (!work.isBeingDeleted ==>
                  var aw := GetAppliedManifestWork(work.obj, env.listers, env.cluster).value;
                  match StandingOf(env, start.hub, aw, work.obj)
                  case Exists => c in hub.workStatuses && hub.workStatuses[c] == Reporting(start.hub.workStatuses[c], work.obj)
                  case Creatable(mw, gvr) => c in hub.workStatuses && hub.workStatuses[c] == Reporting(NewWorkStatus(mw, aw, work.obj, gvr), work.obj)
                  case _ => c !in hub.workStatuses)
  {
    var c := TargetOf(env, key).value;
    assert CellAt(hub, c) == CellAt(KeyGoal(env, start.hub, key), c);
    assert Find(hub.workStatuses, c) == Find(KeyGoal(env, start.hub, key).workStatuses, c);
  }

  // A live object found under a key hides the deleted object the key may carry.
  lemma StaleDeletionIgnored(env: Env, key: Key, obj: Object)
    requires GetObjectFromKey(env.listers, env.cluster, key) == Found(obj)
    ensures WorkOf(env, key) == WorkOf(env, key.(deleted := None)) == Classify(obj, false)
  {
  }

  // ----- what becomes of a key, said by what its lookup finds -----

  /** A key that nothing is to be done about leaves the queue: its object is gone and it carries none, or its
      kind has no lister any more, or the object it leads to has no owning AppliedManifestWork. */
  lemma IdleKeyLeaves(env: Env, s: QueueState, key: Key, f: Faults)
    requires var found := GetObjectFromKey(env.listers, env.cluster, key);
             || (found == NotFound && key.deleted.None?) || found == ListerNotFound
             || (found.Found? && found.obj.gvk != GVK("work.open-cluster-management.io", "v1", "AppliedManifestWork")
                 && AppliedOwnerName(found.obj.owners) == "")
             || (found == NotFound && key.deleted.Some? && AppliedOwnerName(key.deleted.value.owners) == ""
                 && key.deleted.value.gvk != GVK("work.open-cluster-management.io", "v1", "AppliedManifestWork"))
    ensures !WorkOf(env, key).ManifestEvent? && QueueStep(env, s, Pick(key, f)) == QueueState(s.queue - multiset{key}, s.hub)
  {
  }

  /** A malformed key stays, and nothing happens. */
  lemma MalformedKeyStays(env: Env, s: QueueState, key: Key, f: Faults)
    requires GetObjectFromKey(env.listers, env.cluster, key) == InvalidKey
    ensures !WorkOf(env, key).ManifestEvent? && QueueStep(env, s, Pick(key, f)) == s
  {
  }

  /** A key whose object is in its cache leaves iff the object could be handled as a live one. */
  lemma LiveKeyByLookup(env: Env, s: QueueState, key: Key, f: Faults, obj: Object)
    requires GetObjectFromKey(env.listers, env.cluster, key) == Found(obj)
    requires obj.gvk != GVK("work.open-cluster-management.io", "v1", "AppliedManifestWork") && AppliedOwnerName(obj.owners) != ""
    ensures !WorkOf(env, key).ManifestEvent?
    ensures var t, r := QueueStep(env, s, Pick(key, f)), HandleWorkStatus(env, s.hub, obj, false, f);
            t.hub == r.hub && t.queue == if r.ok then s.queue - multiset{key} else s.queue
  {
  }

  /** A key whose object is gone and that carries it leaves iff its WorkStatus could be looked for, and then,
      unless the Delete failed unnoticed, no WorkStatus is there under the object's name. */
  lemma DeletionKeyByLookup(env: Env, s: QueueState, key: Key, f: Faults, obj: Object)
    requires GetObjectFromKey(env.listers, env.cluster, key) == NotFound && key.deleted == Some(obj)
    requires obj.gvk != GVK("work.open-cluster-management.io", "v1", "AppliedManifestWork") && AppliedOwnerName(obj.owners) != ""
    ensures !WorkOf(env, key).ManifestEvent?
    ensures var t, aw := QueueStep(env, s, Pick(key, f)), GetAppliedManifestWork(obj, env.listers, env.cluster);
            if aw.Some? && f.get == H.NoFault then
              t.queue == s.queue - multiset{key}
              && (f.delete != H.FailsBefore ==> NameOf(env, aw.value, obj) !in t.hub.workStatuses)
            else t == s
  {
    DeletionByFields(env, s.hub, obj, f);
    if f.delete != H.FailsBefore && f.get == H.NoFault && GetAppliedManifestWork(obj, env.listers, env.cluster).Some? {
      var c := NameOf(env, GetAppliedManifestWork(obj, env.listers, env.cluster).value, obj);
      assert Find(HandleWorkStatus(env, s.hub, obj, true, f).hub.workStatuses, c) == None;
    }
  }

  // ----- termination -----

  // Nothing but hub failures can make this key fail.
  ghost predicate Healthy(env: Env, h: H.State, key: Key) {
    match WorkOf(env, key)
    case Nothing => true
    case Workload(obj, isBeingDeleted) => JobAttainable(env, h, obj, isBeingDeleted)
    case _ => false
  }

  function FaultyPicks(picks: seq<Pick>): nat {
    if picks == [] then 0 else (if picks[0].faults == NO_FAULTS then 0 else 1) + FaultyPicks(picks[1..])
  }

  ghost predicate AllHealthy(env: Env, s: QueueState) {
    forall k :: k in s.queue ==> Healthy(env, s.hub, k)
  }

  // Work on one WorkStatus never makes the goal of another unattainable.
  lemma AttainableElsewhere(env: Env, g: H.State, h: H.State, key: Key)
    requires WorkOf(env, key).Workload? && g.manifestWorks == h.manifestWorks
    requires TargetOf(env, key).Some? ==> CellAt(g, TargetOf(env, key).value) == CellAt(h, TargetOf(env, key).value)
    ensures Healthy(env, g, key) <==> Healthy(env, h, key)
  {
    if TargetOf(env, key).Some? {
      var c := TargetOf(env, key).value;
      assert Find(g.workStatuses, c) == Find(h.workStatuses, c);
    }
  }

  lemma StepKeepsHealthy(env: Env, s: QueueState, p: Pick, k: Key)
    requires AllHealthy(env, s) && NamesApart(env, s.queue) && p.key in s.queue && k in s.queue && DeletesGetThrough(env, [p])
    ensures !WorkOf(env, p.key).ManifestEvent? && Healthy(env, QueueStep(env, s, p).hub, k)
  {
    assert Healthy(env, s.hub, p.key) && Healthy(env, s.hub, k);
    if WorkOf(env, p.key).Workload? && WorkOf(env, k).Workload? {
      var obj, del := WorkOf(env, p.key).obj, WorkOf(env, p.key).isBeingDeleted;
      assert [p][0] == p;
      HandleTowardGoal(env, s.hub, obj, del, p.faults);
      HandleFrame(env, s.hub, obj, del, p.faults);
      if TargetOf(env, k) != TargetOf(env, p.key) {
        AttainableElsewhere(env, QueueStep(env, s, p).hub, s.hub, k);
      } else {
        SameTargetSameGoal(env, s.queue, s.hub, k, p.key);
      }
    }
  }

  /** Without a failure a healthy key leaves the queue. */
  lemma HealthyKeyLeaves(env: Env, s: QueueState, key: Key)
    requires Healthy(env, s.hub, key)
    ensures !WorkOf(env, key).ManifestEvent? && QueueStep(env, s, Pick(key, NO_FAULTS)).queue == s.queue - multiset{key}
  {
    if WorkOf(env, key).Workload? {
      HandleTowardGoal(env, s.hub, WorkOf(env, key).obj, WorkOf(env, key).isBeingDeleted, NO_FAULTS);
    }
  }

  /** Drain termination: every step either shortens the queue or uses up a failure, so the steps
      taken, and the keys still queued, are never more than the keys at the start and the steps that
      met a failure. */
  lemma {:induction false} DrainTerminates(env: Env, s: QueueState, picks: seq<Pick>)
    requires AllHealthy(env, s) && NamesApart(env, s.queue) && IsDrain(env, s, picks) && DeletesGetThrough(env, picks)
    ensures |picks| + |RunDrain(env, s, picks).queue| <= |s.queue| + FaultyPicks(picks)
    ensures AllHealthy(env, RunDrain(env, s, picks))
    decreases |picks|
  {
    if picks != [] {
      var p := picks[0];
      var t := QueueStep(env, s, p);
      assert DeletesGetThrough(env, [p]) by {
        assert [p][0] == p;
      }
      forall k | k in t.queue ensures Healthy(env, t.hub, k) {
        StepKeepsHealthy(env, s, p, k);
      }
      assert t.queue <= s.queue;
      if p.faults == NO_FAULTS {
        HealthyKeyLeaves(env, s, p.key);
        assert |t.queue| == |s.queue| - 1;
      }
      DrainTerminates(env, t, picks[1..]);
    }
  }

  /** ... and it ends in a drained queue: after that many steps nothing is left. */
  lemma DrainCompletes(env: Env, s: QueueState, picks: seq<Pick>)
    requires AllHealthy(env, s) && NamesApart(env, s.queue) && IsDrain(env, s, picks) && DeletesGetThrough(env, picks)
    requires |picks| >= |s.queue| + FaultyPicks(picks)
    ensures RunDrain(env, s, picks).queue == multiset{}
  {
    DrainTerminates(env, s, picks);
  }
}
