// What handling an AppliedManifestWork with the agent object comes to, said with the fields of its
// resources.

module AgentOutcomes {
  import opened Base
  import opened Schema
  import opened Diff
  import opened Objects
  import T = Tracking
  import A = StatusAgent

  // The manifest is tracked with these resources, UIDs and GVRs in their order.
  ghost predicate TrackedAs(tracked: T.Tracked, name: string, resources: seq<AppliedResource>) {
    && name in tracked && |tracked[name].uids| == |tracked[name].gvrs| == |resources|
    && forall i :: 0 <= i < |resources| ==>
         var r, gvr := resources[i], tracked[name].gvrs[i];
         tracked[name].uids[i] == r.uid && gvr.group == r.group && gvr.version == r.version && gvr.resource == r.resource
  }

  function UidsOf(resources: seq<AppliedResource>): set<string> {
    set r | r in resources :: r.uid
  }

  lemma TrackedAsIff(tracked: T.Tracked, name: string, resources: seq<AppliedResource>)
    ensures TrackedAs(tracked, name, resources) <==> name in tracked && tracked[name] == InfoOf(resources)
  {
    if TrackedAs(tracked, name, resources) {
      assert tracked[name].uids == InfoOf(resources).uids;
      assert tracked[name].gvrs == InfoOf(resources).gvrs;
    }
  }

  lemma InfoUids(resources: seq<AppliedResource>)
    ensures Elements(InfoOf(resources).uids) == UidsOf(resources)
  {
    forall uid ensures uid in InfoOf(resources).uids <==> uid in UidsOf(resources) {
      if uid in UidsOf(resources) {
        var r :| r in resources && r.uid == uid;
        var i :| 0 <= i < |resources| && resources[i] == r;
        assert InfoOf(resources).uids[i] == uid;
      }
    }
  }

  // no manifest but this one is affected
  ghost predicate OthersKept(was: A.Snapshot, now: A.Snapshot, name: string) {
    forall n :: n != name ==> Find(now.tracked, n) == Find(was.tracked, n)
  }

  /** The manifest is there, with resources. A new one is tracked, and the start of all it lists launched; one
      tracked with the same list is left alone; and for one tracked with another the new list is recorded,
      the start of the added UIDs launched, and the stop of the removed ones carried out. */
  lemma AppliedByFields(obj: Object, diff: Change, mapper: Option<A.Mapper>, was: A.Snapshot, now: A.Snapshot,
                        requeue: bool, exit: A.Exit)
    requires obj.applied.Some? && obj.applied.value.appliedResources != []
    requires A.ManifestHandled(obj, false, diff, mapper, was, now, requeue, exit)
    ensures var resources := obj.applied.value.appliedResources;
            && !requeue && TrackedAs(now.tracked, obj.name, resources) && OthersKept(was, now, obj.name)
            && if obj.name !in was.tracked then
                 exit == A.Done && now.state == was.state && now.launched == was.launched + [now.tracked[obj.name]]
               else if TrackedAs(was.tracked, obj.name, resources) then exit == A.Done && now == was
               else
                 && now.launched == was.launched + [diff.added]
                 && Elements(diff.added.uids) == UidsOf(resources) - Elements(was.tracked[obj.name].uids)
                 && Elements(diff.removed.uids) == Elements(was.tracked[obj.name].uids) - UidsOf(resources)
                 && |diff.removed.gvrs| == |diff.removed.uids|
                 && A.Stopped(mapper, diff.removed, was.state, now.state)
                 && exit == if mapper.None? && diff.removed.uids != [] then A.Crashed else A.Done
  {
    var resources := obj.applied.value.appliedResources;
    TrackedAsIff(now.tracked, obj.name, resources);
    TrackedAsIff(was.tracked, obj.name, resources);
    InfoUids(resources);
    var plan := T.PlanFor(was.tracked, T.Applied(obj.name, resources));
    if plan.Update? {
      DiffUids(plan.prior, plan.info, diff.added, diff.removed);
    }
  }

  /** The manifest is there without resources: nothing changes, and it is looked at again. */
  lemma EmptyByFields(obj: Object, diff: Change, mapper: Option<A.Mapper>, was: A.Snapshot, now: A.Snapshot,
                      requeue: bool, exit: A.Exit)
    requires obj.applied.Some? && obj.applied.value.appliedResources == []
    requires A.ManifestHandled(obj, false, diff, mapper, was, now, requeue, exit)
    ensures requeue && exit == A.Done && now == was
  {
  }

  /** The manifest is gone: if it was tracked all it lists is stopped, and then it is tracked no more;
      otherwise nothing happens. */
  lemma GoneByFields(obj: Object, diff: Change, mapper: Option<A.Mapper>, was: A.Snapshot, now: A.Snapshot,
                     requeue: bool, exit: A.Exit)
    requires obj.applied.Some? && A.ManifestHandled(obj, true, diff, mapper, was, now, requeue, exit)
    ensures !requeue && now.launched == was.launched && OthersKept(was, now, obj.name)
    ensures if obj.name !in was.tracked then exit == A.Done && now == was
            else
              && |was.tracked[obj.name].gvrs| == |was.tracked[obj.name].uids|
              && A.Stopped(mapper, was.tracked[obj.name], was.state, now.state)
              && exit == (if mapper.None? && was.tracked[obj.name].uids != [] then A.Crashed else A.Done)
              && (obj.name in now.tracked <==> exit == A.Crashed)
  {
  }
}
