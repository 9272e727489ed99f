// From the tracked manifests to the work queue: the objects a drained agent has been told of are watched,
// and their keys are looked up where they are watched.

module Watching {
  import opened Base
  import opened Schema
  import opened Index
  import opened Objects
  import opened Tracking
  import opened Refinement
  import opened IndexRefinement

  // Each lister reads the cache of a resource of its kind.
  ghost predicate ListersResolve(index: State, kindFor: KindFor) {
    forall key :: key in index.listers && key != AW_KEY ==>
      KindKey(kindFor(index.listers[key].gvr)) == key && !Excluded(kindFor(index.listers[key].gvr))
  }

  lemma AddResolves(index: State, kindFor: KindFor, gvr: GVR, uid: string)
    requires ListersResolve(index, kindFor) && !Excluded(kindFor(gvr))
    ensures var r := Step(index, Add(KindKey(kindFor(gvr)), gvr, uid)); r.Fine? && ListersResolve(r.state, kindFor)
  {
  }

  lemma RemoveResolves(index: State, kindFor: KindFor, key: string, uid: string)
    requires ListersResolve(index, kindFor)
    ensures var r := Step(index, Remove(key, uid)); r.Fine? ==> ListersResolve(r.state, kindFor)
  {
  }

  lemma StepResolves(s: Sys, kindFor: KindFor, l: Label)
    requires Refines(s, kindFor) && ListersResolve(s.index, kindFor) && GoodLabel(s, kindFor, l)
    ensures SysStep(s, l).Next? && ListersResolve(SysStep(s, l).sys.index, kindFor)
  {
    SysStepKeepsInv(s, l);
    if l.Iterate? {
      var th := s.threads[l.t];
      var e := th.rest[0];
      RemoveResolves(s.index, kindFor, KindKey(kindFor(e.gvr)), e.uid);
      if !Excluded(kindFor(e.gvr)) {
        AddResolves(s.index, kindFor, e.gvr, e.uid);
      }
    }
  }

  lemma {:induction false} RunResolves(s: Sys, kindFor: KindFor, labels: seq<Label>)
    requires Refines(s, kindFor) && ListersResolve(s.index, kindFor) && GoodRun(s, kindFor, labels)
    ensures IsRun(s, labels) && RunSys(s, labels).Next? && ListersResolve(RunSys(s, labels).sys.index, kindFor)
    decreases |labels|
  {
    if labels != [] {
      StepRefines(s, kindFor, labels[0]);
      StepResolves(s, kindFor, labels[0]);
      RunResolves(SysStep(s, labels[0]).sys, kindFor, labels[1..]);
    }
  }

  lemma StartResolves(kindFor: KindFor)
    ensures ListersResolve(START.index, kindFor)
  {
    assert START.index.listers.Keys == {AW_KEY};
  }

  lemma Listed(kindFor: KindFor, labels: seq<Label>, name: string, e: Entry)
    requires GoodRun(START, kindFor, labels) && !Excluded(kindFor(e.gvr))
    ensures IsRun(START, labels) && RunSys(START, labels).Next?
    ensures var s := RunSys(START, labels).sys;
            Drained(s) && name in s.tracked && e in EntriesOf(s.tracked[name]) ==>
              KindKey(kindFor(e.gvr)) != AW_KEY && KindKey(kindFor(e.gvr)) in s.index.listers
              && ListersResolve(s.index, kindFor) && SameKeys(s.index)
  {
    StartRefines(kindFor);
    StartResolves(kindFor);
    RunResolves(START, kindFor, labels);
    RunRefines(START, kindFor, labels);
    IndexRefinesTracked(kindFor, labels);
    var s := RunSys(START, labels).sys;
    if Drained(s) && name in s.tracked && e in EntriesOf(s.tracked[name]) {
      assert e.uid in Recomputed(kindFor, s.tracked, KindKey(kindFor(e.gvr)));
    }
  }

  /** After any run under the hypotheses whose loops have drained: an object of a kind that some tracked
      manifest lists, excluded kinds aside, has a lister; the lister is of that very kind; and the key the
      object is queued under reads its entry in that lister's cache. */
  lemma ListedObjectsAreFound(kindFor: KindFor, labels: seq<Label>, name: string, e: Entry, obj: Object, cluster: Cluster)
    requires GoodRun(START, kindFor, labels) && (forall gvr :: SlashFreeKind(kindFor(gvr)))
    requires !Excluded(obj.gvk) && obj.gvk == kindFor(e.gvr) && SlashFreeObject(obj)
    ensures IsRun(START, labels) && RunSys(START, labels).Next?
    ensures var s := RunSys(START, labels).sys;
            Drained(s) && name in s.tracked && e in EntriesOf(s.tracked[name]) ==>
              var listers, key := s.index.listers, KindKey(obj.gvk);
              && key in listers && kindFor(listers[key].gvr) == obj.gvk
              && GetObjectFromKey(listers, cluster, KeyForGroupVersionKindNamespaceName(obj))
                 == match Find(GetOr(cluster, listers[key].gvr, map[]), MetaNamespaceKey(obj.namespace, obj.name))
                    case Some(o) => Found(o)
                    case None => NotFound
  {
    Listed(kindFor, labels, name, e);
    var s := RunSys(START, labels).sys;
    if Drained(s) && name in s.tracked && e in EntriesOf(s.tracked[name]) {
      KindKeyInjective(kindFor(s.index.listers[KindKey(obj.gvk)].gvr), obj.gvk);
      NamespaceNameRoundTrip(obj.namespace, obj.name);
      QueueKeyIsKindKey(obj.gvk);
    }
  }
}
