// What a manifest that lists an AppliedManifestWork does to the agent's own informer, over runs of
// events and loop iterations.

module AwInformer {
  import opened Base
  import opened Schema
  import opened SafeMaps
  import opened Index
  import opened Objects
  import T = Tracking
  import opened AgentRuns

  // ----- a run, as the index sees it -----

  function OpsOfLabel(s: T.Sys, l: T.Label): seq<Op> {
    if l.Iterate? && l.t < |s.threads| && s.threads[l.t].rest != [] && l.kind.Some? then
      var th, key := s.threads[l.t], KindKey(l.kind.value);
      if th.stopping then [Remove(key, th.rest[0].uid)]
      else if Excluded(l.kind.value) then []
      else [Add(key, th.rest[0].gvr, th.rest[0].uid)]
    else []
  }

  ghost function OpsAlong(s: T.Sys, labels: seq<T.Label>): seq<Op>
    requires T.IsRun(s, labels)
    decreases |labels|
  {
    if labels == [] then []
    else
      OpsOfLabel(s, labels[0]) +
      match T.SysStep(s, labels[0])
      case Panicked => []
      case Next(t) => OpsAlong(t, labels[1..])
  }

  lemma StepAlong(s: T.Sys, l: T.Label, rest: seq<Op>)
    requires T.SysInv(s) && T.Enabled(s, l)
    ensures T.SysStep(s, l).Next? && Run(s.index, OpsOfLabel(s, l) + rest) == Run(T.SysStep(s, l).sys.index, rest)
  {
    T.SysStepKeepsInv(s, l);
    var ops, index := OpsOfLabel(s, l), T.SysStep(s, l).sys.index;
    if ops == [] {
      assert ops + rest == rest && index == s.index;
    } else {
      assert (ops + rest)[1..] == rest;
      assert Step(s.index, ops[0]) == Fine(index);
    }
  }

  lemma {:induction false} IndexAlong(s: T.Sys, labels: seq<T.Label>)
    requires T.SysInv(s) && T.IsRun(s, labels)
    ensures T.RunSys(s, labels).Next? && Run(s.index, OpsAlong(s, labels)) == Fine(T.RunSys(s, labels).sys.index)
    decreases |labels|
  {
    if labels != [] {
      T.SysStepKeepsInv(s, labels[0]);
      var t := T.SysStep(s, labels[0]).sys;
      IndexAlong(t, labels[1..]);
      StepAlong(s, labels[0], OpsAlong(t, labels[1..]));
    }
  }

  ghost predicate Fresh(s: T.Sys) {
    T.SysInv(s) && AW_KEY in s.index.stoppers && Uids(s.index.counts, AW_KEY) == {}
  }

  lemma StartFresh()
    ensures Fresh(T.START)
  {
    T.StartInv();
  }

  /** Over every run of events and loops: the agent panics at shutdown iff the first iteration that
      resolved to the AppliedManifestWork kind was one of stopInformers. */
  lemma ShutdownOfRunPanicsIff(s: T.Sys, labels: seq<T.Label>)
    requires Fresh(s) && T.IsRun(s, labels)
    ensures T.RunSys(s, labels).Next?
    ensures Shutdown(T.RunSys(s, labels).sys.index, s.index.stoppers[AW_KEY]).Panic?
       <==> FirstOn(OpsAlong(s, labels), AW_KEY).Some? && FirstOn(OpsAlong(s, labels), AW_KEY).value.Remove?
  {
    IndexAlong(s, labels);
    ShutdownPanicsIff(s.index, OpsAlong(s, labels));
  }

  /** ... and its own lister is gone iff some iteration resolved to that kind and no UID of it is
      counted any more. */
  lemma AwListerOfRunGoneIff(s: T.Sys, labels: seq<T.Label>)
    requires Fresh(s) && T.IsRun(s, labels)
    ensures T.RunSys(s, labels).Next?
    ensures var index := T.RunSys(s, labels).sys.index;
            AW_KEY !in index.listers <==> FirstOn(OpsAlong(s, labels), AW_KEY).Some? && Uids(index.counts, AW_KEY) == {}
  {
    IndexAlong(s, labels);
    AwListedIff(s.index, OpsAlong(s, labels));
  }

  /** Without that lister every object counts as unmanaged by any AppliedManifestWork that can be found,
      and the key of an AppliedManifestWork finds no lister. */
  lemma WithoutAwLister(listers: Listers, cluster: Cluster, obj: Object)
    requires AW_KEY !in listers
    ensures GetAppliedManifestWork(obj, listers, cluster) == None
    ensures IsAppliedManifestWork(obj) ==> GetObjectFromKey(listers, cluster, KeyForGroupVersionKindNamespaceName(obj)) == ListerNotFound
  {
    QueueKeyIsKindKey(obj.gvk);
  }

  // ----- the orders a manifest with one AppliedManifestWork can bring -----

  const AW_KIND := Some(APPLIED_MANIFEST_WORK_GVK)

  // One step after another.
  lemma Then(s: T.Sys, labels: seq<T.Label>, t: T.Sys, l: T.Label) returns (longer: seq<T.Label>, u: T.Sys)
    requires T.IsRun(s, labels) && T.RunSys(s, labels) == T.Next(t) && T.SysInv(t) && T.Enabled(t, l)
    ensures longer == labels + [l] && T.SysInv(u) && T.SysStep(t, l) == T.Next(u)
    ensures T.IsRun(s, longer) && T.RunSys(s, longer) == T.Next(u)
    ensures Events(longer) == Events(labels) + Events([l])
  {
    OneStep(t, l);
    RunsCompose(s, labels, [l]);
    EventsCompose(labels, [l]);
    longer, u := labels + [l], T.SysStep(t, l).sys;
  }

  lemma Appears(s: T.Sys, name: string, r: AppliedResource) returns (labels: seq<T.Label>, u: T.Sys)
    requires T.SysInv(s) && s.threads == [] && name !in s.tracked
    ensures T.IsRun(s, labels) && T.RunSys(s, labels) == T.Next(u) && T.SysInv(u)
    ensures Events(labels) == [T.Applied(name, [r])]
    ensures u.index == s.index && u.threads == [T.Thread(name, false, [T.EntryOf(r)], false)]
    ensures u.tracked == s.tracked[name := InfoOf([r])]
  {
    var l := T.Handle(T.Applied(name, [r]), NO_DIFF);
    assert T.Entries(InfoOf([r])) == [T.EntryOf(r)];
    OneStep(s, l);
    labels, u := [l], T.SysStep(s, l).sys;
  }

  lemma Goes(s: T.Sys, labels: seq<T.Label>, t: T.Sys, name: string, r: AppliedResource, start: T.Thread)
    returns (longer: seq<T.Label>, u: T.Sys)
    requires T.IsRun(s, labels) && T.RunSys(s, labels) == T.Next(t) && T.SysInv(t)
    requires name in t.tracked && t.tracked[name] == InfoOf([r]) && t.threads == [start]
    ensures T.IsRun(s, longer) && T.RunSys(s, longer) == T.Next(u) && T.SysInv(u)
    ensures Events(longer) == Events(labels) + [T.Deleted(name)]
    ensures u.index == t.index && u.tracked == t.tracked && u.threads == [start, T.Thread(name, true, [T.EntryOf(r)], true)]
  {
    assert T.Entries(InfoOf([r])) == [T.EntryOf(r)];
    longer, u := Then(s, labels, t, T.Handle(T.Deleted(name), NO_DIFF));
  }

  lemma AwNotExcluded()
    ensures !Excluded(APPLIED_MANIFEST_WORK_GVK)
  {
    assert GvkString(APPLIED_MANIFEST_WORK_GVK)[0] == 'w';
  }

  // the only entry of a thread
  lemma AwIteration(s: T.Sys, t: nat, e: T.Entry)
    requires T.SysInv(s) && t < |s.threads| && s.threads[t].rest == [e]
    ensures var op := if s.threads[t].stopping then Remove(AW_KEY, e.uid) else Add(AW_KEY, e.gvr, e.uid);
            && Step(s.index, op).Fine?
            && T.SysStep(s, T.Iterate(t, AW_KIND))
               == T.Next(s.(index := Step(s.index, op).state, threads := s.threads[t := s.threads[t].(rest := [])]))
  {
    AwNotExcluded();
    T.SysStepKeepsInv(s, T.Iterate(t, AW_KIND));
    assert [e][1..] == [];
  }

  // A stop iteration on the kind while the first informer is the registered one closes its channel.
  lemma StopClosesFirst(index: State, uid: string)
    requires Consistent(index) && Bounded(index) && AW_KEY in index.stoppers && Uids(index.counts, AW_KEY) == {}
    ensures Step(index, Remove(AW_KEY, uid)).Fine?
    ensures Shutdown(Step(index, Remove(AW_KEY, uid)).state, index.stoppers[AW_KEY]).Panic?
  {
    StepStopsAwIff(index, Remove(AW_KEY, uid));
  }

  // The manifest goes, and its stop loop runs.
  lemma GoesAndStops(s: T.Sys, labels: seq<T.Label>, t: T.Sys, name: string, r: AppliedResource, start: T.Thread)
    returns (longer: seq<T.Label>, u: T.Sys)
    requires T.IsRun(s, labels) && T.RunSys(s, labels) == T.Next(t) && T.SysInv(t)
    requires name in t.tracked && t.tracked[name] == InfoOf([r]) && t.threads == [start]
    ensures T.IsRun(s, longer) && T.RunSys(s, longer) == T.Next(u)
    ensures Events(longer) == Events(labels) + [T.Deleted(name)]
    ensures Fine(u.index) == Step(t.index, Remove(AW_KEY, r.uid))
  {
    longer, u := Goes(s, labels, t, name, r, start);
    AwIteration(u, 1, T.EntryOf(r));
    longer, u := Then(s, longer, u, T.Iterate(1, AW_KIND));
  }

  /** The manifest appears and goes, and the stop's iteration comes before the start's: shutdown panics. */
  lemma StopBeforeStart(s: T.Sys, name: string, r: AppliedResource) returns (labels: seq<T.Label>)
    requires Fresh(s) && s.threads == [] && name !in s.tracked
    ensures T.IsRun(s, labels) && T.RunSys(s, labels).Next? && Events(labels) == [T.Applied(name, [r]), T.Deleted(name)]
    ensures Shutdown(T.RunSys(s, labels).sys.index, s.index.stoppers[AW_KEY]).Panic?
  {
    var t;
    labels, t := Appears(s, name, r);
    StopClosesFirst(s.index, r.uid);
    labels, t := GoesAndStops(s, labels, t, name, r, T.Thread(name, false, [T.EntryOf(r)], false));
  }

  // The manifest appears, and its start loop comes to its end.
  lemma AppearsAndEnds(s: T.Sys, name: string, r: AppliedResource, kind: Option<GVK>) returns (labels: seq<T.Label>, u: T.Sys)
    requires T.SysInv(s) && s.threads == [] && name !in s.tracked && (kind == None || kind == AW_KIND)
    ensures T.IsRun(s, labels) && T.RunSys(s, labels) == T.Next(u) && T.SysInv(u)
    ensures Events(labels) == [T.Applied(name, [r])]
    ensures u.threads == [T.Thread(name, false, [], false)] && u.tracked == s.tracked[name := InfoOf([r])]
    ensures if kind == None then u.index == s.index else Fine(u.index) == Step(s.index, Add(AW_KEY, GvrOf(r), r.uid))
  {
    labels, u := Appears(s, name, r);
    AwIteration(u, 0, T.EntryOf(r));
    labels, u := Then(s, labels, u, T.Iterate(0, kind));
  }

  /** So it does when the start's lookup fails and the stop's does not. */
  lemma StartLookupFails(s: T.Sys, name: string, r: AppliedResource) returns (labels: seq<T.Label>)
    requires Fresh(s) && s.threads == [] && name !in s.tracked
    ensures T.IsRun(s, labels) && T.RunSys(s, labels).Next? && Events(labels) == [T.Applied(name, [r]), T.Deleted(name)]
    ensures Shutdown(T.RunSys(s, labels).sys.index, s.index.stoppers[AW_KEY]).Panic?
  {
    var t;
    labels, t := AppearsAndEnds(s, name, r, None);
    StopClosesFirst(s.index, r.uid);
    labels, t := GoesAndStops(s, labels, t, name, r, T.Thread(name, false, [], false));
  }

  /** In the ordinary order shutdown is fine, but the agent has lost its lister, and its first
      informer runs on. */
  lemma StartThenStop(s: T.Sys, name: string, r: AppliedResource) returns (labels: seq<T.Label>)
    requires Fresh(s) && s.threads == [] && name !in s.tracked
    ensures T.IsRun(s, labels) && T.RunSys(s, labels).Next? && Events(labels) == [T.Applied(name, [r]), T.Deleted(name)]
    ensures var index := T.RunSys(s, labels).sys.index;
            && Shutdown(index, s.index.stoppers[AW_KEY]).Fine? && s.index.stoppers[AW_KEY] in index.running
            && AW_KEY !in index.listers
  {
    var t;
    labels, t := AppearsAndEnds(s, name, r, AW_KIND);
    AddedFirst(s.index, T.EntryOf(r));
    RemovedAfter(t.index, r.uid, s.index.stoppers[AW_KEY]);
    labels, t := GoesAndStops(s, labels, t, name, r, T.Thread(name, false, [], false));
  }

  lemma AddedFirst(index: State, e: T.Entry)
    requires Consistent(index) && Bounded(index) && AW_KEY in index.stoppers && Uids(index.counts, AW_KEY) == {}
    ensures var r := Step(index, Add(AW_KEY, e.gvr, e.uid));
            r.Fine? && Orphan(r.state, index.stoppers[AW_KEY]) && Uids(r.state.counts, AW_KEY) == {e.uid} && AW_KEY in r.state.informers
  {
    RestartOrphans(index, Add(AW_KEY, e.gvr, e.uid));
    assert Uids(index.counts, AW_KEY) + {e.uid} == {e.uid};
  }

  lemma RemovedAfter(index: State, uid: string, first: nat)
    requires Consistent(index) && Bounded(index) && Orphan(index, first)
    requires AW_KEY in index.informers && Uids(index.counts, AW_KEY) == {uid}
    ensures var r := Step(index, Remove(AW_KEY, uid));
            r.Fine? && Shutdown(r.state, first).Fine? && first in r.state.running && AW_KEY !in r.state.listers
  {
    StepSafe(index, Remove(AW_KEY, uid));
    OrphanStep(index, Remove(AW_KEY, uid), first);
    assert Uids(Removed(index.counts, AW_KEY, uid), AW_KEY) == {};
  }
}
