// The AppliedManifestWork events of pkg/agent/reconcilers.go and the start and stop loops they
// set off, as one machine whose threads interleave iteration by iteration.

module Tracking {
  import opened Base
  import opened Schema
  import opened Diff
  import opened Index
  import opened Objects

  type Tracked = map<string, AppliedManifestInfo>

  datatype Event =
    | Applied(name: string, resources: seq<AppliedResource>)
    | Deleted(name: string)

  // What handleAppliedManifestWork decides to do about an event.
  datatype Plan =
    | Requeue
    | Ignore
    | Track(info: AppliedManifestInfo)
    | Update(prior: AppliedManifestInfo, info: AppliedManifestInfo)
    | Untrack(prior: AppliedManifestInfo)

  function PlanFor(tracked: Tracked, ev: Event): Plan {
    match ev
    case Applied(name, resources) =>
      var info := InfoOf(resources);
      if resources == [] then Requeue
      else if name !in tracked then Track(info)
      else if tracked[name] == info then Ignore
      else Update(tracked[name], info)
    case Deleted(name) =>
      if name in tracked then Untrack(tracked[name]) else Ignore
  }

  // One resource as the loops see it.
  datatype Entry = Entry(gvr: GVR, uid: string)

  function Entries(info: AppliedManifestInfo): seq<Entry>
    requires Aligned(info)
  {
    seq(|info.uids|, i requires 0 <= i < |info.uids| => Entry(info.gvrs[i], info.uids[i]))
  }

  function EntryOf(r: AppliedResource): Entry {
    Entry(GvrOf(r), r.uid)
  }

  // A running startInformers or stopInformers call with the entries it still has to go through;
  // untrack says that the manifest is dropped from the tracked ones when the loop is over.
  datatype Thread = Thread(name: string, stopping: bool, rest: seq<Entry>, untrack: bool) {
    predicate Active() {
      rest != [] || untrack
    }
  }

  // listed is a history variable: every entry of every event so far.
  datatype Sys = Sys(index: State, tracked: Tracked, threads: seq<Thread>, listed: set<Entry>)

  datatype Label =
    | Handle(ev: Event, diff: Change)
    | Iterate(t: nat, kind: Option<GVK>)
    | Finish(t: nat)

  const START := Sys(BOOTED, map[], [], {})

  ghost predicate AllAligned(tracked: Tracked) {
    forall name :: name in tracked ==> Aligned(tracked[name]) && tracked[name].uids != []
  }

  // The diff, of all those map iteration order allows, that this update computed.
  ghost predicate DiffFits(plan: Plan, diff: Change) {
    plan.Update? ==>
      && Aligned(plan.prior) && Aligned(plan.info)
      && IsDiff(plan.prior, plan.info, diff.added, diff.removed)
      && Aligned(diff.added) && Aligned(diff.removed)
  }

  ghost predicate Enabled(s: Sys, l: Label) {
    match l
    case Handle(ev, diff) => AllAligned(s.tracked) && DiffFits(PlanFor(s.tracked, ev), diff)
    case Iterate(t, _) => t < |s.threads| && s.threads[t].rest != []
    case Finish(t) => t < |s.threads| && s.threads[t].rest == [] && s.threads[t].untrack
  }

  function ListedBy(ev: Event): set<Entry> {
    match ev
    case Applied(_, resources) => set r | r in resources :: EntryOf(r)
    case Deleted(_) => {}
  }

  ghost function HandleStep(s: Sys, ev: Event, diff: Change): Sys
    requires Enabled(s, Handle(ev, diff))
  {
    var t := s.(listed := s.listed + ListedBy(ev));
    var name := ev.name;
    match PlanFor(s.tracked, ev)
    case Requeue => t
    case Ignore => t
    case Track(info) =>
      t.(tracked := s.tracked[name := info], threads := s.threads + [Thread(name, false, Entries(info), false)])
    case Update(_, info) =>
      t.(tracked := s.tracked[name := info],
         threads := s.threads + [Thread(name, false, Entries(diff.added), false),
                                 Thread(name, true, Entries(diff.removed), false)])
    case Untrack(prior) =>
      t.(threads := s.threads + [Thread(name, true, Entries(prior), true)])
  }

  // What an iteration on entry e does to the index, once the kind is known.
  function IndexStep(index: State, stopping: bool, e: Entry, kind: GVK): Outcome {
    if stopping then Step(index, Remove(KindKey(kind), e.uid))
    else if Excluded(kind) then Fine(index)
    else Step(index, Add(KindKey(kind), e.gvr, e.uid))
  }

  datatype Result = Next(sys: Sys) | Panicked

  // A failed lookup ends the loop.
  function IterateStep(s: Sys, t: nat, kind: Option<GVK>): Result
    requires t < |s.threads| && s.threads[t].rest != []
  {
    var th := s.threads[t];
    match kind
    case None => Next(s.(threads := s.threads[t := th.(rest := [])]))
    case Some(gvk) =>
      match IndexStep(s.index, th.stopping, th.rest[0], gvk)
      case Panic => Panicked
      case Fine(index) => Next(s.(index := index, threads := s.threads[t := th.(rest := th.rest[1..])]))
  }

  function FinishStep(s: Sys, t: nat): Sys
    requires t < |s.threads|
  {
    s.(tracked := s.tracked - {s.threads[t].name}, threads := s.threads[t := s.threads[t].(untrack := false)])
  }

  ghost function SysStep(s: Sys, l: Label): Result
    requires Enabled(s, l)
  {
    match l
    case Handle(ev, diff) => Next(HandleStep(s, ev, diff))
    case Iterate(t, kind) => IterateStep(s, t, kind)
    case Finish(t) => Next(FinishStep(s, t))
  }

  // ----- what every run keeps, whatever the UIDs, the mapper and the interleaving -----

  ghost predicate Within(s: seq<Entry>, listed: set<Entry>) {
    forall e :: e in s ==> e in listed
  }

  /** Tracked lists are nonempty and aligned, and each of their entries, like each entry a loop has
      still to go through, is one resource of one earlier event. */
  ghost predicate WellTracked(s: Sys) {
    && AllAligned(s.tracked)
    && (forall name :: name in s.tracked ==> Within(Entries(s.tracked[name]), s.listed))
    && (forall t :: 0 <= t < |s.threads| ==> Within(s.threads[t].rest, s.listed))
  }

  ghost predicate SysInv(s: Sys) {
    Consistent(s.index) && Bounded(s.index) && WellTracked(s)
  }

  lemma InfoListed(resources: seq<AppliedResource>, name: string)
    ensures Aligned(InfoOf(resources))
    ensures Within(Entries(InfoOf(resources)), ListedBy(Applied(name, resources)))
  {
    forall e | e in Entries(InfoOf(resources)) ensures e in ListedBy(Applied(name, resources)) {
      var i :| 0 <= i < |resources| && e == Entries(InfoOf(resources))[i];
      assert e == EntryOf(resources[i]);
    }
  }

  lemma SelectionWithin(part: AppliedManifestInfo, info: AppliedManifestInfo, uids: set<string>, listed: set<Entry>)
    requires Aligned(info) && Selection(part, info, uids) && Within(Entries(info), listed)
    ensures Within(Entries(part), listed)
  {
    forall e | e in Entries(part) ensures e in listed {
      var i :| 0 <= i < |part.uids| && e == Entries(part)[i];
      var j :| 0 <= j < |info.uids| && info.uids[j] == part.uids[i] && info.gvrs[j] == part.gvrs[i];
      assert e == Entries(info)[j];
    }
  }

  /** Whatever diff comes out of an update, the lists handed to startInformers and stopInformers are
      aligned, so uids[i] is never out of range, and pair up only what an event paired up. */
  lemma DiffListed(prior: AppliedManifestInfo, info: AppliedManifestInfo, diff: Change, listed: set<Entry>)
    requires Aligned(prior) && Aligned(info) && IsDiff(prior, info, diff.added, diff.removed)
    requires Within(Entries(prior), listed) && Within(Entries(info), listed)
    ensures Aligned(diff.added) && Aligned(diff.removed)
    ensures Within(Entries(diff.added), listed) && Within(Entries(diff.removed), listed)
  {
    if prior.uids != [] && info.uids != [] {
      SelectionWithin(diff.added, info, Elements(info.uids) - Elements(prior.uids), listed);
      SelectionWithin(diff.removed, prior, Elements(prior.uids) - Elements(info.uids), listed);
    }
  }

  lemma HandleKeepsTracked(s: Sys, ev: Event, diff: Change)
    requires WellTracked(s) && Enabled(s, Handle(ev, diff))
    ensures WellTracked(HandleStep(s, ev, diff))
  {
    var t := HandleStep(s, ev, diff);
    var plan := PlanFor(s.tracked, ev);
    if ev.Applied? {
      InfoListed(ev.resources, ev.name);
      if plan.Update? {
        DiffListed(plan.prior, plan.info, diff, t.listed);
      }
    }
    forall i | 0 <= i < |t.threads| ensures Within(t.threads[i].rest, t.listed) {
      if i < |s.threads| {
        assert t.threads[i] == s.threads[i];
      }
    }
  }

  lemma IterateKeepsInv(s: Sys, t: nat, kind: Option<GVK>)
    requires SysInv(s) && t < |s.threads| && s.threads[t].rest != []
    ensures IterateStep(s, t, kind).Next? && SysInv(IterateStep(s, t, kind).sys)
  {
    var th := s.threads[t];
    if kind.Some? {
      StepSafe(s.index, Remove(KindKey(kind.value), th.rest[0].uid));
      StepSafe(s.index, Add(KindKey(kind.value), th.rest[0].gvr, th.rest[0].uid));
    }
    var u := IterateStep(s, t, kind).sys;
    forall i | 0 <= i < |u.threads| ensures Within(u.threads[i].rest, u.listed) {
      assert Within(s.threads[i].rest, s.listed);
    }
  }

  lemma SysStepKeepsInv(s: Sys, l: Label)
    requires SysInv(s) && Enabled(s, l)
    ensures SysStep(s, l).Next? && SysInv(SysStep(s, l).sys)
  {
    match l
    case Handle(ev, diff) => HandleKeepsTracked(s, ev, diff);
    case Iterate(t, kind) => IterateKeepsInv(s, t, kind);
    case Finish(t) =>
      var u := FinishStep(s, t);
      forall i | 0 <= i < |u.threads| ensures Within(u.threads[i].rest, u.listed) {
        assert Within(s.threads[i].rest, s.listed);
      }
  }

  ghost predicate IsRun(s: Sys, labels: seq<Label>)
    decreases |labels|
  {
    labels != [] ==>
      && Enabled(s, labels[0])
      && (SysStep(s, labels[0]).Next? ==> IsRun(SysStep(s, labels[0]).sys, labels[1..]))
  }

  ghost function RunSys(s: Sys, labels: seq<Label>): Result
    requires IsRun(s, labels)
    decreases |labels|
  {
    if labels == [] then Next(s)
    else
      match SysStep(s, labels[0])
      case Panicked => Panicked
      case Next(t) => RunSys(t, labels[1..])
  }

  /** Every run of events and loop iterations, with any UIDs, any KindFor answers and any
      interleaving: no close of a closed channel and no missing stopper, counts and informers in agreement,
      channels safe, lists aligned. */
  lemma {:induction false} EveryRunSafe(s: Sys, labels: seq<Label>)
    requires SysInv(s) && IsRun(s, labels)
    ensures RunSys(s, labels).Next? && SysInv(RunSys(s, labels).sys)
    decreases |labels|
  {
    if labels != [] {
      SysStepKeepsInv(s, labels[0]);
      EveryRunSafe(SysStep(s, labels[0]).sys, labels[1..]);
    }
  }

  lemma StartInv()
    ensures SysInv(START)
  {
    BootedConsistent();
  }

  /** An event can always be handled: the diffs that fit are those the code may compute, and there is one. */
  lemma HandleEnabled(s: Sys, ev: Event, diff: Change)
    requires WellTracked(s)
    ensures Enabled(s, Handle(ev, diff)) <==>
              var plan := PlanFor(s.tracked, ev);
              plan.Update? ==> Aligned(plan.prior) && Aligned(plan.info) && IsDiff(plan.prior, plan.info, diff.added, diff.removed)
    ensures exists d :: Enabled(s, Handle(ev, d))
  {
    DiffsFit(s, ev, diff);
    var plan := PlanFor(s.tracked, ev);
    if plan.Update? {
      InfoListed(ev.resources, ev.name);
      var d := DiffExists(plan.prior, plan.info);
      DiffsFit(s, ev, d);
      assert Enabled(s, Handle(ev, d));
    } else {
      assert Enabled(s, Handle(ev, diff));
    }
  }

  lemma DiffsFit(s: Sys, ev: Event, diff: Change)
    requires WellTracked(s)
    ensures Enabled(s, Handle(ev, diff)) <==>
              var plan := PlanFor(s.tracked, ev);
              plan.Update? ==> Aligned(plan.prior) && Aligned(plan.info) && IsDiff(plan.prior, plan.info, diff.added, diff.removed)
  {
    var plan := PlanFor(s.tracked, ev);
    if plan.Update? && IsDiff(plan.prior, plan.info, diff.added, diff.removed) {
      InfoListed(ev.resources, ev.name);
      DiffListed(plan.prior, plan.info, diff, Elements(Entries(plan.prior)) + Elements(Entries(plan.info)));
    }
  }

  lemma NoElements<T>(s: seq<T>)
    ensures Elements(s) == {} <==> s == []
  {
    assert |s| > 0 ==> s[0] in Elements(s);
  }

  /** An update that only permutes the resources, their UIDs being distinct, is recorded but gives
      both loops nothing to do, so no informer and no UID set changes. */
  lemma ReorderingStartsNothing(s: Sys, name: string, resources: seq<AppliedResource>, diff: Change)
    requires Enabled(s, Handle(Applied(name, resources), diff))
    requires name in s.tracked && Distinct(s.tracked[name].uids)
    requires multiset(InfoOf(resources).uids) == multiset(s.tracked[name].uids)
    ensures var t := HandleStep(s, Applied(name, resources), diff);
            && t.tracked == s.tracked[name := InfoOf(resources)] && t.index == s.index
            && |t.threads| >= |s.threads| && t.threads[..|s.threads|] == s.threads
            && forall i :: |s.threads| <= i < |t.threads| ==> !t.threads[i].Active()
  {
    var prior, info := s.tracked[name], InfoOf(resources);
    assert prior.uids[0] in multiset(info.uids);
    if prior != info {
      DiffUids(prior, info, diff.added, diff.removed);
      assert forall uid :: uid in prior.uids <==> uid in multiset(prior.uids);
      assert forall uid :: uid in info.uids <==> uid in multiset(info.uids);
      assert forall uid :: uid in diff.added.uids ==> uid in Elements(diff.added.uids);
      assert forall uid :: uid in diff.removed.uids ==> uid in Elements(diff.removed.uids);
      NoElements(diff.added.uids);
      NoElements(diff.removed.uids);
    } else {
      assert s.tracked == s.tracked[name := info];
    }
  }
}
