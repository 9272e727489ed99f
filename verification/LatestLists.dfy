// What the index stands for, said by the events alone: not always the latest list of every manifest,
// because an update to an empty list is put back on the queue without further effect.

module LatestLists {
  import opened Schema
  import opened SafeMaps
  import opened Diff
  import opened Objects
  import opened Tracking
  import opened Refinement
  import opened IndexRefinement

  type Lists = map<string, seq<AppliedResource>>

  // Each manifest's latest list, as long as it is there.
  function NextLatest(latest: Lists, l: Label): Lists {
    match l
    case Handle(Applied(name, resources), _) => latest[name := resources]
    case Handle(Deleted(name), _) => latest - {name}
    case _ => latest
  }

  // The same with empty lists passed over.
  function NextNonempty(kept: Lists, l: Label): Lists {
    match l
    case Handle(Applied(name, resources), _) => if resources == [] then kept else kept[name := resources]
    case _ => NextLatest(kept, l)
  }

  function Latest(latest: Lists, labels: seq<Label>): Lists
    decreases |labels|
  {
    if labels == [] then latest else Latest(NextLatest(latest, labels[0]), labels[1..])
  }

  function Nonempty(kept: Lists, labels: seq<Label>): Lists
    decreases |labels|
  {
    if labels == [] then kept else Nonempty(NextNonempty(kept, labels[0]), labels[1..])
  }

  ghost function ListedUids(kindFor: KindFor, lists: Lists, key: string): set<string> {
    set name, r | name in lists && r in lists[name] && Counted(kindFor, GvrOf(r), key) :: r.uid
  }

  // ----- the tracked manifests are the nonempty lists -----

  ghost predicate Linked(s: Sys, kept: Lists) {
    && (forall name :: name in kept ==> name in s.tracked && s.tracked[name] == InfoOf(kept[name]) && !Untracking(s, name))
    && (forall name :: name in s.tracked && !Untracking(s, name) ==> name in kept)
  }

  lemma HandleLinked(s: Sys, kindFor: KindFor, kept: Lists, ev: Event, diff: Change)
    requires Linked(s, kept) && GoodLabel(s, kindFor, Handle(ev, diff))
    ensures Linked(HandleStep(s, ev, diff), NextNonempty(kept, Handle(ev, diff)))
  {
    var u, n := HandleStep(s, ev, diff), |s.threads|;
    QuietNotUntracking(s, ev.name);
    assert u.threads[..n] == s.threads;
    forall name ensures Untracking(u, name) <==> Untracking(s, name) || (PlanFor(s.tracked, ev).Untrack? && name == ev.name) {
      forall i | 0 <= i < n ensures u.threads[i] == s.threads[i] {
        assert u.threads[..n][i] == u.threads[i];
      }
      if PlanFor(s.tracked, ev).Untrack? {
        assert u.threads[n].untrack && u.threads[n].name == ev.name;
      }
    }
  }

  lemma StepLinked(s: Sys, kindFor: KindFor, kept: Lists, l: Label)
    requires Refines(s, kindFor) && Linked(s, kept) && GoodLabel(s, kindFor, l)
    ensures SysStep(s, l).Next? && Linked(SysStep(s, l).sys, NextNonempty(kept, l))
  {
    SysStepKeepsInv(s, l);
    var u := SysStep(s, l).sys;
    match l
    case Handle(ev, diff) => HandleLinked(s, kindFor, kept, ev, diff);
    case Iterate(t, _) =>
      assert u == Popped(s, t, u.index);
      forall name ensures Untracking(u, name) <==> Untracking(s, name) {
        PopUntracking(s, t, u.index, name);
      }
    case Finish(t) =>
      assert Untracking(s, s.threads[t].name);
      forall name ensures Untracking(u, name) <==> Untracking(s, name) && name != s.threads[t].name {
        FinishUntracking(s, kindFor, t, name);
      }
  }

  lemma {:induction false} RunLinked(s: Sys, kindFor: KindFor, kept: Lists, labels: seq<Label>)
    requires Refines(s, kindFor) && Linked(s, kept) && GoodRun(s, kindFor, labels)
    ensures IsRun(s, labels) && RunSys(s, labels).Next?
    ensures Refines(RunSys(s, labels).sys, kindFor) && Linked(RunSys(s, labels).sys, Nonempty(kept, labels))
    decreases |labels|
  {
    if labels != [] {
      StepRefines(s, kindFor, labels[0]);
      StepLinked(s, kindFor, kept, labels[0]);
      RunLinked(SysStep(s, labels[0]).sys, kindFor, NextNonempty(kept, labels[0]), labels[1..]);
    }
  }

  lemma ListEntries(resources: seq<AppliedResource>, e: Entry)
    ensures e in EntriesOf(InfoOf(resources)) <==> exists r :: r in resources && EntryOf(r) == e
  {
    if e in EntriesOf(InfoOf(resources)) {
      var i :| 0 <= i < |resources| && Entries(InfoOf(resources))[i] == e;
      assert EntryOf(resources[i]) == e;
    }
    if r :| r in resources && EntryOf(r) == e {
      var i :| 0 <= i < |resources| && resources[i] == r;
      assert Entries(InfoOf(resources))[i] == e;
    }
  }

  lemma DrainedLists(s: Sys, kindFor: KindFor, kept: Lists, key: string)
    requires Drained(s) && Linked(s, kept)
    ensures s.tracked.Keys == kept.Keys && ListedUids(kindFor, kept, key) == Recomputed(kindFor, s.tracked, key)
  {
    forall name ensures !Untracking(s, name) {}
    forall uid ensures uid in ListedUids(kindFor, kept, key) <==> uid in Recomputed(kindFor, s.tracked, key) {
      if uid in ListedUids(kindFor, kept, key) {
        var name, r :| name in kept && r in kept[name] && Counted(kindFor, GvrOf(r), key) && r.uid == uid;
        ListEntries(kept[name], EntryOf(r));
        assert EntryOf(r) in EntriesOf(s.tracked[name]);
      }
      if uid in Recomputed(kindFor, s.tracked, key) {
        var name, e :| name in s.tracked && e in EntriesOf(s.tracked[name]) && Counted(kindFor, e.gvr, key) && e.uid == uid;
        ListEntries(kept[name], e);
        var r :| r in kept[name] && EntryOf(r) == e;
      }
    }
  }

  /** Index refinement said by the events: the drained index counts, for each kind, the UIDs in each
      manifest's latest nonempty list since it was last deleted. */
  lemma IndexRefinesLists(kindFor: KindFor, labels: seq<Label>)
    requires GoodRun(START, kindFor, labels)
    ensures IsRun(START, labels) && RunSys(START, labels).Next?
    ensures var s := RunSys(START, labels).sys;
            Drained(s) ==> forall key :: key != AW_KEY ==>
              Uids(s.index.counts, key) == ListedUids(kindFor, Nonempty(map[], labels), key)
  {
    StartRefines(kindFor);
    RunLinked(START, kindFor, map[], labels);
    IndexRefinesTracked(kindFor, labels);
    var s := RunSys(START, labels).sys;
    if Drained(s) {
      forall key | key != AW_KEY ensures Uids(s.index.counts, key) == ListedUids(kindFor, Nonempty(map[], labels), key) {
        DrainedLists(s, kindFor, Nonempty(map[], labels), key);
      }
    }
  }

  // ----- the latest lists -----

  ghost predicate Covers(latest: Lists, kept: Lists) {
    && (forall name :: name in kept ==> name in latest && (latest[name] == [] || latest[name] == kept[name]))
    && (forall name :: name in latest && latest[name] != [] ==> name in kept)
  }

  lemma {:induction false} LatestCovers(latest: Lists, kept: Lists, labels: seq<Label>)
    requires Covers(latest, kept)
    ensures Covers(Latest(latest, labels), Nonempty(kept, labels))
    decreases |labels|
  {
    if labels != [] {
      LatestCovers(NextLatest(latest, labels[0]), NextNonempty(kept, labels[0]), labels[1..]);
    }
  }

  /** Some manifest's latest list is empty although an earlier one, since it was last deleted, had a
      resource of a watched kind. */
  ghost predicate Emptied(kindFor: KindFor, latest: Lists, kept: Lists) {
    exists name, r :: name in latest && latest[name] == [] && name in kept && r in kept[name] && !Excluded(kindFor(GvrOf(r)))
  }

  // No two manifests have a resource with the same UID, and none has an AppliedManifestWork.
  ghost predicate ListsApart(kindFor: KindFor, kept: Lists) {
    && (forall n, m, r, q :: n in kept && m in kept && n != m && r in kept[n] && q in kept[m] ==> r.uid != q.uid)
    && (forall n, r :: n in kept && r in kept[n] ==> KindKey(kindFor(GvrOf(r))) != AW_KEY)
  }

  lemma LinkedApart(s: Sys, kindFor: KindFor, kept: Lists)
    requires Linked(s, kept) && TrackedApart(s, kindFor)
    ensures ListsApart(kindFor, kept)
  {
    forall n, r | n in kept && r in kept[n] ensures EntryOf(r) in EntriesOf(s.tracked[n]) {
      ListEntries(kept[n], EntryOf(r));
    }
    forall n, m, r, q | n in kept && m in kept && n != m && r in kept[n] && q in kept[m] ensures r.uid != q.uid {
      assert EntryOf(r) in EntriesOf(s.tracked[n]) && EntryOf(q) in EntriesOf(s.tracked[m]);
    }
    forall n, r | n in kept && r in kept[n] ensures KindKey(kindFor(GvrOf(r))) != AW_KEY {
      assert EntryOf(r) in EntriesOf(s.tracked[n]);
    }
  }

  lemma EmptiedDiffers(kindFor: KindFor, latest: Lists, kept: Lists, name: string, r: AppliedResource, key: string)
    requires Covers(latest, kept) && ListsApart(kindFor, kept)
    requires name in latest && latest[name] == [] && name in kept && r in kept[name] && Counted(kindFor, GvrOf(r), key)
    ensures key != AW_KEY && r.uid in ListedUids(kindFor, kept, key) && r.uid !in ListedUids(kindFor, latest, key)
  {
  }

  lemma OthersSame(kindFor: KindFor, latest: Lists, kept: Lists, key: string)
    requires Covers(latest, kept)
    requires forall name, r :: name in latest && latest[name] == [] && name in kept && r in kept[name] ==> !Counted(kindFor, GvrOf(r), key)
    ensures ListedUids(kindFor, kept, key) == ListedUids(kindFor, latest, key)
  {
    forall uid | uid in ListedUids(kindFor, kept, key) ensures uid in ListedUids(kindFor, latest, key) {
      var name, r :| name in kept && r in kept[name] && Counted(kindFor, GvrOf(r), key) && r.uid == uid;
      assert name in latest && r in latest[name];
    }
    forall uid | uid in ListedUids(kindFor, latest, key) ensures uid in ListedUids(kindFor, kept, key) {
      var name, r :| name in latest && r in latest[name] && Counted(kindFor, GvrOf(r), key) && r.uid == uid;
      assert name in kept && r in kept[name];
    }
  }

  lemma ListsDifferIff(kindFor: KindFor, latest: Lists, kept: Lists)
    requires Covers(latest, kept) && ListsApart(kindFor, kept)
    ensures (forall key :: key != AW_KEY ==> ListedUids(kindFor, kept, key) == ListedUids(kindFor, latest, key))
       <==> !Emptied(kindFor, latest, kept)
  {
    if name, r :| name in latest && latest[name] == [] && name in kept && r in kept[name] && !Excluded(kindFor(GvrOf(r))) {
      EmptiedDiffers(kindFor, latest, kept, name, r, KindKey(kindFor(GvrOf(r))));
    } else {
      forall key | key != AW_KEY ensures ListedUids(kindFor, kept, key) == ListedUids(kindFor, latest, key) {
        OthersSame(kindFor, latest, kept, key);
      }
    }
  }

  /** The drained index is the one recomputed from each manifest's latest list iff no list was emptied
      that had a resource of a watched kind. */
  lemma EmptyUpdateIgnoredIff(kindFor: KindFor, labels: seq<Label>)
    requires GoodRun(START, kindFor, labels)
    ensures IsRun(START, labels) && RunSys(START, labels).Next?
    ensures var s := RunSys(START, labels).sys;
            Drained(s) ==>
              ((forall key :: key != AW_KEY ==> Uids(s.index.counts, key) == ListedUids(kindFor, Latest(map[], labels), key))
               <==> !Emptied(kindFor, Latest(map[], labels), Nonempty(map[], labels)))
  {
    StartRefines(kindFor);
    RunLinked(START, kindFor, map[], labels);
    IndexRefinesLists(kindFor, labels);
    var s := RunSys(START, labels).sys;
    LatestCovers(map[], map[], labels);
    LinkedApart(s, kindFor, Nonempty(map[], labels));
    ListsDifferIff(kindFor, Latest(map[], labels), Nonempty(map[], labels));
  }
}
