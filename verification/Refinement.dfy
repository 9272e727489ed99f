// Under the hypotheses on UIDs and KindFor, the incrementally kept index equals the one recomputed
// from the tracked manifests whenever no loop is in progress.

module Refinement {
  import opened Base
  import opened Schema
  import opened SafeMaps
  import opened Diff
  import opened Index
  import opened Objects
  import opened Confluence
  import opened Tracking

  type KindFor = GVR -> GVK

  predicate Counted(kindFor: KindFor, gvr: GVR, key: string) {
    KindKey(kindFor(gvr)) == key && !Excluded(kindFor(gvr))
  }

  /** The index recomputed from scratch: the UIDs a kind has in all tracked manifests. */
  ghost function Recomputed(kindFor: KindFor, tracked: Tracked, key: string): set<string> {
    set name, e | name in tracked && e in EntriesOf(tracked[name]) && Counted(kindFor, e.gvr, key) :: e.uid
  }

  function EntriesOf(info: AppliedManifestInfo): set<Entry> {
    if Aligned(info) then Elements(Entries(info)) else {}
  }

  function UidsIn(es: set<Entry>): set<string> {
    set e | e in es :: e.uid
  }

  // ----- the hypotheses -----

  // No loop of an earlier event for this manifest is still going.
  ghost predicate Quiet(s: Sys, name: string) {
    forall t :: 0 <= t < |s.threads| && s.threads[t].name == name ==> !s.threads[t].Active()
  }

  /** UIDs are distinct within the list and from those of every other manifest, tracked or still
      being dropped; a UID the manifest already has keeps its GVR; no GVR is that of
      AppliedManifestWork itself. */
  ghost predicate GoodResources(s: Sys, kindFor: KindFor, name: string, info: AppliedManifestInfo) {
    && Aligned(info) && Distinct(info.uids)
    && (forall e :: e in EntriesOf(info) ==> KindKey(kindFor(e.gvr)) != AW_KEY)
    && (forall m :: m in s.tracked && m != name ==> UidsIn(EntriesOf(s.tracked[m])) !! Elements(info.uids))
    && (forall t :: 0 <= t < |s.threads| ==> UidsIn(Elements(s.threads[t].rest)) !! Elements(info.uids))
    && (name in s.tracked ==> forall e, e' ::
          e in EntriesOf(s.tracked[name]) && e' in EntriesOf(info) && e.uid == e'.uid ==> e == e')
  }

  ghost predicate GoodLabel(s: Sys, kindFor: KindFor, l: Label) {
    && Enabled(s, l)
    && match l
       case Handle(ev, _) =>
         Quiet(s, ev.name) && (ev.Applied? ==> GoodResources(s, kindFor, ev.name, InfoOf(ev.resources)))
       case Iterate(t, kind) => kind == Some(kindFor(s.threads[t].rest[0].gvr))
       case Finish(_) => true
  }

  // ----- what the index holds, said by the tracked lists and the loops in progress -----

  ghost predicate Untracking(s: Sys, name: string) {
    exists t :: 0 <= t < |s.threads| && s.threads[t].name == name && s.threads[t].untrack
  }

  ghost predicate Toward(s: Sys, e: Entry, stopping: bool) {
    exists t :: 0 <= t < |s.threads| && s.threads[t].stopping == stopping && e in s.threads[t].rest
  }

  ghost predicate InTracked(s: Sys, e: Entry) {
    exists name :: name in s.tracked && !Untracking(s, name) && e in EntriesOf(s.tracked[name])
  }

  /** Still to be stopped, or listed and already started. */
  ghost predicate Held(s: Sys, e: Entry) {
    Toward(s, e, true) || (InTracked(s, e) && !Toward(s, e, false))
  }

  ghost predicate IndexHolds(s: Sys, kindFor: KindFor) {
    forall key, uid {:trigger uid in Uids(s.index.counts, key)} :: key != AW_KEY ==>
      (uid in Uids(s.index.counts, key) <==> exists gvr :: Held(s, Entry(gvr, uid)) && Counted(kindFor, gvr, key))
  }

  // ----- who owns which UID -----

  ghost predicate TrackedApart(s: Sys, kindFor: KindFor) {
    && (forall n :: n in s.tracked ==> Distinct(s.tracked[n].uids))
    && (forall n, e :: n in s.tracked && e in EntriesOf(s.tracked[n]) ==> KindKey(kindFor(e.gvr)) != AW_KEY)
    && (forall n, m, e, f ::
          n in s.tracked && m in s.tracked && n != m && e in EntriesOf(s.tracked[n]) && f in EntriesOf(s.tracked[m])
          ==> e.uid != f.uid)
  }

  ghost predicate DistinctUids(rest: seq<Entry>) {
    forall i, j :: 0 <= i < j < |rest| ==> rest[i].uid != rest[j].uid
  }

  ghost predicate ThreadsApart(s: Sys, kindFor: KindFor) {
    && (forall t :: 0 <= t < |s.threads| ==> DistinctUids(s.threads[t].rest))
    && (forall t, u, e, f ::
          0 <= t < |s.threads| && 0 <= u < |s.threads| && t != u && e in s.threads[t].rest && f in s.threads[u].rest
          ==> e.uid != f.uid)
    && (forall t, e :: 0 <= t < |s.threads| && e in s.threads[t].rest ==> KindKey(kindFor(e.gvr)) != AW_KEY)
    && (forall t, u :: 0 <= t < u < |s.threads| && s.threads[t].untrack && s.threads[u].untrack ==>
          s.threads[t].name != s.threads[u].name)
  }

  // Entries of a start, or of the stop of a whole manifest, are in that manifest's list; entries
  // of any other stop are in none.
  ghost predicate ThreadPlaced(s: Sys, th: Thread) {
    && (th.untrack ==> th.stopping && th.name in s.tracked)
    && (!th.stopping ==> forall e :: e in th.rest ==>
          th.name in s.tracked && !Untracking(s, th.name) && e in EntriesOf(s.tracked[th.name]))
    && (th.untrack ==> forall e :: e in th.rest ==> e in EntriesOf(s.tracked[th.name]))
    && (th.stopping && !th.untrack ==> forall e, n, f :: e in th.rest && n in s.tracked && f in EntriesOf(s.tracked[n]) ==> e.uid != f.uid)
  }

  ghost predicate Placed(s: Sys) {
    forall t :: 0 <= t < |s.threads| ==> ThreadPlaced(s, s.threads[t])
  }

  ghost predicate Refines(s: Sys, kindFor: KindFor) {
    && SysInv(s)
    && TrackedApart(s, kindFor) && ThreadsApart(s, kindFor) && Placed(s)
    && IndexHolds(s, kindFor)
    && NoLeak(s.index)
    && ViewAt(s.index, AW_KEY) == ViewAt(BOOTED, AW_KEY)
  }

  /** Two held entries never share a UID. */
  lemma HeldUnique(s: Sys, kindFor: KindFor, e: Entry, f: Entry)
    requires TrackedApart(s, kindFor) && ThreadsApart(s, kindFor) && Placed(s) && AllAligned(s.tracked)
    requires Held(s, e) && Held(s, f) && e.uid == f.uid
    ensures e == f
  {
    if Toward(s, e, true) && Toward(s, f, true) {
      SameThread(s, kindFor, e, f);
    } else if Toward(s, e, true) {
      StoppedNotHeld(s, kindFor, e, f);
    } else if Toward(s, f, true) {
      StoppedNotHeld(s, kindFor, f, e);
    } else {
      TrackedOnce(s, kindFor, e, f);
    }
  }

  lemma SameThread(s: Sys, kindFor: KindFor, e: Entry, f: Entry)
    requires ThreadsApart(s, kindFor)
    requires Toward(s, e, true) && Toward(s, f, true) && e.uid == f.uid
    ensures e == f
  {
    var t :| 0 <= t < |s.threads| && s.threads[t].stopping && e in s.threads[t].rest;
    var u :| 0 <= u < |s.threads| && s.threads[u].stopping && f in s.threads[u].rest;
    assert t == u;
    SameUidSameEntry(s.threads[t].rest, e, f);
  }

  // An entry to be stopped is not also listed in a manifest that stays.
  lemma StoppedNotHeld(s: Sys, kindFor: KindFor, e: Entry, f: Entry)
    requires TrackedApart(s, kindFor) && Placed(s)
    requires Toward(s, e, true) && InTracked(s, f)
    ensures e.uid != f.uid
  {
    var t :| 0 <= t < |s.threads| && s.threads[t].stopping && e in s.threads[t].rest;
    var n :| n in s.tracked && !Untracking(s, n) && f in EntriesOf(s.tracked[n]);
    assert ThreadPlaced(s, s.threads[t]);
    if s.threads[t].untrack {
      assert Untracking(s, s.threads[t].name);
    }
  }

  lemma DistinctEntries(info: AppliedManifestInfo, e: Entry, f: Entry)
    requires Aligned(info) && Distinct(info.uids) && e in EntriesOf(info) && f in EntriesOf(info) && e.uid == f.uid
    ensures e == f
  {
    var i :| 0 <= i < |info.uids| && Entries(info)[i] == e;
    var j :| 0 <= j < |info.uids| && Entries(info)[j] == f;
    assert info.uids[i] == info.uids[j];
  }

  // A pending start is not held yet, nor is anything else with its UID.
  lemma StartNotHeld(s: Sys, kindFor: KindFor, e: Entry, f: Entry)
    requires TrackedApart(s, kindFor) && Placed(s) && AllAligned(s.tracked)
    requires Toward(s, e, false) && Held(s, f)
    ensures e.uid != f.uid
  {
    var t :| 0 <= t < |s.threads| && !s.threads[t].stopping && e in s.threads[t].rest;
    assert ThreadPlaced(s, s.threads[t]);
    var n := s.threads[t].name;
    assert InTracked(s, e);
    if Toward(s, f, true) {
      StoppedNotHeld(s, kindFor, f, e);
    } else {
      TrackedOnce(s, kindFor, e, f);
    }
  }

  lemma TrackedOnce(s: Sys, kindFor: KindFor, e: Entry, f: Entry)
    requires TrackedApart(s, kindFor) && AllAligned(s.tracked) && InTracked(s, e) && InTracked(s, f)
    ensures e.uid == f.uid ==> e == f
  {
    var n :| n in s.tracked && e in EntriesOf(s.tracked[n]);
    var m :| m in s.tracked && f in EntriesOf(s.tracked[m]);
    if e.uid == f.uid {
      assert n == m;
      DistinctEntries(s.tracked[n], e, f);
    }
  }

  // ----- iterations -----

  // Thread t's loop has moved past its first entry, leaving the index as given.
  function Popped(s: Sys, t: nat, index: State): Sys
    requires t < |s.threads| && s.threads[t].rest != []
  {
    s.(index := index, threads := s.threads[t := s.threads[t].(rest := s.threads[t].rest[1..])])
  }

  ghost predicate Apart(s: Sys, kindFor: KindFor) {
    TrackedApart(s, kindFor) && ThreadsApart(s, kindFor) && Placed(s) && AllAligned(s.tracked)
  }

  lemma PopThread(s: Sys, t: nat, index: State, i: nat, e: Entry)
    requires t < |s.threads| && s.threads[t].rest != [] && i < |s.threads|
    ensures var th, p := s.threads[i], Popped(s, t, index).threads[i];
            && p.name == th.name && p.stopping == th.stopping && p.untrack == th.untrack
            && p.rest == (if i == t then th.rest[1..] else th.rest)
            && (e in th.rest <==> e in p.rest || (i == t && e == th.rest[0]))
  {
    assert s.threads[t].rest == [s.threads[t].rest[0]] + s.threads[t].rest[1..];
  }

  lemma PopUntracking(s: Sys, t: nat, index: State, name: string)
    requires t < |s.threads| && s.threads[t].rest != []
    ensures Untracking(Popped(s, t, index), name) <==> Untracking(s, name)
  {
    var u := Popped(s, t, index);
    assert forall i :: 0 <= i < |s.threads| ==> u.threads[i].name == s.threads[i].name && u.threads[i].untrack == s.threads[i].untrack;
  }

  lemma FirstOnlyOnce(s: Sys, kindFor: KindFor, t: nat)
    requires ThreadsApart(s, kindFor) && t < |s.threads| && s.threads[t].rest != []
    ensures s.threads[t].rest[0] !in s.threads[t].rest[1..]
    ensures forall i :: 0 <= i < |s.threads| && i != t ==> s.threads[t].rest[0] !in s.threads[i].rest
  {
    var rest := s.threads[t].rest;
    assert DistinctUids(rest);
    assert forall j :: 0 < j < |rest| ==> rest[0].uid != rest[j].uid;
    assert rest[0] in rest;
  }

  lemma PopToward(s: Sys, kindFor: KindFor, t: nat, index: State, f: Entry, stopping: bool)
    requires ThreadsApart(s, kindFor) && t < |s.threads| && s.threads[t].rest != []
    ensures var first, same := s.threads[t].rest[0], s.threads[t].stopping == stopping;
            Toward(Popped(s, t, index), f, stopping) <==> Toward(s, f, stopping) && !(same && f == first)
  {
    var u := Popped(s, t, index);
    FirstOnlyOnce(s, kindFor, t);
    forall i | 0 <= i < |s.threads|
      ensures u.threads[i].stopping == s.threads[i].stopping
      ensures f in s.threads[i].rest <==> f in u.threads[i].rest || (i == t && f == s.threads[t].rest[0])
    {
      PopThread(s, t, index, i, f);
    }
  }

  /** One iteration of a start makes its entry held; one of a stop ends that. */
  lemma PopHeld(s: Sys, kindFor: KindFor, t: nat, index: State, f: Entry)
    requires Apart(s, kindFor) && t < |s.threads| && s.threads[t].rest != []
    ensures var first := s.threads[t].rest[0];
            Held(Popped(s, t, index), f) <==>
              if s.threads[t].stopping then Held(s, f) && f != first else Held(s, f) || f == first
  {
    var th := s.threads[t];
    var e := th.rest[0];
    PopToward(s, kindFor, t, index, f, true);
    PopToward(s, kindFor, t, index, f, false);
    assert InTracked(Popped(s, t, index), f) <==> InTracked(s, f) by {
      forall name ensures Untracking(Popped(s, t, index), name) <==> Untracking(s, name) {
        PopUntracking(s, t, index, name);
      }
    }
    assert e in th.rest && Toward(s, e, th.stopping);
    assert ThreadPlaced(s, th);
    if InTracked(s, e) && Toward(s, e, true) {
      StoppedNotHeld(s, kindFor, e, e);
    }
    assert !th.stopping ==> InTracked(s, e);
  }

  lemma PopKeepsThreads(s: Sys, kindFor: KindFor, t: nat, index: State)
    requires ThreadsApart(s, kindFor) && t < |s.threads| && s.threads[t].rest != []
    ensures ThreadsApart(Popped(s, t, index), kindFor)
  {
    var u := Popped(s, t, index);
    forall i, e | 0 <= i < |u.threads| && e in u.threads[i].rest ensures e in s.threads[i].rest {
      PopThread(s, t, index, i, e);
    }
    forall i | 0 <= i < |u.threads| ensures DistinctUids(u.threads[i].rest) {
      assert DistinctUids(s.threads[i].rest);
      TailDistinct(s.threads[t].rest);
    }
  }

  lemma TailDistinct(rest: seq<Entry>)
    requires DistinctUids(rest) && rest != []
    ensures DistinctUids(rest[1..])
  {
    assert forall j :: 0 <= j < |rest| - 1 ==> rest[1..][j] == rest[j + 1];
  }

  lemma SameUidSameEntry(rest: seq<Entry>, e: Entry, f: Entry)
    requires DistinctUids(rest) && e in rest && f in rest && e.uid == f.uid
    ensures e == f
  {
    var i :| 0 <= i < |rest| && rest[i] == e;
    var j :| 0 <= j < |rest| && rest[j] == f;
  }

  lemma PopKeepsPlaced(s: Sys, t: nat, index: State)
    requires Placed(s) && t < |s.threads| && s.threads[t].rest != []
    ensures Placed(Popped(s, t, index))
  {
    var u := Popped(s, t, index);
    forall i | 0 <= i < |u.threads| ensures ThreadPlaced(u, u.threads[i]) {
      assert ThreadPlaced(s, s.threads[i]);
      forall e | e in u.threads[i].rest ensures e in s.threads[i].rest {
        PopThread(s, t, index, i, e);
      }
      PopUntracking(s, t, index, s.threads[i].name);
    }
  }

  // The index after one iteration, given how the entry relates to what is held.
  lemma IndexAfter(s: Sys, kindFor: KindFor, t: nat, key: string, uid: string)
    requires Refines(s, kindFor) && t < |s.threads| && s.threads[t].rest != [] && key != AW_KEY
    ensures var th := s.threads[t];
            var e := th.rest[0];
            var r := IndexStep(s.index, th.stopping, e, kindFor(e.gvr));
            && r.Fine?
            && (uid in Uids(r.state.counts, key) <==>
                  if uid == e.uid && Counted(kindFor, e.gvr, key) then !th.stopping else uid in Uids(s.index.counts, key))
  {
    var th := s.threads[t];
    var e := th.rest[0];
    var kind := kindFor(e.gvr);
    assert e in th.rest;
    if th.stopping {
      StepUids(s.index, Remove(KindKey(kind), e.uid), key);
      SingleOp(Remove(KindKey(kind), e.uid), key);
      if KindKey(kind) == key && Excluded(kind) && e.uid in Uids(s.index.counts, key) {
        assert Toward(s, e, true);
        var gvr :| Held(s, Entry(gvr, e.uid)) && Counted(kindFor, gvr, key);
        HeldUnique(s, kindFor, Entry(gvr, e.uid), e);
        assert false;
      }
    } else if !Excluded(kind) {
      StepUids(s.index, Add(KindKey(kind), e.gvr, e.uid), key);
      SingleOp(Add(KindKey(kind), e.gvr, e.uid), key);
    }
  }

  lemma IterateHolds(s: Sys, kindFor: KindFor, t: nat, key: string, uid: string)
    requires Refines(s, kindFor) && t < |s.threads| && s.threads[t].rest != [] && key != AW_KEY
    ensures var th := s.threads[t];
            var r := IndexStep(s.index, th.stopping, th.rest[0], kindFor(th.rest[0].gvr));
            && r.Fine?
            && (uid in Uids(r.state.counts, key) <==>
                  exists gvr :: Held(Popped(s, t, r.state), Entry(gvr, uid)) && Counted(kindFor, gvr, key))
  {
    var th := s.threads[t];
    var e := th.rest[0];
    IndexAfter(s, kindFor, t, key, uid);
    var index := IndexStep(s.index, th.stopping, e, kindFor(e.gvr)).state;
    forall f ensures Held(Popped(s, t, index), f) <==> if th.stopping then Held(s, f) && f != e else Held(s, f) || f == e {
      PopHeld(s, kindFor, t, index, f);
    }
    assert e in th.rest && Toward(s, e, th.stopping);
    if th.stopping {
      forall gvr | Held(s, Entry(gvr, e.uid)) ensures gvr == e.gvr {
        HeldUnique(s, kindFor, Entry(gvr, e.uid), e);
      }
    } else if uid == e.uid {
      assert e == Entry(e.gvr, uid);
      forall gvr ensures !Held(s, Entry(gvr, uid)) {
        if Held(s, Entry(gvr, uid)) {
          StartNotHeld(s, kindFor, e, Entry(gvr, uid));
        }
      }
    }
  }

  lemma IterateNoLeak(s: Sys, kindFor: KindFor, t: nat)
    requires Refines(s, kindFor) && t < |s.threads| && s.threads[t].rest != []
    ensures var th := s.threads[t];
            var r := IndexStep(s.index, th.stopping, th.rest[0], kindFor(th.rest[0].gvr));
            r.Fine? && NoLeak(r.state) && ViewAt(r.state, AW_KEY) == ViewAt(s.index, AW_KEY)
  {
    var th := s.threads[t];
    var e := th.rest[0];
    var key := KindKey(kindFor(e.gvr));
    assert e in th.rest;
    var op := if th.stopping then Remove(key, e.uid) else Add(key, e.gvr, e.uid);
    StepLeakIff(s.index, op);
    StepFrame(s.index, op, s.index.next, AW_KEY);
    if !th.stopping && !Excluded(kindFor(e.gvr)) && key in s.index.informers && Starts(s.index, key, e.uid) {
      OneElement(Uids(s.index.counts, key), e.uid);
      var gvr :| Held(s, Entry(gvr, e.uid)) && Counted(kindFor, gvr, key);
      assert Toward(s, e, false);
      StartNotHeld(s, kindFor, e, Entry(gvr, e.uid));
    }
  }

  lemma OneElement(uids: set<string>, uid: string)
    requires uids != {} && |uids + {uid}| == 1
    ensures uid in uids
  {
    var x :| x in uids;
    if x != uid {
      assert {x, uid} <= uids + {uid};
      assert |{x, uid}| == 2;
      SubsetSize({x, uid}, uids + {uid});
    }
  }

  lemma SubsetSize(a: set<string>, b: set<string>)
    requires a <= b
    ensures |a| <= |b|
  {
    assert b == a + (b - a);
  }

  lemma IterateRefines(s: Sys, kindFor: KindFor, t: nat)
    requires Refines(s, kindFor) && t < |s.threads| && s.threads[t].rest != []
    ensures var r := IterateStep(s, t, Some(kindFor(s.threads[t].rest[0].gvr)));
            r.Next? && Refines(r.sys, kindFor)
  {
    var th := s.threads[t];
    var kind := kindFor(th.rest[0].gvr);
    IterateKeepsInv(s, t, Some(kind));
    IterateNoLeak(s, kindFor, t);
    var index := IndexStep(s.index, th.stopping, th.rest[0], kind).state;
    var u := Popped(s, t, index);
    assert IterateStep(s, t, Some(kind)) == Next(u);
    PopKeepsThreads(s, kindFor, t, index);
    PopKeepsPlaced(s, t, index);
    forall key, uid | key != AW_KEY
      ensures uid in Uids(u.index.counts, key) <==> exists gvr :: Held(u, Entry(gvr, uid)) && Counted(kindFor, gvr, key)
    {
      IterateHolds(s, kindFor, t, key, uid);
    }
  }
}
