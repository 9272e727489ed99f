// Events keep the refinement, and with it come the theorems about every run under the hypotheses.

module IndexRefinement {
  import opened Schema
  import opened SafeMaps
  import opened Diff
  import opened Index
  import opened Tracking
  import opened Refinement

  // ----- the diff on entries -----

  lemma SelectionEntries(part: AppliedManifestInfo, info: AppliedManifestInfo, uids: set<string>, e: Entry)
    requires Aligned(info) && Distinct(info.uids) && Selection(part, info, uids) && uids <= Elements(info.uids)
    ensures e in EntriesOf(part) <==> e in EntriesOf(info) && e.uid in uids
  {
    if e in EntriesOf(part) {
      var i :| 0 <= i < |part.uids| && e == Entries(part)[i];
      assert LastGvr(info, part.uids[i], part.gvrs[i]);
      var j :| 0 <= j < |info.uids| && info.uids[j] == part.uids[i] && info.gvrs[j] == part.gvrs[i];
      assert e == Entries(info)[j];
      assert e.uid in part.uids;
    }
    if e in EntriesOf(info) && e.uid in uids {
      assert e.uid in part.uids;
      var i :| 0 <= i < |part.uids| && part.uids[i] == e.uid;
      assert LastGvr(info, part.uids[i], part.gvrs[i]);
      var j :| 0 <= j < |info.uids| && info.uids[j] == part.uids[i] && info.gvrs[j] == part.gvrs[i];
      DistinctEntries(info, e, Entries(info)[j]);
      assert e == Entries(part)[i];
    }
  }

  // A UID present in both lists is the same entry in both.
  ghost predicate Stable(prior: AppliedManifestInfo, info: AppliedManifestInfo) {
    forall e, f :: e in EntriesOf(prior) && f in EntriesOf(info) && e.uid == f.uid ==> e == f
  }

  lemma DiffEntries(prior: AppliedManifestInfo, info: AppliedManifestInfo, diff: Change)
    requires Aligned(prior) && Aligned(info) && Distinct(prior.uids) && Distinct(info.uids) && Stable(prior, info)
    requires IsDiff(prior, info, diff.added, diff.removed)
    ensures Aligned(diff.added) && Distinct(diff.added.uids) && EntriesOf(diff.added) == EntriesOf(info) - EntriesOf(prior)
    ensures Aligned(diff.removed) && Distinct(diff.removed.uids) && EntriesOf(diff.removed) == EntriesOf(prior) - EntriesOf(info)
  {
    DiffOfDistinct(prior, info, diff.added, diff.removed);
    forall e ensures e in EntriesOf(diff.added) <==> e in EntriesOf(info) - EntriesOf(prior) {
      SelectionEntries(diff.added, info, Elements(info.uids) - Elements(prior.uids), e);
      if e in EntriesOf(info) {
        ListedUid(prior, info, e);
      }
    }
    forall e ensures e in EntriesOf(diff.removed) <==> e in EntriesOf(prior) - EntriesOf(info) {
      SelectionEntries(diff.removed, prior, Elements(prior.uids) - Elements(info.uids), e);
      if e in EntriesOf(prior) {
        ListedUid(info, prior, e);
      }
    }
  }

  lemma ListedUid(other: AppliedManifestInfo, info: AppliedManifestInfo, e: Entry)
    requires Aligned(other) && Aligned(info) && (Stable(other, info) || Stable(info, other)) && e in EntriesOf(info)
    ensures e.uid in Elements(info.uids)
    ensures e in EntriesOf(other) <==> e.uid in Elements(other.uids)
  {
    var i :| 0 <= i < |info.uids| && e == Entries(info)[i];
    assert info.uids[i] == e.uid;
    if e.uid in Elements(other.uids) {
      var j :| 0 <= j < |other.uids| && other.uids[j] == e.uid;
      assert Entries(other)[j] in EntriesOf(other);
    }
    if e in EntriesOf(other) {
      var j :| 0 <= j < |other.uids| && Entries(other)[j] == e;
      assert other.uids[j] == e.uid;
    }
  }

  lemma EntriesDistinct(info: AppliedManifestInfo)
    requires Aligned(info) && Distinct(info.uids)
    ensures DistinctUids(Entries(info))
  {
  }

  // ----- starting a loop -----

  function Spawned(s: Sys, th: Thread): Sys {
    s.(threads := s.threads + [th])
  }

  lemma SpawnToward(s: Sys, th: Thread, f: Entry, stopping: bool)
    ensures Toward(Spawned(s, th), f, stopping) <==> Toward(s, f, stopping) || (th.stopping == stopping && f in th.rest)
  {
    var u := Spawned(s, th);
    assert u.threads[|s.threads|] == th;
    assert forall i :: 0 <= i < |s.threads| ==> u.threads[i] == s.threads[i];
  }

  lemma SpawnUntracking(s: Sys, th: Thread, name: string)
    ensures Untracking(Spawned(s, th), name) <==> Untracking(s, name) || (th.untrack && th.name == name)
  {
    var u := Spawned(s, th);
    assert u.threads[|s.threads|] == th;
    assert forall i :: 0 <= i < |s.threads| ==> u.threads[i] == s.threads[i];
  }

  ghost predicate Newcomer(s: Sys, kindFor: KindFor, th: Thread) {
    && DistinctUids(th.rest)
    && (forall u, e, f :: 0 <= u < |s.threads| && e in th.rest && f in s.threads[u].rest ==> e.uid != f.uid)
    && (forall e :: e in th.rest ==> KindKey(kindFor(e.gvr)) != AW_KEY)
    && (th.untrack ==> Quiet(s, th.name))
  }

  lemma SpawnApart(s: Sys, kindFor: KindFor, th: Thread)
    requires ThreadsApart(s, kindFor) && Newcomer(s, kindFor, th)
    ensures ThreadsApart(Spawned(s, th), kindFor)
  {
    var u := Spawned(s, th);
    assert forall i :: 0 <= i < |u.threads| ==> u.threads[i] == if i < |s.threads| then s.threads[i] else th;
    forall i | 0 <= i < |u.threads| ensures DistinctUids(u.threads[i].rest) {}
  }

  lemma SpawnPlaced(s: Sys, th: Thread)
    requires Placed(s) && ThreadPlaced(Spawned(s, th), th) && (th.untrack ==> Quiet(s, th.name))
    ensures Placed(Spawned(s, th))
  {
    var u := Spawned(s, th);
    forall i | 0 <= i < |u.threads| ensures ThreadPlaced(u, u.threads[i]) {
      if i < |s.threads| {
        assert u.threads[i] == s.threads[i] && ThreadPlaced(s, s.threads[i]);
        SpawnUntracking(s, th, s.threads[i].name);
      }
    }
  }

  // ----- what a quiet manifest contributes -----

  ghost predicate InOther(s: Sys, name: string, e: Entry) {
    exists m :: m in s.tracked && m != name && !Untracking(s, m) && e in EntriesOf(s.tracked[m])
  }

  function ListOf(s: Sys, name: string): set<Entry> {
    if name in s.tracked then EntriesOf(s.tracked[name]) else {}
  }

  lemma QuietNotUntracking(s: Sys, name: string)
    requires Quiet(s, name)
    ensures !Untracking(s, name)
    ensures forall e :: InTracked(s, e) <==> InOther(s, name, e) || e in ListOf(s, name)
  {
    forall e | InTracked(s, e) ensures InOther(s, name, e) || e in ListOf(s, name) {
      var m :| m in s.tracked && !Untracking(s, m) && e in EntriesOf(s.tracked[m]);
    }
  }

  lemma QuietSettled(s: Sys, kindFor: KindFor, name: string, e: Entry)
    requires Apart(s, kindFor) && Quiet(s, name) && e in ListOf(s, name)
    ensures !InOther(s, name, e)
    ensures forall t, f :: 0 <= t < |s.threads| && f in s.threads[t].rest ==> e.uid != f.uid
  {
    forall t, f | 0 <= t < |s.threads| && f in s.threads[t].rest ensures e.uid != f.uid {
      assert ThreadPlaced(s, s.threads[t]) && s.threads[t].Active();
    }
  }

  lemma NewSettled(s: Sys, kindFor: KindFor, name: string, info: AppliedManifestInfo, e: Entry)
    requires GoodResources(s, kindFor, name, info) && e in EntriesOf(info)
    ensures !InOther(s, name, e)
    ensures forall t, f :: 0 <= t < |s.threads| && f in s.threads[t].rest ==> e.uid != f.uid
    ensures forall m, f :: m in s.tracked && m != name && f in EntriesOf(s.tracked[m]) ==> e.uid != f.uid
  {
    var i :| 0 <= i < |info.uids| && e == Entries(info)[i];
    assert info.uids[i] == e.uid && e.uid in Elements(info.uids);
    forall t, f | 0 <= t < |s.threads| && f in s.threads[t].rest ensures e.uid != f.uid {
      assert f.uid in UidsIn(Elements(s.threads[t].rest));
    }
    forall m, f | m in s.tracked && m != name && f in EntriesOf(s.tracked[m]) ensures e.uid != f.uid {
      assert f.uid in UidsIn(EntriesOf(s.tracked[m]));
    }
  }

  // ----- recording a list -----

  function Recorded(s: Sys, name: string, info: AppliedManifestInfo, listed: set<Entry>): Sys {
    s.(tracked := s.tracked[name := info], listed := listed)
  }

  lemma RecordKeepsApart(s: Sys, kindFor: KindFor, name: string, info: AppliedManifestInfo, listed: set<Entry>)
    requires Apart(s, kindFor) && Quiet(s, name) && GoodResources(s, kindFor, name, info) && info.uids != []
    ensures Apart(Recorded(s, name, info, listed), kindFor)
  {
    var u := Recorded(s, name, info, listed);
    forall n, m, e, f | n in u.tracked && m in u.tracked && n != m && e in EntriesOf(u.tracked[n]) && f in EntriesOf(u.tracked[m])
      ensures e.uid != f.uid
    {
      if n == name {
        NewSettled(s, kindFor, name, info, e);
      } else if m == name {
        NewSettled(s, kindFor, name, info, f);
      }
    }
    forall t | 0 <= t < |u.threads| ensures ThreadPlaced(u, u.threads[t]) {
      RecordKeepsPlaced(s, kindFor, name, info, listed, t);
    }
  }

  lemma RecordKeepsPlaced(s: Sys, kindFor: KindFor, name: string, info: AppliedManifestInfo, listed: set<Entry>, t: nat)
    requires Apart(s, kindFor) && Quiet(s, name) && GoodResources(s, kindFor, name, info) && t < |s.threads|
    ensures ThreadPlaced(Recorded(s, name, info, listed), s.threads[t])
  {
    var u, th := Recorded(s, name, info, listed), s.threads[t];
    assert ThreadPlaced(s, th);
    assert forall m :: Untracking(u, m) <==> Untracking(s, m);
    if th.stopping && !th.untrack {
      forall e, n, f | e in th.rest && n in u.tracked && f in EntriesOf(u.tracked[n]) ensures e.uid != f.uid {
        if n == name {
          NewSettled(s, kindFor, name, info, f);
        }
      }
    }
  }

  // ----- the three plans that change something -----

  ghost predicate SameHeld(s: Sys, u: Sys) {
    forall e :: Held(s, e) <==> Held(u, e)
  }

  lemma TrackKeepsApart(s: Sys, kindFor: KindFor, name: string, info: AppliedManifestInfo, listed: set<Entry>)
    requires Apart(s, kindFor) && Quiet(s, name) && GoodResources(s, kindFor, name, info) && info.uids != [] && name !in s.tracked
    ensures var u := Spawned(Recorded(s, name, info, listed), Thread(name, false, Entries(info), false));
            Apart(u, kindFor) && SameHeld(s, u)
  {
    var all := Change(info, EMPTY_INFO);
    StartKeepsApart(s, kindFor, name, info, all, listed);
    assert forall e :: e in StartLoop(name, all).rest <==> e in EntriesOf(info);
    EditKeepsHeld(s, kindFor, Spawned(Recorded(s, name, info, listed), StartLoop(name, all)), name, info, {});
  }

  function StartLoop(name: string, diff: Change): Thread
    requires Aligned(diff.added)
  {
    Thread(name, false, Entries(diff.added), false)
  }

  function StopLoop(name: string, diff: Change): Thread
    requires Aligned(diff.removed)
  {
    Thread(name, true, Entries(diff.removed), false)
  }

  lemma UpdateKeepsApart(s: Sys, kindFor: KindFor, name: string, info: AppliedManifestInfo, diff: Change, listed: set<Entry>)
    requires Apart(s, kindFor) && Quiet(s, name) && GoodResources(s, kindFor, name, info) && info.uids != [] && name in s.tracked
    requires IsDiff(s.tracked[name], info, diff.added, diff.removed) && Aligned(diff.added) && Aligned(diff.removed)
    ensures var u := Spawned(Spawned(Recorded(s, name, info, listed), StartLoop(name, diff)), StopLoop(name, diff));
            Apart(u, kindFor) && SameHeld(s, u)
  {
    var prior := s.tracked[name];
    DiffEntries(prior, info, diff);
    var r, start, stop := Recorded(s, name, info, listed), StartLoop(name, diff), StopLoop(name, diff);
    var mid := Spawned(r, start);
    assert forall e :: e in start.rest <==> e in EntriesOf(info) - EntriesOf(prior);
    assert forall e :: e in stop.rest <==> e in EntriesOf(prior) - EntriesOf(info);
    StartKeepsApart(s, kindFor, name, info, diff, listed);
    EntriesDistinct(diff.removed);
    StopIsNewcomer(s, kindFor, name, info, r, start, stop);
    SpawnApart(mid, kindFor, stop);
    StopIsPlaced(s, kindFor, name, info, Spawned(mid, stop), stop);
    SpawnPlaced(mid, stop);
    EditKeepsHeld(s, kindFor, Spawned(mid, stop), name, info, EntriesOf(prior));
  }

  lemma StartKeepsApart(s: Sys, kindFor: KindFor, name: string, info: AppliedManifestInfo, diff: Change, listed: set<Entry>)
    requires Apart(s, kindFor) && Quiet(s, name) && GoodResources(s, kindFor, name, info) && info.uids != []
    requires Aligned(diff.added) && Distinct(diff.added.uids) && EntriesOf(diff.added) <= EntriesOf(info)
    ensures Apart(Spawned(Recorded(s, name, info, listed), StartLoop(name, diff)), kindFor)
  {
    var r, start := Recorded(s, name, info, listed), StartLoop(name, diff);
    RecordKeepsApart(s, kindFor, name, info, listed);
    EntriesDistinct(diff.added);
    assert forall e :: e in start.rest <==> e in EntriesOf(diff.added);
    forall e | e in start.rest ensures forall t, f :: 0 <= t < |r.threads| && f in r.threads[t].rest ==> e.uid != f.uid {
      NewSettled(s, kindFor, name, info, e);
    }
    SpawnApart(r, kindFor, start);
    QuietNotUntracking(r, name);
    SpawnUntracking(r, start, name);
    SpawnPlaced(r, start);
  }

  lemma StopIsNewcomer(s: Sys, kindFor: KindFor, name: string, info: AppliedManifestInfo, r: Sys, start: Thread, stop: Thread)
    requires Apart(s, kindFor) && Quiet(s, name) && GoodResources(s, kindFor, name, info) && name in s.tracked
    requires r.threads == s.threads && DistinctUids(stop.rest) && !stop.untrack
    requires forall e :: e in stop.rest ==> e in EntriesOf(s.tracked[name]) - EntriesOf(info)
    requires forall e :: e in start.rest ==> e in EntriesOf(info)
    ensures Newcomer(Spawned(r, start), kindFor, stop)
  {
    var mid := Spawned(r, start);
    forall u, e, f | 0 <= u < |mid.threads| && e in stop.rest && f in mid.threads[u].rest ensures e.uid != f.uid {
      QuietSettled(s, kindFor, name, e);
      if u < |s.threads| {
        assert mid.threads[u] == s.threads[u];
      } else {
        assert mid.threads[u] == start;
      }
    }
  }

  lemma StopIsPlaced(s: Sys, kindFor: KindFor, name: string, info: AppliedManifestInfo, u: Sys, stop: Thread)
    requires Apart(s, kindFor) && GoodResources(s, kindFor, name, info) && name in s.tracked
    requires u.tracked == s.tracked[name := info] && stop.stopping && !stop.untrack
    requires forall e :: e in stop.rest ==> e in EntriesOf(s.tracked[name]) - EntriesOf(info)
    ensures ThreadPlaced(u, stop)
  {
    forall e, n, f | e in stop.rest && n in u.tracked && f in EntriesOf(u.tracked[n]) ensures e.uid != f.uid {
      if n == name {
        assert f in EntriesOf(info);
      }
    }
  }

  // The heart of an update: what it lists anew is pending, what it no longer lists is still to go.
  lemma EditKeepsHeld(s: Sys, kindFor: KindFor, u: Sys, name: string, info: AppliedManifestInfo, prior: set<Entry>)
    requires Apart(s, kindFor) && Quiet(s, name) && GoodResources(s, kindFor, name, info) && prior == ListOf(s, name)
    requires u.tracked == s.tracked[name := info] && EditLoops(s, u, info, prior)
    ensures SameHeld(s, u)
  {
    QuietNotUntracking(s, name);
    forall e ensures Held(s, e) <==> Held(u, e) {
      EditToward(s, u, info, prior, e);
      EditTracked(s, u, name, info, e);
      if e in prior {
        QuietSettled(s, kindFor, name, e);
      }
      if e in EntriesOf(info) {
        NewSettled(s, kindFor, name, info, e);
      }
    }
  }

  // the loops of an edit: one for what is new, one for what is gone, if anything was listed before
  ghost predicate EditLoops(s: Sys, u: Sys, info: AppliedManifestInfo, prior: set<Entry>) {
    && s.threads <= u.threads && |s.threads| < |u.threads| <= |s.threads| + 2
    && (forall i :: |s.threads| <= i < |u.threads| ==> !u.threads[i].untrack && u.threads[i].stopping == (i > |s.threads|))
    && (forall e :: e in u.threads[|s.threads|].rest <==> e in EntriesOf(info) - prior)
    && if |u.threads| == |s.threads| + 1 then prior == {}
       else forall e :: e in u.threads[|s.threads| + 1].rest <==> e in prior - EntriesOf(info)
  }

  lemma EditToward(s: Sys, u: Sys, info: AppliedManifestInfo, prior: set<Entry>, e: Entry)
    requires EditLoops(s, u, info, prior)
    ensures Toward(u, e, false) <==> Toward(s, e, false) || e in EntriesOf(info) - prior
    ensures Toward(u, e, true) <==> Toward(s, e, true) || e in prior - EntriesOf(info)
  {
    assert forall i :: 0 <= i < |s.threads| ==> u.threads[i] == s.threads[i];
    assert e in u.threads[|s.threads|].rest <==> e in EntriesOf(info) - prior;
    if |u.threads| == |s.threads| + 2 {
      assert e in u.threads[|s.threads| + 1].rest <==> e in prior - EntriesOf(info);
    }
  }

  lemma EditTracked(s: Sys, u: Sys, name: string, info: AppliedManifestInfo, e: Entry)
    requires u.tracked == s.tracked[name := info] && !Untracking(s, name)
    requires s.threads <= u.threads && forall i :: |s.threads| <= i < |u.threads| ==> !u.threads[i].untrack
    ensures InTracked(u, e) <==> InOther(s, name, e) || e in EntriesOf(info)
  {
    assert forall i :: 0 <= i < |s.threads| ==> u.threads[i] == s.threads[i];
    assert forall m :: Untracking(u, m) <==> Untracking(s, m);
    if InTracked(u, e) {
      var m :| m in u.tracked && !Untracking(u, m) && e in EntriesOf(u.tracked[m]);
    }
    if InOther(s, name, e) {
      var m :| m in s.tracked && m != name && !Untracking(s, m) && e in EntriesOf(s.tracked[m]);
      assert u.tracked[m] == s.tracked[m];
    }
    if e in EntriesOf(info) {
      assert u.tracked[name] == info;
    }
  }

  lemma UntrackKeepsApart(s: Sys, kindFor: KindFor, name: string)
    requires Apart(s, kindFor) && Quiet(s, name) && name in s.tracked
    ensures var u := Spawned(s, Thread(name, true, Entries(s.tracked[name]), true));
            Apart(u, kindFor) && SameHeld(s, u)
  {
    var prior := s.tracked[name];
    var th := Thread(name, true, Entries(prior), true);
    var u := Spawned(s, th);
    EntriesDistinct(prior);
    assert forall e :: e in th.rest <==> e in EntriesOf(prior);
    forall e | e in th.rest ensures forall t, f :: 0 <= t < |s.threads| && f in s.threads[t].rest ==> e.uid != f.uid {
      QuietSettled(s, kindFor, name, e);
    }
    SpawnApart(s, kindFor, th);
    SpawnPlaced(s, th);
    QuietNotUntracking(s, name);
    forall e ensures Held(s, e) <==> Held(u, e) {
      SpawnToward(s, th, e, true);
      SpawnToward(s, th, e, false);
      assert InTracked(u, e) <==> InOther(s, name, e) by {
        forall m ensures Untracking(u, m) <==> Untracking(s, m) || m == name {
          SpawnUntracking(s, th, m);
        }
      }
      if e in EntriesOf(prior) {
        QuietSettled(s, kindFor, name, e);
      }
    }
  }

  // ----- every step -----

  lemma SameHeldHolds(s: Sys, u: Sys, kindFor: KindFor)
    requires IndexHolds(s, kindFor) && SameHeld(s, u) && u.index == s.index
    ensures IndexHolds(u, kindFor)
  {
  }

  lemma HandleRefines(s: Sys, kindFor: KindFor, ev: Event, diff: Change)
    requires Refines(s, kindFor) && GoodLabel(s, kindFor, Handle(ev, diff))
    ensures Refines(HandleStep(s, ev, diff), kindFor)
  {
    HandleKeepsTracked(s, ev, diff);
    HandleKeepsApart(s, kindFor, ev, diff);
    SameHeldHolds(s, HandleStep(s, ev, diff), kindFor);
  }

  // Events change what is tracked and which loops run, but not what is held.
  lemma HandleKeepsApart(s: Sys, kindFor: KindFor, ev: Event, diff: Change)
    requires Apart(s, kindFor) && GoodLabel(s, kindFor, Handle(ev, diff))
    ensures Apart(HandleStep(s, ev, diff), kindFor) && SameHeld(s, HandleStep(s, ev, diff))
  {
    var u := HandleStep(s, ev, diff);
    var listed := s.listed + ListedBy(ev);
    match PlanFor(s.tracked, ev)
    case Requeue => ListedOnly(s, kindFor, listed);
    case Ignore => ListedOnly(s, kindFor, listed);
    case Track(info) =>
      TrackKeepsApart(s, kindFor, ev.name, info, listed);
    case Update(prior, info) =>
      UpdateKeepsApart(s, kindFor, ev.name, info, diff, listed);
      TwoSpawned(Recorded(s, ev.name, info, listed), StartLoop(ev.name, diff), StopLoop(ev.name, diff));
    case Untrack(prior) =>
      ListedOnly(s, kindFor, listed);
      UntrackKeepsApart(s.(listed := listed), kindFor, ev.name);
  }

  lemma TwoSpawned(s: Sys, a: Thread, b: Thread)
    ensures Spawned(Spawned(s, a), b) == s.(threads := s.threads + [a, b])
  {
    assert s.threads + [a] + [b] == s.threads + [a, b];
  }

  lemma ListedOnly(s: Sys, kindFor: KindFor, listed: set<Entry>)
    requires Apart(s, kindFor)
    ensures Apart(s.(listed := listed), kindFor) && SameHeld(s, s.(listed := listed))
  {
    var u := s.(listed := listed);
    assert forall m :: Untracking(u, m) <==> Untracking(s, m);
    forall t | 0 <= t < |u.threads| ensures ThreadPlaced(u, u.threads[t]) {
      assert ThreadPlaced(s, s.threads[t]);
    }
    forall e ensures Held(s, e) <==> Held(u, e) {
      assert Toward(u, e, true) <==> Toward(s, e, true);
      assert Toward(u, e, false) <==> Toward(s, e, false);
      assert InTracked(u, e) <==> InTracked(s, e);
    }
  }

  lemma FinishUntracking(s: Sys, kindFor: KindFor, t: nat, m: string)
    requires ThreadsApart(s, kindFor) && t < |s.threads| && s.threads[t].untrack
    ensures Untracking(FinishStep(s, t), m) <==> Untracking(s, m) && m != s.threads[t].name
  {
    var u := FinishStep(s, t);
    assert forall i :: 0 <= i < |s.threads| && i != t ==> u.threads[i] == s.threads[i];
  }

  lemma FinishKeepsPlaced(s: Sys, kindFor: KindFor, t: nat)
    requires ThreadsApart(s, kindFor) && Placed(s) && t < |s.threads| && s.threads[t].untrack && s.threads[t].rest == []
    ensures Placed(FinishStep(s, t))
  {
    var u := FinishStep(s, t);
    assert Untracking(s, s.threads[t].name);
    forall i | 0 <= i < |u.threads| ensures ThreadPlaced(u, u.threads[i]) {
      assert ThreadPlaced(s, s.threads[i]);
      FinishUntracking(s, kindFor, t, s.threads[i].name);
    }
  }

  lemma FinishKeepsApart(s: Sys, kindFor: KindFor, t: nat)
    requires Apart(s, kindFor) && t < |s.threads| && s.threads[t].untrack && s.threads[t].rest == []
    ensures Apart(FinishStep(s, t), kindFor)
  {
    var u := FinishStep(s, t);
    FinishKeepsPlaced(s, kindFor, t);
    forall i | 0 <= i < |u.threads|
      ensures u.threads[i].rest == s.threads[i].rest && DistinctUids(u.threads[i].rest)
    {
      assert DistinctUids(s.threads[i].rest);
    }
  }

  lemma FinishKeepsHeld(s: Sys, kindFor: KindFor, t: nat)
    requires Apart(s, kindFor) && t < |s.threads| && s.threads[t].untrack
    ensures SameHeld(s, FinishStep(s, t))
  {
    var u := FinishStep(s, t);
    assert Untracking(s, s.threads[t].name);
    forall e ensures Held(s, e) <==> Held(u, e) {
      FinishToward(s, t, e, true);
      FinishToward(s, t, e, false);
      assert InTracked(u, e) <==> InTracked(s, e) by {
        forall m ensures Untracking(u, m) <==> Untracking(s, m) && m != s.threads[t].name {
          FinishUntracking(s, kindFor, t, m);
        }
      }
    }
  }

  lemma FinishToward(s: Sys, t: nat, e: Entry, stopping: bool)
    requires t < |s.threads|
    ensures Toward(FinishStep(s, t), e, stopping) <==> Toward(s, e, stopping)
  {
    var u := FinishStep(s, t);
    assert forall i :: 0 <= i < |s.threads| ==> u.threads[i].rest == s.threads[i].rest && u.threads[i].stopping == s.threads[i].stopping;
  }

  lemma FinishRefines(s: Sys, kindFor: KindFor, t: nat)
    requires Refines(s, kindFor) && Enabled(s, Finish(t))
    ensures Refines(FinishStep(s, t), kindFor)
  {
    SysStepKeepsInv(s, Finish(t));
    FinishKeepsApart(s, kindFor, t);
    FinishKeepsHeld(s, kindFor, t);
    SameHeldHolds(s, FinishStep(s, t), kindFor);
  }

  lemma StepRefines(s: Sys, kindFor: KindFor, l: Label)
    requires Refines(s, kindFor) && GoodLabel(s, kindFor, l)
    ensures SysStep(s, l).Next? && Refines(SysStep(s, l).sys, kindFor)
  {
    match l
    case Handle(ev, diff) => HandleRefines(s, kindFor, ev, diff);
    case Iterate(t, kind) => IterateRefines(s, kindFor, t);
    case Finish(t) => FinishRefines(s, kindFor, t);
  }

  lemma StartRefines(kindFor: KindFor)
    ensures Refines(START, kindFor)
  {
    StartInv();
    assert forall e :: !Toward(START, e, true) && !InTracked(START, e);
    assert START.index.stoppers[AW_KEY] == 0;
  }

  // ----- every run -----

  ghost predicate GoodRun(s: Sys, kindFor: KindFor, labels: seq<Label>)
    decreases |labels|
  {
    labels != [] ==>
      && GoodLabel(s, kindFor, labels[0])
      && (SysStep(s, labels[0]).Next? ==> GoodRun(SysStep(s, labels[0]).sys, kindFor, labels[1..]))
  }

  lemma {:induction false} RunRefines(s: Sys, kindFor: KindFor, labels: seq<Label>)
    requires Refines(s, kindFor) && GoodRun(s, kindFor, labels)
    ensures IsRun(s, labels) && RunSys(s, labels).Next? && Refines(RunSys(s, labels).sys, kindFor)
    decreases |labels|
  {
    if labels != [] {
      StepRefines(s, kindFor, labels[0]);
      RunRefines(SysStep(s, labels[0]).sys, kindFor, labels[1..]);
    }
  }

  ghost predicate Drained(s: Sys) {
    forall t :: 0 <= t < |s.threads| ==> !s.threads[t].Active()
  }

  lemma DrainedHeld(s: Sys, e: Entry)
    requires Drained(s)
    ensures Held(s, e) <==> exists name :: name in s.tracked && e in EntriesOf(s.tracked[name])
  {
    assert !Toward(s, e, true) && !Toward(s, e, false);
    forall name ensures !Untracking(s, name) {}
  }

  lemma DrainedIndex(s: Sys, kindFor: KindFor, key: string, uid: string)
    requires IndexHolds(s, kindFor) && Drained(s) && key != AW_KEY
    ensures uid in Uids(s.index.counts, key) <==> uid in Recomputed(kindFor, s.tracked, key)
  {
    if uid in Uids(s.index.counts, key) {
      var gvr :| Held(s, Entry(gvr, uid)) && Counted(kindFor, gvr, key);
      DrainedHeld(s, Entry(gvr, uid));
      var name :| name in s.tracked && Entry(gvr, uid) in EntriesOf(s.tracked[name]);
      assert Entry(gvr, uid).uid in Recomputed(kindFor, s.tracked, key);
    }
    if uid in Recomputed(kindFor, s.tracked, key) {
      var name, e :| name in s.tracked && e in EntriesOf(s.tracked[name]) && Counted(kindFor, e.gvr, key) && e.uid == uid;
      assert e == Entry(e.gvr, uid);
      DrainedHeld(s, e);
    }
  }

  /** Index refinement: after any run of events under the hypotheses, once the loops have drained,
      every kind's UID set is the one recomputed from the tracked manifests, a kind has an informer
      exactly when that set is nonempty, and the AppliedManifestWork informer is still its own. */
  lemma IndexRefinesTracked(kindFor: KindFor, labels: seq<Label>)
    requires GoodRun(START, kindFor, labels)
    ensures IsRun(START, labels) && RunSys(START, labels).Next?
    ensures var s := RunSys(START, labels).sys;
            Drained(s) ==>
              && (forall key :: key != AW_KEY ==>
                    && Uids(s.index.counts, key) == Recomputed(kindFor, s.tracked, key)
                    && (key in s.index.informers <==> Recomputed(kindFor, s.tracked, key) != {}))
              && ViewAt(s.index, AW_KEY) == ViewAt(BOOTED, AW_KEY)
  {
    StartRefines(kindFor);
    RunRefines(START, kindFor, labels);
    var s := RunSys(START, labels).sys;
    if Drained(s) {
      forall key | key != AW_KEY ensures Uids(s.index.counts, key) == Recomputed(kindFor, s.tracked, key) {
        forall uid ensures uid in Uids(s.index.counts, key) <==> uid in Recomputed(kindFor, s.tracked, key) {
          DrainedIndex(s, kindFor, key, uid);
        }
      }
    }
  }

  /** No leaked or duplicate informer: at every point of such a run, drained or not, the running
      informers are exactly those whose channels are stored, one for each registered kind. */
  lemma RunningAreStored(kindFor: KindFor, labels: seq<Label>)
    requires GoodRun(START, kindFor, labels)
    ensures IsRun(START, labels) && RunSys(START, labels).Next?
    ensures var i := RunSys(START, labels).sys.index;
            && i.running == i.stoppers.Values && i.informers.Keys == i.stoppers.Keys
            && forall k, l :: k in i.stoppers && l in i.stoppers && i.stoppers[k] == i.stoppers[l] ==> k == l
  {
    StartRefines(kindFor);
    RunRefines(START, kindFor, labels);
  }
}
