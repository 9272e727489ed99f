// Without the hypotheses on UIDs: exactly which events leave the index other than the one recomputed
// from the tracked manifests.

module SharedUids {
  import opened Base
  import opened Schema
  import opened SafeMaps
  import opened Diff
  import opened Index
  import opened Confluence
  import opened Tracking
  import opened Refinement
  import opened IndexRefinement

  function CountedUids(kindFor: KindFor, es: set<Entry>, key: string): set<string> {
    set e | e in es && Counted(kindFor, e.gvr, key) :: e.uid
  }

  // stopInformers does not look at excluded kinds
  function KeyUids(kindFor: KindFor, es: set<Entry>, key: string): set<string> {
    set e | e in es && KindKey(kindFor(e.gvr)) == key :: e.uid
  }

  ghost predicate Agrees(s: Sys, kindFor: KindFor) {
    forall key :: key != AW_KEY ==> Uids(s.index.counts, key) == Recomputed(kindFor, s.tracked, key)
  }

  // ----- letting the loops run -----

  // A step of some loop, its lookup succeeding.
  ghost predicate LoopLabel(s: Sys, kindFor: KindFor, l: Label) {
    && Enabled(s, l) && !l.Handle?
    && (l.Iterate? ==> l.kind == Some(kindFor(s.threads[l.t].rest[0].gvr)))
  }

  ghost predicate LoopRun(s: Sys, kindFor: KindFor, labels: seq<Label>)
    decreases |labels|
  {
    labels != [] ==>
      && LoopLabel(s, kindFor, labels[0])
      && (SysStep(s, labels[0]).Next? ==> LoopRun(SysStep(s, labels[0]).sys, kindFor, labels[1..]))
  }

  function Pending(s: Sys, stopping: bool): set<Entry> {
    set t, e | 0 <= t < |s.threads| && s.threads[t].stopping == stopping && e in s.threads[t].rest :: e
  }

  ghost predicate NoClash(s: Sys) {
    UidsIn(Pending(s, false)) !! UidsIn(Pending(s, true))
  }

  // What the UID set will be once the loops are through.
  function Forecast(s: Sys, kindFor: KindFor, key: string): set<string> {
    Uids(s.index.counts, key) + CountedUids(kindFor, Pending(s, false), key) - KeyUids(kindFor, Pending(s, true), key)
  }

  // What will be tracked by then.
  ghost function Remaining(s: Sys): Tracked {
    map name | name in s.tracked && !Untracking(s, name) :: s.tracked[name]
  }

  // An iteration takes its entry off what is pending, unless another loop has it too.
  lemma PopPending(s: Sys, t: nat, index: State, e: Entry, stopping: bool)
    requires t < |s.threads| && s.threads[t].rest != []
    ensures e in Pending(Popped(s, t, index), stopping) ==> e in Pending(s, stopping)
    ensures e in Pending(s, stopping) ==>
              e in Pending(Popped(s, t, index), stopping) || (s.threads[t].stopping == stopping && e == s.threads[t].rest[0])
    ensures s.threads[t].rest[0] in Pending(s, s.threads[t].stopping)
  {
    var u := Popped(s, t, index);
    assert s.threads[t].rest[0] in s.threads[t].rest;
    if e in Pending(u, stopping) {
      var i :| 0 <= i < |u.threads| && u.threads[i].stopping == stopping && e in u.threads[i].rest;
      PopThread(s, t, index, i, e);
    }
    if e in Pending(s, stopping) {
      var i :| 0 <= i < |s.threads| && s.threads[i].stopping == stopping && e in s.threads[i].rest;
      PopThread(s, t, index, i, e);
    }
  }

  // the entry's effect on the UID set of one kind
  lemma IterateUids(s: Sys, kindFor: KindFor, t: nat, key: string)
    requires SysInv(s) && t < |s.threads| && s.threads[t].rest != [] && key != AW_KEY
    ensures var th := s.threads[t];
            var e := th.rest[0];
            var r := IndexStep(s.index, th.stopping, e, kindFor(e.gvr));
            && r.Fine?
            && Uids(r.state.counts, key) ==
                 if th.stopping then Uids(s.index.counts, key) - KeyUids(kindFor, {e}, key)
                 else Uids(s.index.counts, key) + CountedUids(kindFor, {e}, key)
  {
    var th := s.threads[t];
    var e := th.rest[0];
    if th.stopping {
      StopUids(s.index, kindFor, e, key);
    } else {
      StartUids(s.index, kindFor, e, key);
    }
  }

  lemma StopUids(index: State, kindFor: KindFor, e: Entry, key: string)
    requires Consistent(index) && Bounded(index) && key != AW_KEY
    ensures var r := IndexStep(index, true, e, kindFor(e.gvr));
            r.Fine? && Uids(r.state.counts, key) == Uids(index.counts, key) - KeyUids(kindFor, {e}, key)
  {
    OneKeyed(kindFor, e, key);
    StepUids(index, Remove(KindKey(kindFor(e.gvr)), e.uid), key);
    SingleOp(Remove(KindKey(kindFor(e.gvr)), e.uid), key);
  }

  lemma OneKeyed(kindFor: KindFor, e: Entry, key: string)
    ensures KeyUids(kindFor, {e}, key) == if KindKey(kindFor(e.gvr)) == key then {e.uid} else {}
  {
  }

  lemma StartUids(index: State, kindFor: KindFor, e: Entry, key: string)
    requires Consistent(index) && Bounded(index) && key != AW_KEY
    ensures var r := IndexStep(index, false, e, kindFor(e.gvr));
            r.Fine? && Uids(r.state.counts, key) == Uids(index.counts, key) + CountedUids(kindFor, {e}, key)
  {
    var kind := kindFor(e.gvr);
    OneCounted(kindFor, e, key);
    if !Excluded(kind) {
      StepUids(index, Add(KindKey(kind), e.gvr, e.uid), key);
      SingleOp(Add(KindKey(kind), e.gvr, e.uid), key);
    }
  }

  lemma OneCounted(kindFor: KindFor, e: Entry, key: string)
    ensures CountedUids(kindFor, {e}, key) == if Counted(kindFor, e.gvr, key) then {e.uid} else {}
  {
  }

  lemma ForecastSets(u: set<string>, a: set<string>, r: set<string>, u': set<string>, a': set<string>, r': set<string>,
                     x: set<string>, stopping: bool)
    requires a !! r
    requires if stopping then u' == u - x && a' == a && r' <= r <= r' + x && x <= r
             else u' == u + x && r' == r && a' <= a <= a' + x && x <= a
    ensures u' + a' - r' == u + a - r && a' !! r'
  {
  }

  lemma IterateForecast(s: Sys, kindFor: KindFor, t: nat, key: string)
    requires SysInv(s) && NoClash(s) && t < |s.threads| && s.threads[t].rest != [] && key != AW_KEY
    ensures var r := IterateStep(s, t, Some(kindFor(s.threads[t].rest[0].gvr)));
            r.Next? && Forecast(r.sys, kindFor, key) == Forecast(s, kindFor, key)
  {
    var th := s.threads[t];
    var e := th.rest[0];
    IterateUids(s, kindFor, t, key);
    var index := IndexStep(s.index, th.stopping, e, kindFor(e.gvr)).state;
    var u := Popped(s, t, index);
    assert IterateStep(s, t, Some(kindFor(e.gvr))) == Next(u);
    forall f, stopping
      ensures f in Pending(u, stopping) ==> f in Pending(s, stopping)
      ensures f in Pending(s, stopping) ==> f in Pending(u, stopping) || (th.stopping == stopping && f == e)
      ensures e in Pending(s, th.stopping)
    {
      PopPending(s, t, index, f, stopping);
    }
    assert Pending(u, !th.stopping) == Pending(s, !th.stopping);
    PendingApart(s, kindFor, key);
    ForecastSets(Uids(s.index.counts, key), CountedUids(kindFor, Pending(s, false), key), KeyUids(kindFor, Pending(s, true), key),
                 Uids(index.counts, key), CountedUids(kindFor, Pending(u, false), key), KeyUids(kindFor, Pending(u, true), key),
                 if th.stopping then KeyUids(kindFor, {e}, key) else CountedUids(kindFor, {e}, key), th.stopping);
  }

  lemma PendingApart(s: Sys, kindFor: KindFor, key: string)
    requires NoClash(s)
    ensures CountedUids(kindFor, Pending(s, false), key) !! KeyUids(kindFor, Pending(s, true), key)
  {
    forall uid | uid in CountedUids(kindFor, Pending(s, false), key) ensures uid in UidsIn(Pending(s, false)) {}
    forall uid | uid in KeyUids(kindFor, Pending(s, true), key) ensures uid in UidsIn(Pending(s, true)) {}
  }

  lemma IterateNoClash(s: Sys, t: nat, index: State)
    requires NoClash(s) && t < |s.threads| && s.threads[t].rest != []
    ensures NoClash(Popped(s, t, index))
  {
    var u := Popped(s, t, index);
    forall stopping ensures UidsIn(Pending(u, stopping)) <= UidsIn(Pending(s, stopping)) {
      forall e | e in Pending(u, stopping) ensures e in Pending(s, stopping) {
        PopPending(s, t, index, e, stopping);
      }
    }
  }

  lemma FinishPending(s: Sys, t: nat)
    requires t < |s.threads|
    ensures forall stopping :: Pending(FinishStep(s, t), stopping) == Pending(s, stopping)
  {
    var u := FinishStep(s, t);
    assert forall i :: 0 <= i < |s.threads| ==> u.threads[i].rest == s.threads[i].rest && u.threads[i].stopping == s.threads[i].stopping;
  }

  lemma FinishRemaining(s: Sys, t: nat)
    requires t < |s.threads| && s.threads[t].untrack
    ensures Remaining(FinishStep(s, t)) == Remaining(s)
  {
    var u, name := FinishStep(s, t), s.threads[t].name;
    assert Untracking(s, name);
    forall m | m != name ensures Untracking(u, m) <==> Untracking(s, m) {
      assert forall i :: 0 <= i < |s.threads| && i != t ==> u.threads[i] == s.threads[i];
    }
  }

  /** Nothing the loops do changes where they are going. */
  lemma LoopStepKeeps(s: Sys, kindFor: KindFor, l: Label)
    requires SysInv(s) && NoClash(s) && LoopLabel(s, kindFor, l)
    ensures SysStep(s, l).Next?
    ensures var u := SysStep(s, l).sys;
            && SysInv(u) && NoClash(u) && Remaining(u) == Remaining(s)
            && forall key :: key != AW_KEY ==> Forecast(u, kindFor, key) == Forecast(s, kindFor, key)
  {
    SysStepKeepsInv(s, l);
    var u := SysStep(s, l).sys;
    match l
    case Iterate(t, _) =>
      var th := s.threads[t];
      var index := IndexStep(s.index, th.stopping, th.rest[0], kindFor(th.rest[0].gvr)).state;
      assert u == Popped(s, t, index);
      IterateNoClash(s, t, index);
      forall key | key != AW_KEY ensures Forecast(u, kindFor, key) == Forecast(s, kindFor, key) {
        IterateForecast(s, kindFor, t, key);
      }
      forall name ensures Untracking(u, name) <==> Untracking(s, name) {
        PopUntracking(s, t, index, name);
      }
    case Finish(t) =>
      FinishPending(s, t);
      FinishRemaining(s, t);
  }

  lemma DrainedForecast(s: Sys, kindFor: KindFor)
    requires Drained(s)
    ensures NoClash(s) && Remaining(s) == s.tracked
    ensures Pending(s, false) == Pending(s, true) == {}
    ensures forall key :: Forecast(s, kindFor, key) == Uids(s.index.counts, key)
  {
    forall name ensures !Untracking(s, name) {}
  }

  /** Whatever way the loops are interleaved, they end where the forecast said. */
  lemma {:induction false} LoopsReachForecast(s: Sys, kindFor: KindFor, labels: seq<Label>)
    requires SysInv(s) && NoClash(s) && LoopRun(s, kindFor, labels)
    ensures IsRun(s, labels) && RunSys(s, labels).Next?
    ensures var u := RunSys(s, labels).sys;
            Drained(u) ==>
              && u.tracked == Remaining(s)
              && forall key :: key != AW_KEY ==> Uids(u.index.counts, key) == Forecast(s, kindFor, key)
    decreases |labels|
  {
    if labels == [] {
      if Drained(s) {
        DrainedForecast(s, kindFor);
      }
    } else {
      LoopStepKeeps(s, kindFor, labels[0]);
      LoopsReachForecast(SysStep(s, labels[0]).sys, kindFor, labels[1..]);
    }
  }

  // ----- one event -----

  // the entries started and stopped because of an event
  function StartedBy(plan: Plan, diff: Change): set<Entry> {
    match plan
    case Track(info) => EntriesOf(info)
    case Update(_, _) => EntriesOf(diff.added)
    case _ => {}
  }

  function StoppedBy(plan: Plan, diff: Change): set<Entry> {
    match plan
    case Update(_, _) => EntriesOf(diff.removed)
    case Untrack(prior) => EntriesOf(prior)
    case _ => {}
  }

  // the manifest's list before and after
  function PriorList(tracked: Tracked, name: string): set<Entry> {
    if name in tracked then EntriesOf(tracked[name]) else {}
  }

  function NewList(tracked: Tracked, ev: Event): set<Entry> {
    match PlanFor(tracked, ev)
    case Track(info) => EntriesOf(info)
    case Update(_, info) => EntriesOf(info)
    case Untrack(_) => {}
    case _ => PriorList(tracked, ev.name)
  }

  ghost function OtherLists(tracked: Tracked, name: string): set<Entry> {
    set m, e | m in tracked && m != name && e in EntriesOf(tracked[m]) :: e
  }

  lemma RecomputedSplits(kindFor: KindFor, tracked: Tracked, name: string, key: string)
    ensures Recomputed(kindFor, tracked, key)
         == CountedUids(kindFor, OtherLists(tracked, name), key) + CountedUids(kindFor, PriorList(tracked, name), key)
  {
    var others, own := CountedUids(kindFor, OtherLists(tracked, name), key), CountedUids(kindFor, PriorList(tracked, name), key);
    forall uid ensures uid in Recomputed(kindFor, tracked, key) <==> uid in others + own {
      if uid in Recomputed(kindFor, tracked, key) {
        var m, e :| m in tracked && e in EntriesOf(tracked[m]) && Counted(kindFor, e.gvr, key) && e.uid == uid;
        assert m == name ==> e in PriorList(tracked, name);
        assert m != name ==> e in OtherLists(tracked, name);
      }
      if uid in others {
        var e :| e in OtherLists(tracked, name) && Counted(kindFor, e.gvr, key) && e.uid == uid;
        var m :| m in tracked && m != name && e in EntriesOf(tracked[m]);
      }
      if uid in own {
        var e :| e in PriorList(tracked, name) && Counted(kindFor, e.gvr, key) && e.uid == uid;
        assert name in tracked && e in EntriesOf(tracked[name]);
      }
    }
  }

  /** What the starts and stops of an event must meet for one kind: the stops take no UID that another
      manifest has there too; they leave none counted that no list has there any more; and the starts count
      all that is newly listed there. */
  ghost predicate Fits(kindFor: KindFor, tracked: Tracked, ev: Event, starts: set<Entry>, stops: set<Entry>, key: string) {
    var others := CountedUids(kindFor, OtherLists(tracked, ev.name), key);
    var prior := CountedUids(kindFor, PriorList(tracked, ev.name), key);
    var listed := CountedUids(kindFor, NewList(tracked, ev), key);
    && KeyUids(kindFor, stops, key) !! others
    && prior - KeyUids(kindFor, stops, key) <= others + listed
    && listed <= others + prior + CountedUids(kindFor, starts, key)
  }

  ghost predicate EventFits(kindFor: KindFor, tracked: Tracked, ev: Event, diff: Change, key: string) {
    var plan := PlanFor(tracked, ev);
    Fits(kindFor, tracked, ev, StartedBy(plan, diff), StoppedBy(plan, diff), key)
  }

  lemma AgreementSets(others: set<string>, prior: set<string>, listed: set<string>, stopped: set<string>, started: set<string>)
    requires stopped !! listed && started <= listed
    ensures others + prior + started - stopped == others + listed
       <==> stopped !! others && prior - stopped <= others + listed && listed <= others + prior + started
  {
    var l, r := others + prior + started - stopped, others + listed;
    if l == r {
      forall x | x in others ensures x !in stopped {
        assert x in r;
      }
      forall x | x in prior - stopped ensures x in r {
        assert x in l;
      }
      forall x | x in listed ensures x in others + prior + started {
        assert x in r;
      }
    }
  }

  lemma HandlePending(s: Sys, ev: Event, diff: Change)
    requires Drained(s) && SysInv(s) && Enabled(s, Handle(ev, diff))
    ensures var u, plan := HandleStep(s, ev, diff), PlanFor(s.tracked, ev);
            && u.index == s.index
            && Pending(u, false) == StartedBy(plan, diff) && Pending(u, true) == StoppedBy(plan, diff)
  {
    var u, plan, n := HandleStep(s, ev, diff), PlanFor(s.tracked, ev), |s.threads|;
    if ev.Applied? {
      InfoListed(ev.resources, ev.name);
    }
    assert u.threads[..n] == s.threads;
    forall i | 0 <= i < n ensures u.threads[i].rest == [] {
      assert u.threads[..n][i] == u.threads[i];
    }
    forall e, stopping ensures e in Pending(u, stopping) <==> e in if stopping then StoppedBy(plan, diff) else StartedBy(plan, diff) {
      if e in if stopping then StoppedBy(plan, diff) else StartedBy(plan, diff) {
        var i := if plan.Update? && stopping then n + 1 else n;
        assert u.threads[i].stopping == stopping && e in u.threads[i].rest;
      }
    }
  }

  lemma HandleRemaining(s: Sys, ev: Event, diff: Change)
    requires Drained(s) && SysInv(s) && Enabled(s, Handle(ev, diff))
    ensures var u := Remaining(HandleStep(s, ev, diff));
            OtherLists(u, ev.name) == OtherLists(s.tracked, ev.name) && PriorList(u, ev.name) == NewList(s.tracked, ev)
  {
    var u, plan, n := HandleStep(s, ev, diff), PlanFor(s.tracked, ev), |s.threads|;
    if ev.Applied? {
      InfoListed(ev.resources, ev.name);
    }
    assert u.threads[..n] == s.threads;
    forall i | 0 <= i < n ensures !u.threads[i].untrack {
      assert u.threads[..n][i] == u.threads[i];
    }
    forall m ensures Untracking(u, m) <==> plan.Untrack? && m == ev.name {
      if plan.Untrack? {
        assert u.threads[n].untrack && u.threads[n].name == ev.name;
      }
    }
    var r := Remaining(u);
    forall m | m != ev.name ensures (m in r <==> m in s.tracked) && (m in r ==> r[m] == s.tracked[m]) {}
  }

  // What is stopped is not on the new list, and what is started is.
  lemma PlanSets(s: Sys, ev: Event, diff: Change)
    requires SysInv(s) && Enabled(s, Handle(ev, diff))
    ensures var plan := PlanFor(s.tracked, ev);
            && UidsIn(StoppedBy(plan, diff)) !! UidsIn(NewList(s.tracked, ev))
            && StartedBy(plan, diff) <= NewList(s.tracked, ev)
  {
    var plan := PlanFor(s.tracked, ev);
    if plan.Update? {
      DiffUids(plan.prior, plan.info, diff.added, diff.removed);
      SelectionWithin(diff.added, plan.info, Elements(plan.info.uids) - Elements(plan.prior.uids), EntriesOf(plan.info));
      EntryUids(diff.removed);
      EntryUids(plan.info);
    }
  }

  lemma EntryUids(info: AppliedManifestInfo)
    requires Aligned(info)
    ensures UidsIn(EntriesOf(info)) == Elements(info.uids)
  {
    forall uid ensures uid in UidsIn(EntriesOf(info)) <==> uid in info.uids {
      if uid in info.uids {
        var i :| 0 <= i < |info.uids| && info.uids[i] == uid;
        assert Entries(info)[i] in EntriesOf(info);
      }
    }
  }

  lemma UidSubsets(kindFor: KindFor, es: set<Entry>, key: string)
    ensures KeyUids(kindFor, es, key) <= UidsIn(es) && CountedUids(kindFor, es, key) <= UidsIn(es)
  {
  }

  lemma HandledNoClash(s: Sys, ev: Event, diff: Change)
    requires SysInv(s) && Drained(s) && Enabled(s, Handle(ev, diff))
    ensures SysInv(HandleStep(s, ev, diff)) && NoClash(HandleStep(s, ev, diff))
  {
    var plan := PlanFor(s.tracked, ev);
    SysStepKeepsInv(s, Handle(ev, diff));
    HandlePending(s, ev, diff);
    PlanSets(s, ev, diff);
    assert UidsIn(StartedBy(plan, diff)) <= UidsIn(NewList(s.tracked, ev));
  }

  /** From a drained state that agrees, any event, with whatever UIDs, whose loops run to their end
      in whatever order, leads to agreement again iff it fits every kind. */
  lemma EventKeepsAgreementIff(s: Sys, kindFor: KindFor, ev: Event, diff: Change, labels: seq<Label>)
    requires SysInv(s) && Drained(s) && Agrees(s, kindFor) && Enabled(s, Handle(ev, diff))
    requires LoopRun(HandleStep(s, ev, diff), kindFor, labels)
    ensures var u := HandleStep(s, ev, diff);
            && IsRun(u, labels) && RunSys(u, labels).Next?
            && (Drained(RunSys(u, labels).sys) ==>
                  (Agrees(RunSys(u, labels).sys, kindFor) <==>
                   forall key :: key != AW_KEY ==> EventFits(kindFor, s.tracked, ev, diff, key)))
  {
    var u, plan := HandleStep(s, ev, diff), PlanFor(s.tracked, ev);
    HandledNoClash(s, ev, diff);
    HandlePending(s, ev, diff);
    HandleRemaining(s, ev, diff);
    LoopsReachForecast(u, kindFor, labels);
    var v := RunSys(u, labels).sys;
    if Drained(v) {
      forall key | key != AW_KEY
        ensures Uids(v.index.counts, key) == Recomputed(kindFor, v.tracked, key) <==> EventFits(kindFor, s.tracked, ev, diff, key)
      {
        KindAgreesIff(s, kindFor, ev, diff, v.tracked, StartedBy(plan, diff), StoppedBy(plan, diff), key);
      }
    }
  }

  lemma KindAgreesIff(s: Sys, kindFor: KindFor, ev: Event, diff: Change, after: Tracked, starts: set<Entry>, stops: set<Entry>, key: string)
    requires SysInv(s) && Agrees(s, kindFor) && Enabled(s, Handle(ev, diff)) && key != AW_KEY
    requires OtherLists(after, ev.name) == OtherLists(s.tracked, ev.name) && PriorList(after, ev.name) == NewList(s.tracked, ev)
    requires starts <= StartedBy(PlanFor(s.tracked, ev), diff) && stops <= StoppedBy(PlanFor(s.tracked, ev), diff)
    ensures (Uids(s.index.counts, key) + CountedUids(kindFor, starts, key) - KeyUids(kindFor, stops, key)
             == Recomputed(kindFor, after, key))
            <==> Fits(kindFor, s.tracked, ev, starts, stops, key)
  {
    PlanSets(s, ev, diff);
    UidSubsets(kindFor, stops, key);
    UidSubsets(kindFor, NewList(s.tracked, ev), key);
    RecomputedSplits(kindFor, s.tracked, ev.name, key);
    RecomputedSplits(kindFor, after, ev.name, key);
    AgreementSets(CountedUids(kindFor, OtherLists(s.tracked, ev.name), key), CountedUids(kindFor, PriorList(s.tracked, ev.name), key),
                  CountedUids(kindFor, NewList(s.tracked, ev), key), KeyUids(kindFor, stops, key), CountedUids(kindFor, starts, key));
  }

  // ----- manifests in which a UID is one resource -----

  ghost predicate OneResourceEach(es: set<Entry>) {
    forall e, f :: e in es && f in es && e.uid == f.uid ==> e == f
  }

  /** An entry the event drops from the manifest's list is listed, under the same kind, by another
      tracked manifest. */
  ghost predicate DropsShared(kindFor: KindFor, tracked: Tracked, ev: Event) {
    exists e, f :: e in PriorList(tracked, ev.name) - NewList(tracked, ev) && f in OtherLists(tracked, ev.name)
                   && e.uid == f.uid && !Excluded(kindFor(f.gvr))
                   && KindKey(kindFor(e.gvr)) == KindKey(kindFor(f.gvr)) && KindKey(kindFor(f.gvr)) != AW_KEY
  }

  lemma UpdateEntries(prior: AppliedManifestInfo, info: AppliedManifestInfo, diff: Change)
    requires Aligned(prior) && Aligned(info) && prior.uids != [] && info.uids != []
    requires IsDiff(prior, info, diff.added, diff.removed) && OneResourceEach(EntriesOf(prior) + EntriesOf(info))
    ensures EntriesOf(diff.added) == EntriesOf(info) - EntriesOf(prior)
    ensures EntriesOf(diff.removed) == EntriesOf(prior) - EntriesOf(info)
  {
    SelectedEntries(diff.added, info, prior);
    SelectedEntries(diff.removed, prior, info);
  }

  // The part of a list with the UIDs another list lacks has the entries that list lacks.
  lemma SelectedEntries(part: AppliedManifestInfo, info: AppliedManifestInfo, other: AppliedManifestInfo)
    requires Aligned(info) && Aligned(other) && OneResourceEach(EntriesOf(info) + EntriesOf(other))
    requires Selection(part, info, Elements(info.uids) - Elements(other.uids))
    ensures EntriesOf(part) == EntriesOf(info) - EntriesOf(other)
  {
    EntryUids(part);
    EntryUids(info);
    EntryUids(other);
    SelectionWithin(part, info, Elements(info.uids) - Elements(other.uids), EntriesOf(info));
    forall e | e in EntriesOf(part) ensures e !in EntriesOf(other) {
      assert e.uid in UidsIn(EntriesOf(part));
    }
    forall e | e in EntriesOf(info) - EntriesOf(other) ensures e in EntriesOf(part) {
      assert e.uid in UidsIn(EntriesOf(info));
      assert e.uid !in UidsIn(EntriesOf(other));
      assert e.uid in Elements(part.uids) && e.uid in UidsIn(EntriesOf(part));
      var f :| f in EntriesOf(part) && f.uid == e.uid;
      assert f in EntriesOf(info);
    }
  }

  lemma ListsOfPlan(s: Sys, ev: Event, diff: Change)
    requires SysInv(s) && Enabled(s, Handle(ev, diff))
    requires OneResourceEach(PriorList(s.tracked, ev.name) + NewList(s.tracked, ev))
    ensures var plan, prior, listed := PlanFor(s.tracked, ev), PriorList(s.tracked, ev.name), NewList(s.tracked, ev);
            StoppedBy(plan, diff) == prior - listed && StartedBy(plan, diff) == listed - prior
  {
    var plan := PlanFor(s.tracked, ev);
    if plan.Update? {
      UpdateEntries(plan.prior, plan.info, diff);
    }
  }

  lemma FitsIffUnshared(s: Sys, kindFor: KindFor, ev: Event, diff: Change)
    requires SysInv(s) && Enabled(s, Handle(ev, diff))
    requires OneResourceEach(PriorList(s.tracked, ev.name) + NewList(s.tracked, ev))
    ensures (forall key :: key != AW_KEY ==> EventFits(kindFor, s.tracked, ev, diff, key)) <==> !DropsShared(kindFor, s.tracked, ev)
  {
    var plan, prior, listed := PlanFor(s.tracked, ev), PriorList(s.tracked, ev.name), NewList(s.tracked, ev);
    var others := OtherLists(s.tracked, ev.name);
    ListsOfPlan(s, ev, diff);
    forall key | key != AW_KEY
      ensures EventFits(kindFor, s.tracked, ev, diff, key)
         <==> KeyUids(kindFor, prior - listed, key) !! CountedUids(kindFor, others, key)
    {
      forall uid | uid in CountedUids(kindFor, prior, key) - KeyUids(kindFor, prior - listed, key)
        ensures uid in CountedUids(kindFor, listed, key)
      {
        var e :| e in prior && Counted(kindFor, e.gvr, key) && e.uid == uid;
        assert e in listed;
      }
      forall uid | uid in CountedUids(kindFor, listed, key)
        ensures uid in CountedUids(kindFor, prior, key) + CountedUids(kindFor, listed - prior, key)
      {
        var e :| e in listed && Counted(kindFor, e.gvr, key) && e.uid == uid;
        assert e in prior || e in listed - prior;
      }
    }
    if e, f :| e in prior - listed && f in others && e.uid == f.uid && !Excluded(kindFor(f.gvr))
               && KindKey(kindFor(e.gvr)) == KindKey(kindFor(f.gvr)) && KindKey(kindFor(f.gvr)) != AW_KEY {
      var key := KindKey(kindFor(f.gvr));
      assert e.uid in KeyUids(kindFor, prior - listed, key) && f.uid in CountedUids(kindFor, others, key);
    } else {
      forall key | key != AW_KEY ensures KeyUids(kindFor, prior - listed, key) !! CountedUids(kindFor, others, key) {}
    }
  }

  /** Where a UID stands for one resource within the manifest, only sharing across manifests is in the
      way: agreement is kept iff no entry dropped is listed, under the same kind, by another manifest. */
  lemma SharedDropBreaksIff(s: Sys, kindFor: KindFor, ev: Event, diff: Change, labels: seq<Label>)
    requires SysInv(s) && Drained(s) && Agrees(s, kindFor) && Enabled(s, Handle(ev, diff))
    requires OneResourceEach(PriorList(s.tracked, ev.name) + NewList(s.tracked, ev))
    requires LoopRun(HandleStep(s, ev, diff), kindFor, labels)
    ensures var u := HandleStep(s, ev, diff);
            && IsRun(u, labels) && RunSys(u, labels).Next?
            && (Drained(RunSys(u, labels).sys) ==>
                  (Agrees(RunSys(u, labels).sys, kindFor) <==> !DropsShared(kindFor, s.tracked, ev)))
  {
    EventKeepsAgreementIff(s, kindFor, ev, diff, labels);
    FitsIffUnshared(s, kindFor, ev, diff);
  }
}
