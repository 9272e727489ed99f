// One event whose loops may be cut short: a failed lookup ends a loop, and what it had still to go
// through is neither started nor stopped.

module FailedLookups {
  import opened Base
  import opened Schema
  import opened SafeMaps
  import opened Diff
  import opened Tracking
  import opened Refinement
  import opened IndexRefinement
  import opened SharedUids

  // A step of some loop; a lookup yields the kind or fails.
  ghost predicate FaultyLabel(s: Sys, kindFor: KindFor, l: Label) {
    && Enabled(s, l) && !l.Handle?
    && (l.Iterate? ==> l.kind == None || l.kind == Some(kindFor(s.threads[l.t].rest[0].gvr)))
  }

  ghost predicate FaultyRun(s: Sys, kindFor: KindFor, labels: seq<Label>)
    decreases |labels|
  {
    labels != [] ==>
      && FaultyLabel(s, kindFor, labels[0])
      && (SysStep(s, labels[0]).Next? ==> FaultyRun(SysStep(s, labels[0]).sys, kindFor, labels[1..]))
  }

  // The entry a step gets done.
  function DoneBy(s: Sys, l: Label, stopping: bool): set<Entry> {
    if l.Iterate? && l.kind.Some? && l.t < |s.threads| && s.threads[l.t].rest != [] && s.threads[l.t].stopping == stopping
    then {s.threads[l.t].rest[0]} else {}
  }

  /** The entries the starts, or the stops, of a run got done. */
  ghost function Done(s: Sys, kindFor: KindFor, labels: seq<Label>, stopping: bool): set<Entry>
    requires FaultyRun(s, kindFor, labels)
    decreases |labels|
  {
    if labels == [] then {}
    else
      DoneBy(s, labels[0], stopping) +
      match SysStep(s, labels[0])
      case Panicked => {}
      case Next(u) => Done(u, kindFor, labels[1..], stopping)
  }

  // Thread t's loop has ended early.
  function Cut(s: Sys, t: nat): Sys
    requires t < |s.threads|
  {
    s.(threads := s.threads[t := s.threads[t].(rest := [])])
  }

  lemma CutPending(s: Sys, t: nat, stopping: bool)
    requires t < |s.threads|
    ensures Pending(Cut(s, t), stopping) <= Pending(s, stopping)
  {
    var u := Cut(s, t);
    forall e | e in Pending(u, stopping) ensures e in Pending(s, stopping) {
      var i :| 0 <= i < |u.threads| && u.threads[i].stopping == stopping && e in u.threads[i].rest;
      assert s.threads[i] == u.threads[i];
    }
  }

  lemma CutRemaining(s: Sys, t: nat)
    requires t < |s.threads|
    ensures Remaining(Cut(s, t)) == Remaining(s)
  {
    var u := Cut(s, t);
    forall name ensures Untracking(u, name) <==> Untracking(s, name) {
      assert forall i :: 0 <= i < |s.threads| ==> u.threads[i].name == s.threads[i].name && u.threads[i].untrack == s.threads[i].untrack;
    }
  }

  lemma FewerUids(es: set<Entry>, fs: set<Entry>)
    requires es <= fs
    ensures UidsIn(es) <= UidsIn(fs)
  {
  }

  lemma FaultyStepKeeps(s: Sys, kindFor: KindFor, l: Label)
    requires SysInv(s) && NoClash(s) && FaultyLabel(s, kindFor, l)
    ensures SysStep(s, l).Next?
    ensures var u := SysStep(s, l).sys;
            && SysInv(u) && NoClash(u) && Remaining(u) == Remaining(s)
            && forall stopping :: Pending(u, stopping) + DoneBy(s, l, stopping) <= Pending(s, stopping)
  {
    SysStepKeepsInv(s, l);
    var u := SysStep(s, l).sys;
    match l
    case Iterate(t, kind) =>
      if kind.None? {
        assert u == Cut(s, t);
        CutRemaining(s, t);
        forall stopping ensures Pending(u, stopping) + DoneBy(s, l, stopping) <= Pending(s, stopping) {
          CutPending(s, t, stopping);
        }
        FewerUids(Pending(u, false), Pending(s, false));
        FewerUids(Pending(u, true), Pending(s, true));
      } else {
        LoopStepKeeps(s, kindFor, l);
        assert u == Popped(s, t, u.index);
        forall stopping ensures Pending(u, stopping) + DoneBy(s, l, stopping) <= Pending(s, stopping) {
          forall e | e in Pending(u, stopping) ensures e in Pending(s, stopping) {
            PopPending(s, t, u.index, e, stopping);
          }
          PopPending(s, t, u.index, s.threads[t].rest[0], stopping);
        }
      }
    case Finish(t) =>
      FinishPending(s, t);
      FinishRemaining(s, t);
  }

  // the effect of one step on the UID set of one kind
  lemma FaultyStepUids(s: Sys, kindFor: KindFor, l: Label, key: string)
    requires SysInv(s) && FaultyLabel(s, kindFor, l) && key != AW_KEY
    ensures SysStep(s, l).Next?
    ensures Uids(SysStep(s, l).sys.index.counts, key)
         == Uids(s.index.counts, key) + CountedUids(kindFor, DoneBy(s, l, false), key) - KeyUids(kindFor, DoneBy(s, l, true), key)
  {
    SysStepKeepsInv(s, l);
    if l.Iterate? && l.kind.Some? {
      IterateUids(s, kindFor, l.t, key);
    }
  }

  lemma DoneWithinPending(s: Sys, kindFor: KindFor, labels: seq<Label>, stopping: bool)
    requires SysInv(s) && NoClash(s) && FaultyRun(s, kindFor, labels)
    ensures Done(s, kindFor, labels, stopping) <= Pending(s, stopping)
    decreases |labels|
  {
    if labels != [] {
      FaultyStepKeeps(s, kindFor, labels[0]);
      DoneWithinPending(SysStep(s, labels[0]).sys, kindFor, labels[1..], stopping);
    }
  }

  lemma UnionUids(kindFor: KindFor, es: set<Entry>, fs: set<Entry>, key: string)
    ensures CountedUids(kindFor, es + fs, key) == CountedUids(kindFor, es, key) + CountedUids(kindFor, fs, key)
    ensures KeyUids(kindFor, es + fs, key) == KeyUids(kindFor, es, key) + KeyUids(kindFor, fs, key)
  {
  }

  lemma StopThenStart(u: set<string>, a: set<string>, r: set<string>, a': set<string>, r': set<string>)
    requires a + a' !! r + r'
    ensures u + a - r + a' - r' == u + (a + a') - (r + r')
  {
  }

  /** Whatever lookups fail: each UID set ends with what was there and what the starts got done, less what
      the stops got done; the manifests tracked in the end do not depend on it. */
  lemma {:induction false} DoneDecides(s: Sys, kindFor: KindFor, labels: seq<Label>)
    requires SysInv(s) && NoClash(s) && FaultyRun(s, kindFor, labels)
    ensures IsRun(s, labels) && RunSys(s, labels).Next?
    ensures var u := RunSys(s, labels).sys;
            && (forall key :: key != AW_KEY ==>
                  Uids(u.index.counts, key)
                  == Uids(s.index.counts, key) + CountedUids(kindFor, Done(s, kindFor, labels, false), key)
                     - KeyUids(kindFor, Done(s, kindFor, labels, true), key))
            && (Drained(u) ==> u.tracked == Remaining(s))
    decreases |labels|
  {
    if labels == [] {
      if Drained(s) {
        DrainedForecast(s, kindFor);
      }
    } else {
      FaultyStepKeeps(s, kindFor, labels[0]);
      var t := SysStep(s, labels[0]).sys;
      DoneDecides(t, kindFor, labels[1..]);
      forall key | key != AW_KEY
        ensures Uids(RunSys(s, labels).sys.index.counts, key)
             == Uids(s.index.counts, key) + CountedUids(kindFor, Done(s, kindFor, labels, false), key)
                - KeyUids(kindFor, Done(s, kindFor, labels, true), key)
      {
        OneMoreDone(s, kindFor, labels, key);
      }
    }
  }

  lemma OneMoreDone(s: Sys, kindFor: KindFor, labels: seq<Label>, key: string)
    requires SysInv(s) && NoClash(s) && FaultyRun(s, kindFor, labels) && labels != [] && key != AW_KEY
    ensures SysStep(s, labels[0]).Next?
    ensures var t := SysStep(s, labels[0]).sys;
            Uids(t.index.counts, key) + CountedUids(kindFor, Done(t, kindFor, labels[1..], false), key)
            - KeyUids(kindFor, Done(t, kindFor, labels[1..], true), key)
            == Uids(s.index.counts, key) + CountedUids(kindFor, Done(s, kindFor, labels, false), key)
               - KeyUids(kindFor, Done(s, kindFor, labels, true), key)
  {
    FaultyStepKeeps(s, kindFor, labels[0]);
    var t := SysStep(s, labels[0]).sys;
    FaultyStepUids(s, kindFor, labels[0], key);
    var a, r := DoneBy(s, labels[0], false), DoneBy(s, labels[0], true);
    var a', r' := Done(t, kindFor, labels[1..], false), Done(t, kindFor, labels[1..], true);
    UnionUids(kindFor, a, a', key);
    UnionUids(kindFor, r, r', key);
    DoneWithinPending(s, kindFor, labels, false);
    DoneWithinPending(s, kindFor, labels, true);
    assert a + a' == Done(s, kindFor, labels, false) && r + r' == Done(s, kindFor, labels, true);
    ClashFree(s, kindFor, a + a', r + r', key);
    StopThenStart(Uids(s.index.counts, key), CountedUids(kindFor, a, key), KeyUids(kindFor, r, key),
                  CountedUids(kindFor, a', key), KeyUids(kindFor, r', key));
  }

  lemma ClashFree(s: Sys, kindFor: KindFor, starts: set<Entry>, stops: set<Entry>, key: string)
    requires NoClash(s) && starts <= Pending(s, false) && stops <= Pending(s, true)
    ensures CountedUids(kindFor, starts, key) !! KeyUids(kindFor, stops, key)
  {
    PendingApart(s, kindFor, key);
    UnionUids(kindFor, starts, Pending(s, false) - starts, key);
    UnionUids(kindFor, stops, Pending(s, true) - stops, key);
    assert Pending(s, false) == starts + (Pending(s, false) - starts);
    assert Pending(s, true) == stops + (Pending(s, true) - stops);
  }

  // ----- one event -----

  /** EventKeepsAgreementIff without the lookups succeeding: agreement is kept iff what the loops got done
      fits every kind. */
  lemma FaultyEventAgreesIff(s: Sys, kindFor: KindFor, ev: Event, diff: Change, labels: seq<Label>)
    requires SysInv(s) && Drained(s) && Agrees(s, kindFor) && Enabled(s, Handle(ev, diff))
    requires FaultyRun(HandleStep(s, ev, diff), kindFor, labels)
    ensures var u := HandleStep(s, ev, diff);
            && IsRun(u, labels) && RunSys(u, labels).Next?
            && (Drained(RunSys(u, labels).sys) ==>
                  (Agrees(RunSys(u, labels).sys, kindFor) <==>
                   forall key :: key != AW_KEY ==>
                     Fits(kindFor, s.tracked, ev, Done(u, kindFor, labels, false), Done(u, kindFor, labels, true), key)))
  {
    var u := HandleStep(s, ev, diff);
    HandledNoClash(s, ev, diff);
    DoneDecides(u, kindFor, labels);
    HandleRemaining(s, ev, diff);
    HandlePending(s, ev, diff);
    DoneWithinPending(u, kindFor, labels, false);
    DoneWithinPending(u, kindFor, labels, true);
    var v := RunSys(u, labels).sys;
    if Drained(v) {
      forall key | key != AW_KEY
        ensures Uids(v.index.counts, key) == Recomputed(kindFor, v.tracked, key)
           <==> Fits(kindFor, s.tracked, ev, Done(u, kindFor, labels, false), Done(u, kindFor, labels, true), key)
      {
        KindAgreesIff(s, kindFor, ev, diff, v.tracked, Done(u, kindFor, labels, false), Done(u, kindFor, labels, true), key);
      }
    }
  }

  // ----- what was cut off, in manifests in which a UID is one resource -----

  // the entries the event would start, or stop, and did not
  ghost function CutOff(tracked: Tracked, ev: Event, starts: set<Entry>, stops: set<Entry>): set<Entry> {
    var prior, listed := PriorList(tracked, ev.name), NewList(tracked, ev);
    (listed - prior - starts) + (prior - listed - stops)
  }

  // Some other manifest lists the UID under the same, watched, kind.
  ghost predicate ListedElsewhere(kindFor: KindFor, tracked: Tracked, ev: Event, e: Entry) {
    exists f :: f in OtherLists(tracked, ev.name) && e.uid == f.uid && Counted(kindFor, f.gvr, KindKey(kindFor(e.gvr)))
  }

  /** Agreement survives failed lookups iff every entry of a watched kind that was cut off is listed by
      another manifest under the same kind, and none that was stopped is. */
  lemma CutOffBreaksIff(s: Sys, kindFor: KindFor, ev: Event, diff: Change, labels: seq<Label>)
    requires SysInv(s) && Drained(s) && Agrees(s, kindFor) && Enabled(s, Handle(ev, diff))
    requires OneResourceEach(PriorList(s.tracked, ev.name) + NewList(s.tracked, ev))
    requires FaultyRun(HandleStep(s, ev, diff), kindFor, labels)
    ensures var u := HandleStep(s, ev, diff);
            && IsRun(u, labels) && RunSys(u, labels).Next?
            && var starts, stops := Done(u, kindFor, labels, false), Done(u, kindFor, labels, true);
               Drained(RunSys(u, labels).sys) ==>
                 (Agrees(RunSys(u, labels).sys, kindFor) <==>
                  && (forall e :: e in CutOff(s.tracked, ev, starts, stops) && !Excluded(kindFor(e.gvr)) && KindKey(kindFor(e.gvr)) != AW_KEY
                                  ==> ListedElsewhere(kindFor, s.tracked, ev, e))
                  && (forall e :: e in stops && KindKey(kindFor(e.gvr)) != AW_KEY ==> !ListedElsewhere(kindFor, s.tracked, ev, e)))
  {
    var u := HandleStep(s, ev, diff);
    FaultyEventAgreesIff(s, kindFor, ev, diff, labels);
    HandledNoClash(s, ev, diff);
    HandlePending(s, ev, diff);
    DoneWithinPending(u, kindFor, labels, false);
    DoneWithinPending(u, kindFor, labels, true);
    ListsOfPlan(s, ev, diff);
    DoneFitsIff(kindFor, s.tracked, ev, Done(u, kindFor, labels, false), Done(u, kindFor, labels, true));
  }

  lemma DoneFitsIff(kindFor: KindFor, tracked: Tracked, ev: Event, starts: set<Entry>, stops: set<Entry>)
    requires OneResourceEach(PriorList(tracked, ev.name) + NewList(tracked, ev))
    requires starts <= NewList(tracked, ev) - PriorList(tracked, ev.name) && stops <= PriorList(tracked, ev.name) - NewList(tracked, ev)
    ensures (forall key :: key != AW_KEY ==> Fits(kindFor, tracked, ev, starts, stops, key))
       <==> && (forall e :: e in CutOff(tracked, ev, starts, stops) && !Excluded(kindFor(e.gvr)) && KindKey(kindFor(e.gvr)) != AW_KEY
                            ==> ListedElsewhere(kindFor, tracked, ev, e))
            && (forall e :: e in stops && KindKey(kindFor(e.gvr)) != AW_KEY ==> !ListedElsewhere(kindFor, tracked, ev, e))
  {
    if forall key :: key != AW_KEY ==> Fits(kindFor, tracked, ev, starts, stops, key) {
      forall e | e in CutOff(tracked, ev, starts, stops) && !Excluded(kindFor(e.gvr)) && KindKey(kindFor(e.gvr)) != AW_KEY
        ensures ListedElsewhere(kindFor, tracked, ev, e)
      {
        CutOffListed(kindFor, tracked, ev, starts, stops, e, KindKey(kindFor(e.gvr)));
      }
      forall e | e in stops && KindKey(kindFor(e.gvr)) != AW_KEY ensures !ListedElsewhere(kindFor, tracked, ev, e) {
        StoppedUnlisted(kindFor, tracked, ev, starts, stops, e, KindKey(kindFor(e.gvr)));
      }
    }
    if && (forall e :: e in CutOff(tracked, ev, starts, stops) && !Excluded(kindFor(e.gvr)) && KindKey(kindFor(e.gvr)) != AW_KEY
                       ==> ListedElsewhere(kindFor, tracked, ev, e))
       && (forall e :: e in stops && KindKey(kindFor(e.gvr)) != AW_KEY ==> !ListedElsewhere(kindFor, tracked, ev, e)) {
      forall key | key != AW_KEY ensures Fits(kindFor, tracked, ev, starts, stops, key) {
        ListedFits(kindFor, tracked, ev, starts, stops, key);
      }
    }
  }

  // Where a UID is one resource, a set without the entry has not its UID either.
  lemma NotCounted(kindFor: KindFor, all: set<Entry>, es: set<Entry>, e: Entry, key: string)
    requires OneResourceEach(all) && e in all && es <= all && e !in es
    ensures e.uid !in CountedUids(kindFor, es, key) && e.uid !in KeyUids(kindFor, es, key)
  {
    assert forall f :: f in es ==> f.uid != e.uid;
  }

  lemma CutOffListed(kindFor: KindFor, tracked: Tracked, ev: Event, starts: set<Entry>, stops: set<Entry>, e: Entry, key: string)
    requires OneResourceEach(PriorList(tracked, ev.name) + NewList(tracked, ev))
    requires starts <= NewList(tracked, ev) - PriorList(tracked, ev.name) && stops <= PriorList(tracked, ev.name) - NewList(tracked, ev)
    requires Fits(kindFor, tracked, ev, starts, stops, key)
    requires e in CutOff(tracked, ev, starts, stops) && Counted(kindFor, e.gvr, key)
    ensures ListedElsewhere(kindFor, tracked, ev, e)
  {
    var prior, listed := PriorList(tracked, ev.name), NewList(tracked, ev);
    if e in listed {
      NotCounted(kindFor, prior + listed, prior, e, key);
      NotCounted(kindFor, prior + listed, starts, e, key);
      IsCounted(kindFor, listed, e, key);
      FitsListed(kindFor, tracked, ev, starts, stops, key, e.uid);
    } else {
      NotCounted(kindFor, prior + listed, listed, e, key);
      NotCounted(kindFor, prior + listed, stops, e, key);
      IsCounted(kindFor, prior, e, key);
      FitsPrior(kindFor, tracked, ev, starts, stops, key, e.uid);
    }
    CountedElsewhere(kindFor, tracked, ev, e, key);
  }

  lemma FitsListed(kindFor: KindFor, tracked: Tracked, ev: Event, starts: set<Entry>, stops: set<Entry>, key: string, uid: string)
    requires Fits(kindFor, tracked, ev, starts, stops, key)
    requires uid in CountedUids(kindFor, NewList(tracked, ev), key)
    requires uid !in CountedUids(kindFor, PriorList(tracked, ev.name), key) && uid !in CountedUids(kindFor, starts, key)
    ensures uid in CountedUids(kindFor, OtherLists(tracked, ev.name), key)
  {
    var others, prior := CountedUids(kindFor, OtherLists(tracked, ev.name), key), CountedUids(kindFor, PriorList(tracked, ev.name), key);
    OnlyThere(CountedUids(kindFor, NewList(tracked, ev), key), others, prior, CountedUids(kindFor, starts, key), uid);
  }

  lemma OnlyThere(l: set<string>, a: set<string>, b: set<string>, c: set<string>, x: string)
    requires l <= a + b + c && x in l && x !in b && x !in c
    ensures x in a
  {
  }

  lemma FitsPrior(kindFor: KindFor, tracked: Tracked, ev: Event, starts: set<Entry>, stops: set<Entry>, key: string, uid: string)
    requires Fits(kindFor, tracked, ev, starts, stops, key)
    requires uid in CountedUids(kindFor, PriorList(tracked, ev.name), key)
    requires uid !in CountedUids(kindFor, NewList(tracked, ev), key) && uid !in KeyUids(kindFor, stops, key)
    ensures uid in CountedUids(kindFor, OtherLists(tracked, ev.name), key)
  {
    var prior, stopped := CountedUids(kindFor, PriorList(tracked, ev.name), key), KeyUids(kindFor, stops, key);
    OnlyThere(prior - stopped, CountedUids(kindFor, OtherLists(tracked, ev.name), key), CountedUids(kindFor, NewList(tracked, ev), key), {}, uid);
  }

  lemma IsCounted(kindFor: KindFor, es: set<Entry>, e: Entry, key: string)
    requires e in es && Counted(kindFor, e.gvr, key)
    ensures e.uid in CountedUids(kindFor, es, key)
  {
  }

  lemma CountedElsewhere(kindFor: KindFor, tracked: Tracked, ev: Event, e: Entry, key: string)
    requires e.uid in CountedUids(kindFor, OtherLists(tracked, ev.name), key) && KindKey(kindFor(e.gvr)) == key
    ensures ListedElsewhere(kindFor, tracked, ev, e)
  {
    var f :| f in OtherLists(tracked, ev.name) && Counted(kindFor, f.gvr, key) && f.uid == e.uid;
  }

  lemma StoppedUnlisted(kindFor: KindFor, tracked: Tracked, ev: Event, starts: set<Entry>, stops: set<Entry>, e: Entry, key: string)
    requires Fits(kindFor, tracked, ev, starts, stops, key) && e in stops && KindKey(kindFor(e.gvr)) == key
    ensures !ListedElsewhere(kindFor, tracked, ev, e)
  {
    assert e.uid in KeyUids(kindFor, stops, key);
  }

  lemma ListedFits(kindFor: KindFor, tracked: Tracked, ev: Event, starts: set<Entry>, stops: set<Entry>, key: string)
    requires forall e :: e in CutOff(tracked, ev, starts, stops) && Counted(kindFor, e.gvr, key) ==> ListedElsewhere(kindFor, tracked, ev, e)
    requires forall e :: e in stops && KindKey(kindFor(e.gvr)) == key ==> !ListedElsewhere(kindFor, tracked, ev, e)
    ensures Fits(kindFor, tracked, ev, starts, stops, key)
  {
    var prior, listed, others := PriorList(tracked, ev.name), NewList(tracked, ev), OtherLists(tracked, ev.name);
    forall uid | uid in KeyUids(kindFor, stops, key) ensures uid !in CountedUids(kindFor, others, key) {
      var e :| e in stops && KindKey(kindFor(e.gvr)) == key && e.uid == uid;
      assert !ListedElsewhere(kindFor, tracked, ev, e);
    }
    forall uid | uid in CountedUids(kindFor, prior, key) - KeyUids(kindFor, stops, key)
      ensures uid in CountedUids(kindFor, others, key) + CountedUids(kindFor, listed, key)
    {
      var e :| e in prior && Counted(kindFor, e.gvr, key) && e.uid == uid;
      assert e !in stops;
      if e !in listed {
        assert e in CutOff(tracked, ev, starts, stops);
        Elsewhere(kindFor, tracked, ev, e, key);
      }
    }
    forall uid | uid in CountedUids(kindFor, listed, key)
      ensures uid in CountedUids(kindFor, others, key) + CountedUids(kindFor, prior, key) + CountedUids(kindFor, starts, key)
    {
      var e :| e in listed && Counted(kindFor, e.gvr, key) && e.uid == uid;
      if e !in prior && e !in starts {
        assert e in CutOff(tracked, ev, starts, stops);
        Elsewhere(kindFor, tracked, ev, e, key);
      }
    }
  }

  lemma Elsewhere(kindFor: KindFor, tracked: Tracked, ev: Event, e: Entry, key: string)
    requires ListedElsewhere(kindFor, tracked, ev, e) && KindKey(kindFor(e.gvr)) == key
    ensures e.uid in CountedUids(kindFor, OtherLists(tracked, ev.name), key)
  {
  }
}
