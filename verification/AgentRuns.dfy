// The agent object and the machine of module Tracking: handling an event with the object is a run
// of the machine, so what holds of every run of the machine holds of the object. And a run that
// shows why the UID hypotheses of the refinement are there.

module AgentRuns {
  import opened Base
  import opened Schema
  import opened SafeMaps
  import opened Diff
  import opened Index
  import opened Objects
  import opened Confluence
  import T = Tracking
  import R = Refinement
  import I = IndexRefinement
  import A = StatusAgent

  // The iterations of one loop with a fixed mapper, the failed lookup that ends it included.
  function LoopLabels(t: nat, kinds: RestMapper, rest: seq<T.Entry>): seq<T.Label>
    decreases |rest|
  {
    if rest == [] then []
    else [T.Iterate(t, Find(kinds, rest[0].gvr))] + if rest[0].gvr in kinds then LoopLabels(t, kinds, rest[1..]) else []
  }

  /** Thread t's loop from iteration i on does to the index what the call's iterations do. */
  lemma {:induction false} LoopRuns(s: T.Sys, t: nat, kinds: RestMapper, call: Call, i: nat)
    requires T.SysInv(s) && t < |s.threads| && Aligned(call.info) && i <= |call.info.gvrs|
    requires s.threads[t].stopping == call.Stop? && s.threads[t].rest == T.Entries(call.info)[i..]
    ensures T.IsRun(s, LoopLabels(t, kinds, s.threads[t].rest)) && Run(s.index, IterationsFrom(kinds, call, i)).Fine?
    ensures T.RunSys(s, LoopLabels(t, kinds, s.threads[t].rest))
         == T.Next(s.(index := Run(s.index, IterationsFrom(kinds, call, i)).state,
                      threads := s.threads[t := s.threads[t].(rest := [])]))
    decreases |call.info.gvrs| - i
  {
    var rest := s.threads[t].rest;
    RunSafe(s.index, IterationsFrom(kinds, call, i));
    if rest == [] {
      assert s.threads[t := s.threads[t].(rest := [])] == s.threads;
    } else {
      var e := rest[0];
      assert e == T.Entry(call.info.gvrs[i], call.info.uids[i]);
      var l := T.Iterate(t, Find(kinds, e.gvr));
      T.SysStepKeepsInv(s, l);
      var u := T.SysStep(s, l).sys;
      if e.gvr in kinds {
        RunIteration(s.index, u.index, kinds, call, i);
        assert rest[1..] == T.Entries(call.info)[i + 1..];
        LoopRuns(u, t, kinds, call, i + 1);
        assert LoopLabels(t, kinds, rest) == [l] + LoopLabels(t, kinds, rest[1..]);
        assert u.threads[t := u.threads[t].(rest := [])] == s.threads[t := s.threads[t].(rest := [])];
      } else {
        assert LoopLabels(t, kinds, rest) == [l];
        assert T.RunSys(s, [l]) == T.RunSys(u, []);
      }
    }
  }

  // the events of a run
  function Events(labels: seq<T.Label>): seq<T.Event>
    decreases |labels|
  {
    if labels == [] then []
    else (if labels[0].Handle? then [labels[0].ev] else []) + Events(labels[1..])
  }

  lemma {:induction false} EventsCompose(a: seq<T.Label>, b: seq<T.Label>)
    ensures Events(a + b) == Events(a) + Events(b)
    decreases |a|
  {
    if a == [] {
      assert a + b == b;
    } else {
      assert (a + b)[0] == a[0] && (a + b)[1..] == a[1..] + b;
      EventsCompose(a[1..], b);
      var first := if a[0].Handle? then [a[0].ev] else [];
      assert first + (Events(a[1..]) + Events(b)) == (first + Events(a[1..])) + Events(b);
    }
  }

  lemma {:induction false} LoopHasNoEvents(t: nat, kinds: RestMapper, rest: seq<T.Entry>)
    ensures Events(LoopLabels(t, kinds, rest)) == []
    decreases |rest|
  {
    if rest != [] {
      var l, more := T.Iterate(t, Find(kinds, rest[0].gvr)), if rest[0].gvr in kinds then LoopLabels(t, kinds, rest[1..]) else [];
      if rest[0].gvr in kinds {
        LoopHasNoEvents(t, kinds, rest[1..]);
      }
      assert LoopLabels(t, kinds, rest) == [l] + more;
      EventsCompose([l], more);
    }
  }

  lemma {:induction false} RunsCompose(s: T.Sys, a: seq<T.Label>, b: seq<T.Label>)
    requires T.IsRun(s, a) && T.RunSys(s, a).Next? && T.IsRun(T.RunSys(s, a).sys, b)
    ensures T.IsRun(s, a + b) && T.RunSys(s, a + b) == T.RunSys(T.RunSys(s, a).sys, b)
    decreases |a|
  {
    if a == [] {
      assert a + b == b;
    } else {
      assert (a + b)[0] == a[0] && (a + b)[1..] == a[1..] + b;
      var t := T.SysStep(s, a[0]);
      if t.Next? {
        RunsCompose(t.sys, a[1..], b);
      }
    }
  }

  /** Handling an event with the agent object is a run of the machine: the event, then the stop loop,
      then for a deletion the removal from the tracked manifests; the machine ends with the object's
      maps, and has one start loop to run for each one the object launched. */
  lemma HandlingIsARun(s: T.Sys, ev: T.Event, diff: Change, mapper: A.Mapper,
                       was: A.Snapshot, now: A.Snapshot, requeue: bool, exit: A.Exit) returns (labels: seq<T.Label>)
    requires T.SysInv(s) && s.index == was.state && s.tracked == was.tracked
    requires A.CarriedOut(T.PlanFor(was.tracked, ev), ev.name, diff, Some(mapper), was, now, requeue, exit)
    ensures T.IsRun(s, labels) && T.RunSys(s, labels).Next? && Follows(s, T.RunSys(s, labels).sys, ev.name, was, now)
    ensures Events(labels) == [ev]
  {
    var l := T.Handle(ev, diff);
    T.SysStepKeepsInv(s, l);
    var u := T.SysStep(s, l).sys;
    assert T.RunSys(s, [l]) == T.RunSys(u, []);
    match T.PlanFor(was.tracked, ev)
    case Update(_, info) => labels := UpdateIsARun(s, ev, diff, mapper, was, now, requeue, exit);
    case Untrack(prior) => labels := UntrackIsARun(s, ev, diff, mapper, was, now, requeue, exit);
    case Track(info) =>
      assert now.launched[..|was.launched|] == was.launched;
      labels := [l];
    case _ =>
      labels := [l];
  }

  lemma UpdateIsARun(s: T.Sys, ev: T.Event, diff: Change, mapper: A.Mapper,
                     was: A.Snapshot, now: A.Snapshot, requeue: bool, exit: A.Exit) returns (labels: seq<T.Label>)
    requires T.SysInv(s) && s.index == was.state && s.tracked == was.tracked && T.PlanFor(was.tracked, ev).Update?
    requires A.CarriedOut(T.PlanFor(was.tracked, ev), ev.name, diff, Some(mapper), was, now, requeue, exit)
    ensures T.IsRun(s, labels) && T.RunSys(s, labels).Next? && Follows(s, T.RunSys(s, labels).sys, ev.name, was, now)
    ensures Events(labels) == [ev]
  {
    var l := T.Handle(ev, diff);
    T.SysStepKeepsInv(s, l);
    var u := T.SysStep(s, l).sys;
    assert T.RunSys(s, [l]) == T.RunSys(u, []);
    var t := |s.threads| + 1;
    var start := T.Thread(ev.name, false, T.Entries(diff.added), false);
    var stop := T.Thread(ev.name, true, T.Entries(diff.removed), false);
    assert u.threads == s.threads + [start, stop];
    assert u.threads[t] == stop && stop.rest == T.Entries(diff.removed)[0..];
    LoopRuns(u, t, mapper.kinds, Stop(diff.removed), 0);
    RunsCompose(s, [l], LoopLabels(t, mapper.kinds, stop.rest));
    labels := [l] + LoopLabels(t, mapper.kinds, stop.rest);
    LoopHasNoEvents(t, mapper.kinds, stop.rest);
    EventsCompose([l], LoopLabels(t, mapper.kinds, stop.rest));
    assert T.RunSys(s, labels).sys.threads == s.threads + [start, stop.(rest := [])];
    assert now.launched[..|was.launched|] == was.launched;
  }

  lemma UntrackIsARun(s: T.Sys, ev: T.Event, diff: Change, mapper: A.Mapper,
                      was: A.Snapshot, now: A.Snapshot, requeue: bool, exit: A.Exit) returns (labels: seq<T.Label>)
    requires T.SysInv(s) && s.index == was.state && s.tracked == was.tracked && T.PlanFor(was.tracked, ev).Untrack?
    requires A.CarriedOut(T.PlanFor(was.tracked, ev), ev.name, diff, Some(mapper), was, now, requeue, exit)
    ensures T.IsRun(s, labels) && T.RunSys(s, labels).Next? && Follows(s, T.RunSys(s, labels).sys, ev.name, was, now)
    ensures Events(labels) == [ev]
  {
    var l := T.Handle(ev, diff);
    T.SysStepKeepsInv(s, l);
    var u, prior := T.SysStep(s, l).sys, s.tracked[ev.name];
    assert T.RunSys(s, [l]) == T.RunSys(u, []);
    var t := |s.threads|;
    var stop := T.Thread(ev.name, true, T.Entries(prior), true);
    assert u.threads == s.threads + [stop];
    assert u.threads[t] == stop && stop.rest == T.Entries(prior)[0..];
    LoopRuns(u, t, mapper.kinds, Stop(prior), 0);
    var loop := LoopLabels(t, mapper.kinds, stop.rest);
    RunsCompose(s, [l], loop);
    var v := T.RunSys(s, [l] + loop).sys;
    assert v.threads == s.threads + [stop.(rest := [])];
    assert v.threads[t] == stop.(rest := []);
    assert T.RunSys(v, [T.Finish(t)]) == T.RunSys(T.FinishStep(v, t), []);
    RunsCompose(s, [l] + loop, [T.Finish(t)]);
    labels := [l] + loop + [T.Finish(t)];
    LoopHasNoEvents(t, mapper.kinds, stop.rest);
    EventsCompose([l], loop);
    EventsCompose([l] + loop, [T.Finish(t)]);
    assert T.RunSys(s, labels).sys.threads == s.threads + [stop.(rest := [], untrack := false)];
  }

  // u has the object's maps, no stop loop of this event going on, and its start loop still to run.
  ghost predicate Follows(s: T.Sys, u: T.Sys, name: string, was: A.Snapshot, now: A.Snapshot) {
    && u.index == now.state && u.tracked == now.tracked
    && s.threads <= u.threads
    && (forall t :: |s.threads| <= t < |u.threads| && u.threads[t].stopping ==> !u.threads[t].Active())
    && if now.launched == was.launched then
         forall t :: |s.threads| <= t < |u.threads| ==> !u.threads[t].Active()
       else
         && |now.launched| == |was.launched| + 1 && now.launched[..|was.launched|] == was.launched
         && |s.threads| < |u.threads| && Aligned(now.launched[|was.launched|])
         && u.threads[|s.threads|] == T.Thread(name, false, T.Entries(now.launched[|was.launched|]), false)
         && forall t :: |s.threads| < t < |u.threads| ==> !u.threads[t].Active()
  }

  /** ... and a launched call, when its turn comes, is the loop of that thread. */
  lemma LaunchedIsARun(s: T.Sys, t: nat, kinds: RestMapper, info: AppliedManifestInfo, was: State, now: State)
    requires T.SysInv(s) && s.index == was && t < |s.threads| && Aligned(info)
    requires !s.threads[t].stopping && s.threads[t].rest == T.Entries(info)
    requires Run(was, Iterations(kinds, Start(info))) == Fine(now)
    ensures var labels := LoopLabels(t, kinds, T.Entries(info));
            && T.IsRun(s, labels)
            && T.RunSys(s, labels) == T.Next(s.(index := now, threads := s.threads[t := s.threads[t].(rest := [])]))
  {
    assert s.threads[t].rest == T.Entries(info)[0..];
    LoopRuns(s, t, kinds, Start(info), 0);
  }

  // ----- any number of calls on the agent object -----

  /** s is where the machine is when the object is as in the snapshot: the same maps, and for every launched
      call, at the thread given for it, its loop still to run; no other thread has anything left to do. */
  ghost predicate Matches(s: T.Sys, now: A.Snapshot, at: seq<nat>) {
    && s.index == now.state && s.tracked == now.tracked
    && |at| == |now.launched|
    && (forall i :: 0 <= i < |at| ==> Waiting(s, at[i], now.launched[i]))
    && Distinct(at)
    && forall t :: 0 <= t < |s.threads| && s.threads[t].Active() ==> t in at
  }

  ghost predicate Waiting(s: T.Sys, t: nat, info: AppliedManifestInfo) {
    && t < |s.threads| && Aligned(info)
    && !s.threads[t].stopping && !s.threads[t].untrack && s.threads[t].rest == T.Entries(info)
  }

  // A call of the object's: an event handled, a launched call run, or anything that leaves the maps alone.
  datatype Deed =
    | Handled(ev: T.Event, diff: Change, mapper: A.Mapper, requeue: bool, exit: A.Exit)
    | RanLaunched(i: nat, mapper: A.Mapper)
    | Elsewhere

  // What HandleAppliedManifestWork, RunLaunched and the other methods say of the object afterwards.
  ghost predicate Does(was: A.Snapshot, deed: Deed, now: A.Snapshot) {
    match deed
    case Handled(ev, diff, mapper, requeue, exit) =>
      A.CarriedOut(T.PlanFor(was.tracked, ev), ev.name, diff, Some(mapper), was, now, requeue, exit)
    case RanLaunched(i, mapper) =>
      && i < |was.launched| && Aligned(was.launched[i])
      && Run(was.state, Iterations(mapper.kinds, Start(was.launched[i]))) == Fine(now.state)
      && now.tracked == was.tracked && now.launched == was.launched[..i] + was.launched[i + 1..]
    case Elsewhere => now == was
  }

  lemma HandledMatches(s: T.Sys, at: seq<nat>, was: A.Snapshot, deed: Deed, now: A.Snapshot)
    returns (labels: seq<T.Label>, u: T.Sys, at': seq<nat>)
    requires T.SysInv(s) && Matches(s, was, at) && Does(was, deed, now) && deed.Handled?
    ensures T.IsRun(s, labels) && T.RunSys(s, labels) == T.Next(u) && T.SysInv(u) && Matches(u, now, at')
    ensures Events(labels) == [deed.ev]
  {
    labels := HandlingIsARun(s, deed.ev, deed.diff, deed.mapper, was, now, deed.requeue, deed.exit);
    T.EveryRunSafe(s, labels);
    u := T.RunSys(s, labels).sys;
    at' := if now.launched == was.launched then at else at + [|s.threads|];
    forall t | 0 <= t < |s.threads| ensures u.threads[t] == s.threads[t] {}
    forall i | 0 <= i < |at| ensures at[i] < |s.threads| && Waiting(s, at[i], was.launched[i]) {}
    if now.launched != was.launched {
      assert now.launched == was.launched + [now.launched[|was.launched|]];
    }
    forall t | 0 <= t < |u.threads| && u.threads[t].Active() ensures t in at' {
      if t < |s.threads| {
        assert t in at;
      } else {
        assert at'[|at|] == |s.threads|;
      }
    }
  }

  lemma LaunchedMatches(s: T.Sys, at: seq<nat>, was: A.Snapshot, deed: Deed, now: A.Snapshot)
    returns (labels: seq<T.Label>, u: T.Sys, at': seq<nat>)
    requires T.SysInv(s) && Matches(s, was, at) && Does(was, deed, now) && deed.RanLaunched?
    ensures T.IsRun(s, labels) && T.RunSys(s, labels) == T.Next(u) && T.SysInv(u) && Matches(u, now, at')
    ensures Events(labels) == []
  {
    var i, t := deed.i, at[deed.i];
    assert Waiting(s, t, was.launched[i]);
    labels := LoopLabels(t, deed.mapper.kinds, T.Entries(was.launched[i]));
    LaunchedIsARun(s, t, deed.mapper.kinds, was.launched[i], was.state, now.state);
    LoopHasNoEvents(t, deed.mapper.kinds, T.Entries(was.launched[i]));
    T.EveryRunSafe(s, labels);
    u := T.RunSys(s, labels).sys;
    at' := Without(at, i);
    OthersWait(s, u, at, was, now, i);
  }

  function Without(at: seq<nat>, i: nat): seq<nat>
    requires i < |at|
  {
    at[..i] + at[i + 1..]
  }

  lemma WithoutOne(at: seq<nat>, i: nat)
    requires i < |at| && Distinct(at)
    ensures Distinct(Without(at, i))
    ensures forall r :: r in at && r != at[i] ==> r in Without(at, i)
  {
    forall r | r in at && r != at[i] ensures r in Without(at, i) {
      var k :| 0 <= k < |at| && at[k] == r;
      assert Without(at, i)[if k < i then k else k - 1] == r;
    }
  }

  // The loop of one thread has come to its end.
  lemma OthersWait(s: T.Sys, u: T.Sys, at: seq<nat>, was: A.Snapshot, now: A.Snapshot, i: nat)
    requires Matches(s, was, at) && i < |at|
    requires u == s.(index := now.state, threads := s.threads[at[i] := s.threads[at[i]].(rest := [])])
    requires now.tracked == was.tracked && now.launched == was.launched[..i] + was.launched[i + 1..]
    ensures Matches(u, now, Without(at, i))
  {
    WithoutOne(at, i);
    assert Waiting(s, at[i], was.launched[i]);
    forall j | 0 <= j < |at| - 1 ensures Waiting(u, Without(at, i)[j], now.launched[j]) {
      var k := if j < i then j else j + 1;
      assert Waiting(s, at[k], was.launched[k]);
      assert at[k] != at[i];
    }
    forall r | 0 <= r < |u.threads| && u.threads[r].Active() ensures r in Without(at, i) {
      assert s.threads[r].Active();
    }
  }

  // the events among some deeds
  function EventsOf(deeds: seq<Deed>): seq<T.Event>
    decreases |deeds|
  {
    if deeds == [] then []
    else (if deeds[0].Handled? then [deeds[0].ev] else []) + EventsOf(deeds[1..])
  }

  ghost predicate Deeds(shots: seq<A.Snapshot>, deeds: seq<Deed>) {
    |shots| == |deeds| + 1 && forall i :: 0 <= i < |deeds| ==> Does(shots[i], deeds[i], shots[i + 1])
  }

  lemma {:induction false} DeedsFrom(s: T.Sys, at: seq<nat>, shots: seq<A.Snapshot>, deeds: seq<Deed>)
    returns (labels: seq<T.Label>, u: T.Sys, at': seq<nat>)
    requires T.SysInv(s) && Deeds(shots, deeds) && Matches(s, shots[0], at)
    ensures T.IsRun(s, labels) && T.RunSys(s, labels) == T.Next(u) && T.SysInv(u) && Matches(u, shots[|deeds|], at')
    ensures Events(labels) == EventsOf(deeds)
    decreases |deeds|
  {
    if deeds == [] {
      labels, u, at' := [], s, at;
    } else {
      var first, t, mid := [], s, at;
      assert Does(shots[0], deeds[0], shots[1]);
      if deeds[0].Handled? {
        first, t, mid := HandledMatches(s, at, shots[0], deeds[0], shots[1]);
      } else if deeds[0].RanLaunched? {
        first, t, mid := LaunchedMatches(s, at, shots[0], deeds[0], shots[1]);
      }
      var rest;
      rest, u, at' := DeedsFrom(t, mid, shots[1..], deeds[1..]);
      RunsCompose(s, first, rest);
      EventsCompose(first, rest);
      labels := first + rest;
    }
  }

  /** Any sequence of calls on a new agent object, launched calls run in any order, is a run of the machine
      on the same events, and what the object has launched and not run is what the machine has left to do. */
  lemma AgentIsARun(shots: seq<A.Snapshot>, deeds: seq<Deed>) returns (labels: seq<T.Label>, u: T.Sys, at: seq<nat>)
    requires Deeds(shots, deeds) && shots[0] == A.Snapshot(BOOTED, map[], [])
    ensures T.IsRun(T.START, labels) && T.RunSys(T.START, labels) == T.Next(u) && Events(labels) == EventsOf(deeds)
    ensures T.SysInv(u) && Matches(u, shots[|deeds|], at)
    ensures shots[|deeds|].launched == [] ==> I.Drained(u)
  {
    T.StartInv();
    labels, u, at := DeedsFrom(T.START, [], shots, deeds);
  }

  // ----- why UIDs must be distinct across manifests -----

  const NO_DIFF := Change(EMPTY_INFO, EMPTY_INFO)

  // The run leads from s to u, every lookup finding the kind.
  ghost predicate Leads(s: T.Sys, labels: seq<T.Label>, u: T.Sys, kind: GVK) {
    && T.IsRun(s, labels) && T.RunSys(s, labels) == T.Next(u)
    && forall i :: 0 <= i < |labels| && labels[i].Iterate? ==> labels[i].kind == Some(kind)
  }

  lemma LeadsCompose(s: T.Sys, a: seq<T.Label>, t: T.Sys, b: seq<T.Label>, u: T.Sys, kind: GVK)
    requires Leads(s, a, t, kind) && Leads(t, b, u, kind)
    ensures Leads(s, a + b, u, kind) && Events(a + b) == Events(a) + Events(b)
  {
    RunsCompose(s, a, b);
    EventsCompose(a, b);
  }

  lemma OneStep(s: T.Sys, l: T.Label)
    requires T.SysInv(s) && T.Enabled(s, l)
    ensures T.IsRun(s, [l]) && T.SysStep(s, l).Next? && T.RunSys(s, [l]) == T.SysStep(s, l) && T.SysInv(T.SysStep(s, l).sys)
  {
    T.SysStepKeepsInv(s, l);
    assert T.RunSys(s, [l]) == T.RunSys(T.SysStep(s, l).sys, []);
  }

  // The only entry of a thread, with a kind that is counted.
  lemma LastIteration(s: T.Sys, t: nat, kind: GVK, e: T.Entry)
    requires T.SysInv(s) && t < |s.threads| && s.threads[t].rest == [e]
    requires !Excluded(kind) && KindKey(kind) != AW_KEY
    ensures var key, r := KindKey(kind), T.SysStep(s, T.Iterate(t, Some(kind)));
            && r.Next?
            && r.sys.tracked == s.tracked && r.sys.threads == s.threads[t := s.threads[t].(rest := [])]
            && Uids(r.sys.index.counts, key)
               == if s.threads[t].stopping then Uids(s.index.counts, key) - {e.uid} else Uids(s.index.counts, key) + {e.uid}
  {
    var key := KindKey(kind);
    var op := if s.threads[t].stopping then Remove(key, e.uid) else Add(key, e.gvr, e.uid);
    assert [e][1..] == [];
    StepUids(s.index, op, key);
    SingleOp(op, key);
  }

  // A manifest with one resource appears, and its start loop runs.
  lemma AppearRuns(s: T.Sys, name: string, r: AppliedResource, kind: GVK) returns (labels: seq<T.Label>, u: T.Sys)
    requires T.SysInv(s) && name !in s.tracked && !Excluded(kind) && KindKey(kind) != AW_KEY
    ensures Leads(s, labels, u, kind) && Events(labels) == [T.Applied(name, [r])]
    ensures T.SysInv(u) && u.tracked == s.tracked[name := InfoOf([r])] && (I.Drained(s) ==> I.Drained(u))
    ensures Uids(u.index.counts, KindKey(kind)) == Uids(s.index.counts, KindKey(kind)) + {r.uid}
  {
    var l, e, t := T.Handle(T.Applied(name, [r]), NO_DIFF), T.EntryOf(r), |s.threads|;
    assert T.Entries(InfoOf([r])) == [e];
    OneStep(s, l);
    var m := T.SysStep(s, l).sys;
    assert m.threads == s.threads + [T.Thread(name, false, [e], false)];
    assert m.threads[t] == T.Thread(name, false, [e], false) && m.threads[..t] == s.threads;
    LastIteration(m, t, kind, e);
    OneStep(m, T.Iterate(t, Some(kind)));
    u := T.SysStep(m, T.Iterate(t, Some(kind))).sys;
    LeadsCompose(s, [l], m, [T.Iterate(t, Some(kind))], u, kind);
    labels := [l] + [T.Iterate(t, Some(kind))];
    StillDrained(s, u);
  }

  // A manifest with one resource goes, and its stop loop runs.
  lemma VanishRuns(s: T.Sys, name: string, r: AppliedResource, kind: GVK) returns (labels: seq<T.Label>, u: T.Sys)
    requires T.SysInv(s) && name in s.tracked && s.tracked[name] == InfoOf([r]) && !Excluded(kind) && KindKey(kind) != AW_KEY
    ensures Leads(s, labels, u, kind) && Events(labels) == [T.Deleted(name)]
    ensures T.SysInv(u) && u.tracked == s.tracked - {name} && (I.Drained(s) ==> I.Drained(u))
    ensures Uids(u.index.counts, KindKey(kind)) == Uids(s.index.counts, KindKey(kind)) - {r.uid}
  {
    var l, e, t := T.Handle(T.Deleted(name), NO_DIFF), T.EntryOf(r), |s.threads|;
    assert T.Entries(InfoOf([r])) == [e];
    OneStep(s, l);
    var m := T.SysStep(s, l).sys;
    assert m.threads == s.threads + [T.Thread(name, true, [e], true)];
    assert m.threads[t] == T.Thread(name, true, [e], true) && m.threads[..t] == s.threads;
    LastIteration(m, t, kind, e);
    OneStep(m, T.Iterate(t, Some(kind)));
    var n := T.SysStep(m, T.Iterate(t, Some(kind))).sys;
    assert n.threads[t] == T.Thread(name, true, [], true);
    OneStep(n, T.Finish(t));
    u := T.SysStep(n, T.Finish(t)).sys;
    LeadsCompose(s, [l], m, [T.Iterate(t, Some(kind))], n, kind);
    LeadsCompose(s, [l] + [T.Iterate(t, Some(kind))], n, [T.Finish(t)], u, kind);
    labels := [l] + [T.Iterate(t, Some(kind))] + [T.Finish(t)];
    StillDrained(s, u);
  }

  lemma StillDrained(s: T.Sys, u: T.Sys)
    requires |u.threads| == |s.threads| + 1 && u.threads[..|s.threads|] == s.threads && !u.threads[|s.threads|].Active()
    ensures I.Drained(s) ==> I.Drained(u)
  {
    forall i | 0 <= i < |s.threads| ensures u.threads[i] == s.threads[i] {
      assert u.threads[..|s.threads|][i] == u.threads[i];
    }
  }

  /** Two manifests list the same UID and one of them goes: the loops drain, the other manifest is
      still tracked, and yet the UID is not counted and its kind has no informer. */
  lemma SharedUidBreaksRefinement(n: string, m: string, r: AppliedResource, kind: GVK)
    returns (labels: seq<T.Label>, s: T.Sys)
    requires n != m && !Excluded(kind) && KindKey(kind) != AW_KEY
    ensures Leads(T.START, labels, s, kind) && Events(labels) == [T.Applied(n, [r]), T.Applied(m, [r]), T.Deleted(n)]
    ensures I.Drained(s) && s.tracked == map[m := InfoOf([r])]
    ensures r.uid in R.Recomputed(_ => kind, s.tracked, KindKey(kind))
    ensures Uids(s.index.counts, KindKey(kind)) == {} && KindKey(kind) !in s.index.informers
  {
    T.StartInv();
    labels, s := SharedUidFrom(T.START, n, m, r, kind);
    StillListed(s, m, r, kind);
  }

  lemma SharedUidFrom(start: T.Sys, n: string, m: string, r: AppliedResource, kind: GVK)
    returns (labels: seq<T.Label>, s: T.Sys)
    requires T.SysInv(start) && start.tracked == map[] && I.Drained(start) && Uids(start.index.counts, KindKey(kind)) == {}
    requires n != m && !Excluded(kind) && KindKey(kind) != AW_KEY
    ensures Leads(start, labels, s, kind) && Events(labels) == [T.Applied(n, [r]), T.Applied(m, [r]), T.Deleted(n)]
    ensures Consistent(s.index) && I.Drained(s) && s.tracked == map[m := InfoOf([r])]
    ensures Uids(s.index.counts, KindKey(kind)) == {}
  {
    var lab, b := BothAppear(start, n, m, r, kind);
    var lc;
    lc, s := VanishRuns(b, n, r, kind);
    LeadsCompose(start, lab, b, lc, s, kind);
    labels := lab + lc;
    SecondStays(n, m, InfoOf([r]));
  }

  lemma BothAppear(start: T.Sys, n: string, m: string, r: AppliedResource, kind: GVK)
    returns (labels: seq<T.Label>, b: T.Sys)
    requires T.SysInv(start) && start.tracked == map[] && I.Drained(start) && Uids(start.index.counts, KindKey(kind)) == {}
    requires n != m && !Excluded(kind) && KindKey(kind) != AW_KEY
    ensures Leads(start, labels, b, kind) && Events(labels) == [T.Applied(n, [r]), T.Applied(m, [r])]
    ensures T.SysInv(b) && I.Drained(b) && b.tracked == map[][n := InfoOf([r])][m := InfoOf([r])]
    ensures Uids(b.index.counts, KindKey(kind)) == {r.uid}
  {
    var la, a := AppearRuns(start, n, r, kind);
    var lb;
    lb, b := AppearRuns(a, m, r, kind);
    LeadsCompose(start, la, a, lb, b, kind);
    labels := la + lb;
  }

  lemma StillListed(s: T.Sys, m: string, r: AppliedResource, kind: GVK)
    requires m in s.tracked && s.tracked[m] == InfoOf([r])
    ensures r.uid in R.Recomputed(_ => kind, s.tracked, KindKey(kind)) || Excluded(kind)
  {
    assert T.Entries(InfoOf([r])) == [T.EntryOf(r)];
    assert T.EntryOf(r) in R.EntriesOf(s.tracked[m]);
    assert T.EntryOf(r).uid == r.uid;
  }

  lemma SecondStays<V>(n: string, m: string, x: V)
    requires n != m
    ensures map[][n := x][m := x] - {n} == map[m := x]
  {
  }
}
