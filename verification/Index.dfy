// The informer lifecycle of pkg/agent/informers.go as a step machine. One step is one loop
// iteration of startInformers or stopInformers that got past the KindFor lookup and, for starts,
// past the check for excluded kinds. A run is any sequence of such iterations, so it covers every
// interleaving of any number of calls, whatever the mapper answered and wherever a failed lookup
// ended a loop.

module Index {
  import opened Base
  import opened Schema
  import opened SafeMaps

  // An informer runs until its stop channel is closed, and a lister reads that informer's cache;
  // the channel, fresh from make(chan), therefore identifies both.
  datatype Informer = Informer(gvr: GVR, channel: nat)
  datatype Lister = Lister(gvr: GVR, channel: nat)

  datatype State = State(
    counts: UidIndex,
    informers: map<string, Informer>,
    listers: map<string, Lister>,
    stoppers: map<string, nat>,
    running: set<nat>,
    closed: set<nat>,
    next: nat)

  datatype Op =
    | Add(key: string, gvr: GVR, uid: string)
    | Remove(key: string, uid: string)

  // Panic is close of a closed channel, or the type assertion on a stopper that is not there.
  datatype Outcome = Fine(state: State) | Panic

  const EMPTY := State(map[], map[], map[], map[], {}, {}, 0)

  // The agent once the AppliedManifestWork informer, whose kind is never counted, has started.
  const BOOTED := StartInformer(EMPTY, AW_KEY, APPLIED_MANIFEST_WORK_GVR, 0).(next := 1)

  function StartInformer(s: State, key: string, gvr: GVR, channel: nat): State {
    s.(informers := s.informers[key := Informer(gvr, channel)],
       listers := s.listers[key := Lister(gvr, channel)],
       stoppers := s.stoppers[key := channel],
       running := s.running + {channel})
  }

  function StopInformer(s: State, key: string): Outcome {
    if key !in s.stoppers || s.stoppers[key] in s.closed then Panic
    else Fine(s.(informers := s.informers - {key},
                 listers := s.listers - {key},
                 stoppers := s.stoppers - {key},
                 running := s.running - {s.stoppers[key]},
                 closed := s.closed + {s.stoppers[key]}))
  }

  predicate Starts(s: State, key: string, uid: string) {
    |Uids(s.counts, key) + {uid}| == 1
  }

  function AddStep(s: State, key: string, gvr: GVR, uid: string, channel: nat): State {
    var counted := s.(counts := Added(s.counts, key, uid));
    if Starts(s, key, uid) then StartInformer(counted, key, gvr, channel) else counted
  }

  function RemoveStep(s: State, key: string, uid: string): Outcome {
    if key !in s.informers then Fine(s)
    else
      var counted := s.(counts := Removed(s.counts, key, uid));
      if |Uids(counted.counts, key)| == 0 then StopInformer(counted, key) else Fine(counted)
  }

  // A step whose make(chan), if it gets there, yields the given channel.
  function StepWith(s: State, op: Op, channel: nat): Outcome {
    match op
    case Add(key, gvr, uid) => Fine(AddStep(s, key, gvr, uid, channel))
    case Remove(key, uid) => RemoveStep(s, key, uid)
  }

  function Step(s: State, op: Op): Outcome {
    match op
    case Add(key, gvr, uid) =>
      Fine(AddStep(s, key, gvr, uid, s.next).(next := if Starts(s, key, uid) then s.next + 1 else s.next))
    case Remove(key, uid) => RemoveStep(s, key, uid)
  }

  function Run(s: State, ops: seq<Op>): Outcome
    decreases |ops|
  {
    if ops == [] then Fine(s)
    else
      match Step(s, ops[0])
      case Panic => Panic
      case Fine(t) => Run(t, ops[1..])
  }

  // ----- a step touches one key -----

  datatype View = View(uids: set<string>, informer: Option<Informer>, lister: Option<Lister>, stopper: Option<nat>)

  function ViewAt(s: State, key: string): View {
    View(Uids(s.counts, key), Find(s.informers, key), Find(s.listers, key), Find(s.stoppers, key))
  }

  lemma StepFrame(s: State, op: Op, channel: nat, key: string)
    requires StepWith(s, op, channel).Fine? && key != op.key
    ensures ViewAt(StepWith(s, op, channel).state, key) == ViewAt(s, key)
  {
  }

  // ----- what every run keeps -----

  predicate SameKeys(s: State) {
    s.informers.Keys == s.listers.Keys == s.stoppers.Keys
  }

  // An informer is registered exactly for the kinds with a nonempty UID set; the
  // AppliedManifestWork informer, started without a UID, is the exception.
  ghost predicate Agreement(s: State) {
    forall k :: k != AW_KEY ==> (k in s.informers <==> Uids(s.counts, k) != {})
  }

  // Stored channels are open, pairwise distinct, and those of the registered informers and listers.
  ghost predicate ChannelsSafe(s: State)
    requires SameKeys(s)
  {
    && s.running !! s.closed
    && (forall k :: k in s.stoppers ==>
          s.stoppers[k] in s.running && s.informers[k].channel == s.stoppers[k] == s.listers[k].channel)
    && (forall k :: k in s.stoppers ==> s.informers[k].gvr == s.listers[k].gvr)
    && (forall k, l :: k in s.stoppers && l in s.stoppers && k != l ==> s.stoppers[k] != s.stoppers[l])
  }

  ghost predicate Consistent(s: State) {
    SameKeys(s) && Agreement(s) && ChannelsSafe(s)
  }

  predicate Unused(s: State, channel: nat) {
    channel !in s.running && channel !in s.closed
  }

  // The counter is ahead of every channel made so far.
  ghost predicate Bounded(s: State) {
    forall c :: c in s.running || c in s.closed ==> c < s.next
  }

  lemma BootedConsistent()
    ensures Consistent(BOOTED) && Bounded(BOOTED)
  {
  }

  /** The one informer the agent starts with, by name. */
  lemma BootedByName()
    ensures var key := "work.open-cluster-management.io/v1/AppliedManifestWork";
            && AW_KEY == key
            && BOOTED.informers == map[key := Informer(GVR("work.open-cluster-management.io", "v1", "appliedmanifestworks"), 0)]
            && BOOTED.listers == map[key := Lister(GVR("work.open-cluster-management.io", "v1", "appliedmanifestworks"), 0)]
            && BOOTED.stoppers == map[key := 0] && BOOTED.counts == map[]
            && BOOTED.running == {0} && BOOTED.closed == {} && BOOTED.next == 1
  {
  }

  lemma StartKeepsChannels(s: State, key: string, gvr: GVR, channel: nat)
    requires SameKeys(s) && ChannelsSafe(s) && Unused(s, channel)
    ensures SameKeys(StartInformer(s, key, gvr, channel)) && ChannelsSafe(StartInformer(s, key, gvr, channel))
  {
  }

  lemma StopKeepsChannels(s: State, key: string)
    requires SameKeys(s) && ChannelsSafe(s) && key in s.informers
    ensures StopInformer(s, key).Fine?
    ensures SameKeys(StopInformer(s, key).state) && ChannelsSafe(StopInformer(s, key).state)
  {
    assert key in s.stoppers && s.stoppers[key] in s.running;
  }

  lemma AddSafe(s: State, key: string, gvr: GVR, uid: string, channel: nat)
    requires Consistent(s) && Unused(s, channel)
    ensures Consistent(AddStep(s, key, gvr, uid, channel))
  {
    var counted := s.(counts := Added(s.counts, key, uid));
    assert uid in Uids(counted.counts, key);
    assert Uids(s.counts, key) == {} ==> Uids(s.counts, key) + {uid} == {uid};
    if Starts(s, key, uid) {
      StartKeepsChannels(counted, key, gvr, channel);
    }
  }

  lemma RemoveSafe(s: State, key: string, uid: string)
    requires Consistent(s)
    ensures RemoveStep(s, key, uid).Fine? && Consistent(RemoveStep(s, key, uid).state)
  {
    var counted := s.(counts := Removed(s.counts, key, uid));
    if key in s.informers && Uids(counted.counts, key) == {} {
      StopKeepsChannels(counted, key);
      assert forall k :: k in s.informers && k != key <==> k in StopInformer(counted, key).state.informers;
    }
  }

  /** No step panics from a consistent state, and every step keeps it consistent: no hypothesis
      on UIDs, on KindFor or on which kinds are touched. */
  lemma StepWithSafe(s: State, op: Op, channel: nat)
    requires Consistent(s) && Unused(s, channel)
    ensures StepWith(s, op, channel).Fine? && Consistent(StepWith(s, op, channel).state)
  {
    match op
    case Add(key, gvr, uid) => AddSafe(s, key, gvr, uid, channel);
    case Remove(key, uid) => RemoveSafe(s, key, uid);
  }

  lemma StepSafe(s: State, op: Op)
    requires Consistent(s) && Bounded(s)
    ensures Step(s, op).Fine? && Consistent(Step(s, op).state) && Bounded(Step(s, op).state)
  {
    StepWithSafe(s, op, s.next);
  }

  /** In every run, at every point: maps with equal keys, count and informer in agreement, every
      stored channel open and distinct, and no panic. */
  lemma {:induction false} RunSafe(s: State, ops: seq<Op>)
    requires Consistent(s) && Bounded(s)
    ensures Run(s, ops).Fine? && Consistent(Run(s, ops).state) && Bounded(Run(s, ops).state)
    decreases |ops|
  {
    if ops != [] {
      StepSafe(s, ops[0]);
      RunSafe(Step(s, ops[0]).state, ops[1..]);
    }
  }

  // ----- the AppliedManifestWork informer -----

  // run() closes the first informer's channel when the agent shuts down.
  function Shutdown(s: State, channel: nat): Outcome {
    if channel in s.closed then Panic else Fine(s.(running := s.running - {channel}, closed := s.closed + {channel}))
  }

  ghost predicate AvoidsAw(ops: seq<Op>) {
    forall i :: 0 <= i < |ops| ==> ops[i].key != AW_KEY
  }

  /** Exactly one kind of step takes the AppliedManifestWork informer down: a removal that
      resolves to its kind and leaves that kind's UID set empty. */
  lemma StepStopsAwIff(s: State, op: Op)
    requires Consistent(s) && Bounded(s) && AW_KEY in s.stoppers
    ensures Step(s, op).Fine?
    ensures s.stoppers[AW_KEY] in Step(s, op).state.closed
       <==> op.Remove? && op.key == AW_KEY && Uids(s.counts, AW_KEY) <= {op.uid}
  {
    StepSafe(s, op);
    if op.Remove? && op.key == AW_KEY {
      assert Uids(s.counts, AW_KEY) <= {op.uid} <==> Uids(s.counts, AW_KEY) - {op.uid} == {};
    }
  }

  /** Runs that never resolve to its kind leave that informer registered and running, so the
      close at shutdown is the first one of its channel. */
  lemma AwInformerSurvives(s: State, ops: seq<Op>)
    requires Consistent(s) && Bounded(s) && AW_KEY in s.stoppers && AvoidsAw(ops)
    ensures Run(s, ops).Fine? && ViewAt(Run(s, ops).state, AW_KEY) == ViewAt(s, AW_KEY)
    ensures s.stoppers[AW_KEY] in Run(s, ops).state.running
    ensures Shutdown(Run(s, ops).state, s.stoppers[AW_KEY]).Fine?
    decreases |ops|
  {
    RunKeepsAwView(s, ops);
    RunSafe(s, ops);
    var t := Run(s, ops).state;
    assert Find(t.stoppers, AW_KEY) == ViewAt(t, AW_KEY).stopper == ViewAt(s, AW_KEY).stopper;
  }

  lemma {:induction false} RunKeepsAwView(s: State, ops: seq<Op>)
    requires Consistent(s) && Bounded(s) && AvoidsAw(ops)
    ensures Run(s, ops).Fine? && ViewAt(Run(s, ops).state, AW_KEY) == ViewAt(s, AW_KEY)
    decreases |ops|
  {
    if ops != [] {
      assert ops[0].key != AW_KEY;
      StepSafe(s, ops[0]);
      StepFrame(s, ops[0], s.next, AW_KEY);
      RunKeepsAwView(Step(s, ops[0]).state, ops[1..]);
    }
  }

  function FirstOn(ops: seq<Op>, key: string): Option<Op>
    decreases |ops|
  {
    if ops == [] then None else if ops[0].key == key then Some(ops[0]) else FirstOn(ops[1..], key)
  }

  /** The close at shutdown is a second one exactly after runs whose first iteration on the
      AppliedManifestWork kind is a removal. An addition in front of it puts a fresh channel in the
      place of the first informer's, and it is that one the removals close. */
  lemma {:induction false} ShutdownPanicsIff(s: State, ops: seq<Op>)
    requires Consistent(s) && Bounded(s) && AW_KEY in s.stoppers && Uids(s.counts, AW_KEY) == {}
    ensures Run(s, ops).Fine?
    ensures Shutdown(Run(s, ops).state, s.stoppers[AW_KEY]).Panic?
       <==> FirstOn(ops, AW_KEY).Some? && FirstOn(ops, AW_KEY).value.Remove?
    decreases |ops|
  {
    var channel := s.stoppers[AW_KEY];
    RunSafe(s, ops);
    if ops != [] {
      var t := Step(s, ops[0]).state;
      StepSafe(s, ops[0]);
      if ops[0].key != AW_KEY {
        StepFrame(s, ops[0], s.next, AW_KEY);
        assert ViewAt(t, AW_KEY) == ViewAt(s, AW_KEY);
        ShutdownPanicsIff(t, ops[1..]);
      } else if ops[0].Remove? {
        assert channel in t.closed by {
          StepStopsAwIff(s, ops[0]);
        }
        RunKeepsClosed(t, ops[1..], channel);
      } else {
        RestartOrphans(s, ops[0]);
        OrphanStaysOpen(t, ops[1..], channel);
      }
    }
  }

  lemma {:induction false} RunKeepsClosed(s: State, ops: seq<Op>, channel: nat)
    requires Run(s, ops).Fine? && channel in s.closed
    ensures channel in Run(s, ops).state.closed
    decreases |ops|
  {
    if ops != [] {
      RunKeepsClosed(Step(s, ops[0]).state, ops[1..], channel);
    }
  }

  // An informer whose channel is not stored for any kind runs on; no iteration will close it.
  ghost predicate Orphan(s: State, channel: nat) {
    channel in s.running && forall k :: k in s.stoppers ==> s.stoppers[k] != channel
  }

  lemma RestartOrphans(s: State, op: Op)
    requires Consistent(s) && Bounded(s) && op.Add? && op.key in s.stoppers && Uids(s.counts, op.key) == {}
    ensures Orphan(Step(s, op).state, s.stoppers[op.key])
  {
    assert Uids(s.counts, op.key) + {op.uid} == {op.uid};
    assert s.stoppers[op.key] in s.running;
  }

  lemma OrphanStep(s: State, op: Op, channel: nat)
    requires Consistent(s) && Bounded(s) && Orphan(s, channel)
    ensures Step(s, op).Fine? && Orphan(Step(s, op).state, channel)
  {
    StepSafe(s, op);
  }

  lemma {:induction false} OrphanStaysOpen(s: State, ops: seq<Op>, channel: nat)
    requires Consistent(s) && Bounded(s) && Orphan(s, channel)
    ensures Run(s, ops).Fine? && Orphan(Run(s, ops).state, channel) && channel !in Run(s, ops).state.closed
    decreases |ops|
  {
    if ops != [] {
      StepSafe(s, ops[0]);
      OrphanStep(s, ops[0], channel);
      OrphanStaysOpen(Step(s, ops[0]).state, ops[1..], channel);
    }
  }

  /** What the addition breaks instead: from the first iteration on the kind on, its informer and its
      lister are there only as long as its UID set is nonempty. */
  lemma {:induction false} AwListedIff(s: State, ops: seq<Op>)
    requires Consistent(s) && Bounded(s) && AW_KEY in s.stoppers && Uids(s.counts, AW_KEY) == {}
    ensures Run(s, ops).Fine?
    ensures AW_KEY in Run(s, ops).state.listers
       <==> FirstOn(ops, AW_KEY).None? || Uids(Run(s, ops).state.counts, AW_KEY) != {}
    decreases |ops|
  {
    RunSafe(s, ops);
    if ops != [] {
      var t := Step(s, ops[0]).state;
      StepSafe(s, ops[0]);
      if ops[0].key != AW_KEY {
        StepFrame(s, ops[0], s.next, AW_KEY);
        assert ViewAt(t, AW_KEY) == ViewAt(s, AW_KEY);
        AwListedIff(t, ops[1..]);
      } else {
        StepKeepsAgreementAt(s, ops[0], AW_KEY);
        RunKeepsAgreementAt(t, ops[1..], AW_KEY);
      }
    }
  }

  ghost predicate AgreementAt(s: State, key: string) {
    key in s.informers <==> Uids(s.counts, key) != {}
  }

  // Whatever it was before, after an iteration on the kind, count and informer agree.
  lemma StepKeepsAgreementAt(s: State, op: Op, key: string)
    requires Consistent(s) && Bounded(s) && (AgreementAt(s, key) || (op.key == key && key in s.informers))
    ensures Step(s, op).Fine? && AgreementAt(Step(s, op).state, key)
  {
    StepSafe(s, op);
    if op.key != key {
      StepFrame(s, op, s.next, key);
      assert ViewAt(Step(s, op).state, key) == ViewAt(s, key);
    } else if op.Add? {
      assert Uids(s.counts, key) == {} ==> Uids(s.counts, key) + {op.uid} == {op.uid};
      assert op.uid in Uids(Step(s, op).state.counts, key);
    }
  }

  lemma {:induction false} RunKeepsAgreementAt(s: State, ops: seq<Op>, key: string)
    requires Consistent(s) && Bounded(s) && AgreementAt(s, key)
    ensures Run(s, ops).Fine? && AgreementAt(Run(s, ops).state, key)
    decreases |ops|
  {
    if ops != [] {
      StepSafe(s, ops[0]);
      StepKeepsAgreementAt(s, ops[0], key);
      RunKeepsAgreementAt(Step(s, ops[0]).state, ops[1..], key);
    }
  }

  // ----- leaks -----

  // The channel of every running informer is stored for some kind.
  predicate NoLeak(s: State) {
    forall c :: c in s.running ==> exists k :: k in s.stoppers && s.stoppers[k] == c
  }

  /** A step leaves a running informer whose channel is no longer stored exactly when it adds the UID
      that already is the whole set of its kind (for AppliedManifestWork also when that set is empty). */
  lemma StepLeakIff(s: State, op: Op)
    requires Consistent(s) && Bounded(s) && NoLeak(s)
    ensures Step(s, op).Fine?
    ensures NoLeak(Step(s, op).state) <==> !(op.Add? && op.key in s.informers && Starts(s, op.key, op.uid))
  {
    StepSafe(s, op);
    match op
    case Add(key, gvr, uid) => AddLeakIff(s, key, gvr, uid, s.next);
    case Remove(key, uid) => RemoveNeverLeaks(s, key, uid);
  }

  // ... or is the one that run() holds on to, to close it at shutdown.
  predicate NoneLost(s: State, boot: nat) {
    forall c :: c in s.running && c != boot ==> exists k :: k in s.stoppers && s.stoppers[k] == c
  }

  /** A step leaves an informer that nothing will ever stop exactly when, moreover, the channel it
      replaces is not the one run() closes. */
  lemma StepLosesIff(s: State, op: Op, boot: nat)
    requires Consistent(s) && Bounded(s) && NoneLost(s, boot)
    ensures Step(s, op).Fine?
    ensures NoneLost(Step(s, op).state, boot)
       <==> !(op.Add? && op.key in s.informers && Starts(s, op.key, op.uid) && s.stoppers[op.key] != boot)
  {
    StepSafe(s, op);
    match op
    case Add(key, gvr, uid) =>
      if Starts(s, key, uid) {
        StartLosesIff(s, s.(counts := Added(s.counts, key, uid)), key, gvr, boot);
      }
    case Remove(key, uid) =>
      RemoveLosesNothing(s, key, uid, boot);
  }

  lemma StartLosesIff(s: State, counted: State, key: string, gvr: GVR, boot: nat)
    requires Consistent(s) && Bounded(s) && NoneLost(s, boot) && counted == s.(counts := counted.counts)
    ensures NoneLost(StartInformer(counted, key, gvr, s.next), boot) <==> !(key in s.informers && s.stoppers[key] != boot)
  {
    var t := StartInformer(counted, key, gvr, s.next);
    assert t.stoppers[key] == s.next;
    if key in s.informers && s.stoppers[key] != boot {
      assert s.stoppers[key] in t.running && forall k :: k in t.stoppers ==> t.stoppers[k] != s.stoppers[key];
    } else {
      forall c | c in t.running && c != boot && c != s.next ensures exists k :: k in t.stoppers && t.stoppers[k] == c {
        var k :| k in s.stoppers && s.stoppers[k] == c;
        assert k != key && k in t.stoppers;
      }
    }
  }

  lemma RemoveLosesNothing(s: State, key: string, uid: string, boot: nat)
    requires Consistent(s) && NoneLost(s, boot)
    ensures RemoveStep(s, key, uid).Fine? && NoneLost(RemoveStep(s, key, uid).state, boot)
  {
    RemoveSafe(s, key, uid);
    var t := RemoveStep(s, key, uid).state;
    forall c | c in t.running && c != boot ensures exists k :: k in t.stoppers && t.stoppers[k] == c {
      var k :| k in s.stoppers && s.stoppers[k] == c;
      assert k in t.stoppers;
    }
  }

  lemma AddLeakIff(s: State, key: string, gvr: GVR, uid: string, channel: nat)
    requires Consistent(s) && NoLeak(s) && Unused(s, channel)
    ensures NoLeak(AddStep(s, key, gvr, uid, channel)) <==> !(key in s.informers && Starts(s, key, uid))
  {
    if Starts(s, key, uid) {
      if key in s.informers {
        RestartLeaks(s, s.(counts := Added(s.counts, key, uid)), key, gvr, channel);
      } else {
        StartLeaksNothing(s.(counts := Added(s.counts, key, uid)), key, gvr, channel);
      }
    }
  }

  lemma RestartLeaks(s: State, counted: State, key: string, gvr: GVR, channel: nat)
    requires Consistent(s) && key in s.informers && Unused(s, channel) && counted == s.(counts := counted.counts)
    ensures !NoLeak(StartInformer(counted, key, gvr, channel))
  {
    var t, lost := StartInformer(counted, key, gvr, channel), s.stoppers[key];
    assert lost in t.running;
    assert forall k :: k in t.stoppers ==> t.stoppers[k] != lost;
  }

  lemma StartLeaksNothing(s: State, key: string, gvr: GVR, channel: nat)
    requires NoLeak(s) && key !in s.stoppers
    ensures NoLeak(StartInformer(s, key, gvr, channel))
  {
    var t := StartInformer(s, key, gvr, channel);
    assert t.stoppers[key] == channel;
    assert forall k :: k in s.stoppers ==> k in t.stoppers && t.stoppers[k] == s.stoppers[k];
  }

  lemma RemoveNeverLeaks(s: State, key: string, uid: string)
    requires Consistent(s) && NoLeak(s)
    ensures RemoveStep(s, key, uid).Fine? && NoLeak(RemoveStep(s, key, uid).state)
  {
    RemoveSafe(s, key, uid);
    var t := RemoveStep(s, key, uid).state;
    forall c | c in t.running ensures exists k :: k in t.stoppers && t.stoppers[k] == c {
      var k :| k in s.stoppers && s.stoppers[k] == c;
      assert k in t.stoppers;
    }
  }

  // Adding a UID again while it is the only one of its kind starts a second informer.
  lemma ReaddLeaks(s: State, key: string, gvr: GVR, uid: string)
    requires Uids(s.counts, key) == {}
    ensures var r := Run(s, [Add(key, gvr, uid), Add(key, gvr, uid)]);
            && r.Fine? && r.state.running == s.running + {s.next, s.next + 1}
            && r.state.stoppers == s.stoppers[key := s.next + 1]
  {
    var op := Add(key, gvr, uid);
    assert Uids(s.counts, key) + {uid} == {uid};
    var t := Step(s, op).state;
    assert Uids(t.counts, key) + {uid} == {uid};
    TwoSteps(s, op, t, op);
  }

  lemma TwoSteps(s: State, op: Op, t: State, op': Op)
    requires Step(s, op) == Fine(t)
    ensures Run(s, [op, op']) == Step(t, op')
  {
    assert [op, op'][1..] == [op'];
    assert Run(s, [op, op']) == Run(t, [op']);
    assert Step(t, op').Fine? ==> Run(t, [op']) == Run(Step(t, op').state, []);
  }
}
