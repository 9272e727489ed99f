// Two loops inside an iteration on one kind, at the granularity of the locks: exactly which schedules go
// wrong.

module TwoLoops {
  import opened Base
  import opened SafeMaps
  import opened Index
  import opened LockSteps

  predicate AtPoint(c: Config, t: nat, op: Op, pc: PC) {
    t < |c.threads| && c.threads[t] == Thread([op], pc)
  }

  predicate Through(c: Config, t: nat) {
    t < |c.threads| && c.threads[t] == Thread([], Idle)
  }

  function Other(t: nat): nat {
    if t == 0 then 1 else 0
  }

  lemma TwoUids(u: string, u': string)
    requires u != u'
    ensures |{u, u'}| == 2
  {
  }

  // ----- two starts -----

  // Thread t has seen a count of one and goes on to start the informer; the other comes too late for that.
  ghost predicate Leading(c: Config, t: nat, a: Op, b: Op) {
    var uids := Uids(c.shared.counts, a.key);
    && |c.threads| == 2 && t < 2
    && (Through(c, t) || (c.threads[t].todo == [a] && (c.threads[t].pc == FirstSeen || Held(c.threads[t].pc).Some?)))
    && (c.threads[t].pc == FirstSeen || a.key in c.shared.informers)
    && if AtPoint(c, Other(t), b, Idle) then uids == {a.uid}
       else uids == {a.uid, b.uid} && (AtPoint(c, Other(t), b, UidAdded) || Through(c, Other(t)))
  }

  // Both have added their UID before either counted.
  ghost predicate Stuck(c: Config, a: Op, b: Op) {
    && |c.threads| == 2
    && Uids(c.shared.counts, a.key) == {a.uid, b.uid} && a.key !in c.shared.informers
    && (AtPoint(c, 0, a, UidAdded) || Through(c, 0)) && (AtPoint(c, 1, b, UidAdded) || Through(c, 1))
  }

  lemma LeaderStep(c: Config, t: nat, a: Op, b: Op)
    requires Leading(c, t, a, b) && a.Add? && a.key == b.key && Enabled(c, t)
    ensures FineStep(c, t).At? && Leading(FineStep(c, t).config, t, a, b)
  {
    assert [a][1..] == [];
  }

  lemma LatecomerStep(c: Config, t: nat, a: Op, b: Op)
    requires Leading(c, t, a, b) && b.Add? && a.key == b.key && a.uid != b.uid && Enabled(c, Other(t))
    ensures FineStep(c, Other(t)).At? && Leading(FineStep(c, Other(t)).config, t, a, b)
  {
    TwoUids(a.uid, b.uid);
    assert [b][1..] == [];
    assert {a.uid} + {b.uid} == {a.uid, b.uid};
  }

  lemma LeadingStep(c: Config, t: nat, a: Op, b: Op, m: nat)
    requires Leading(c, t, a, b) && a.Add? && b.Add? && a.key == b.key && a.uid != b.uid && Enabled(c, m)
    ensures FineStep(c, m).At? && Leading(FineStep(c, m).config, t, a, b)
  {
    if m == t {
      LeaderStep(c, t, a, b);
    } else {
      LatecomerStep(c, t, a, b);
    }
  }

  lemma StuckStep(c: Config, a: Op, b: Op, m: nat)
    requires Stuck(c, a, b) && a.Add? && b.Add? && a.key == b.key && a.uid != b.uid && Enabled(c, m)
    ensures FineStep(c, m).At? && Stuck(FineStep(c, m).config, a, b)
  {
    TwoUids(a.uid, b.uid);
    assert [a][1..] == [] && [b][1..] == [];
  }

  lemma {:induction false} LeadingRun(c: Config, t: nat, a: Op, b: Op, schedule: seq<nat>)
    requires Leading(c, t, a, b) && a.Add? && b.Add? && a.key == b.key && a.uid != b.uid
    ensures FineRun(c, schedule).At? && Leading(FineRun(c, schedule).config, t, a, b)
    decreases |schedule|
  {
    if schedule != [] {
      if Enabled(c, schedule[0]) {
        LeadingStep(c, t, a, b, schedule[0]);
        LeadingRun(FineStep(c, schedule[0]).config, t, a, b, schedule[1..]);
      } else {
        LeadingRun(c, t, a, b, schedule[1..]);
      }
    }
  }

  lemma {:induction false} StuckRun(c: Config, a: Op, b: Op, schedule: seq<nat>)
    requires Stuck(c, a, b) && a.Add? && b.Add? && a.key == b.key && a.uid != b.uid
    ensures FineRun(c, schedule).At? && Stuck(FineRun(c, schedule).config, a, b)
    decreases |schedule|
  {
    if schedule != [] {
      if Enabled(c, schedule[0]) {
        StuckStep(c, a, b, schedule[0]);
        StuckRun(FineStep(c, schedule[0]).config, a, b, schedule[1..]);
      } else {
        StuckRun(c, a, b, schedule[1..]);
      }
    }
  }

  // the first two moves
  lemma TwoMoves(s: State, a: Op, b: Op, t: nat, m: nat)
    requires a.Add? && b.Add? && a.key == b.key && a.uid != b.uid && t < 2 && m < 2
    requires Uids(s.counts, a.key) == {} && a.key !in s.informers
    ensures var c := Pair(s, a, Idle, b, Idle);
            && Enabled(c, t) && FineStep(c, t).At? && Enabled(FineStep(c, t).config, m)
            && FineStep(FineStep(c, t).config, m).At?
            && var d := FineStep(FineStep(c, t).config, m).config;
               if t != m then Stuck(d, a, b) else if t == 0 then Leading(d, 0, a, b) else Leading(d, 1, b, a)
  {
    var op := if t == 0 then a else b;
    assert {} + {op.uid} == {op.uid};
    assert {a.uid} + {b.uid} == {a.uid, b.uid} == {b.uid} + {a.uid};
    assert [a][1..] == [] && [b][1..] == [];
  }

  /** Two starts on an empty kind: no schedule panics, and once both are done the kind has an informer iff
      the thread that moved first also moved second. */
  lemma TwoStartsIff(s: State, a: Op, b: Op, schedule: seq<nat>)
    requires a.Add? && b.Add? && a.key == b.key && a.uid != b.uid
    requires Uids(s.counts, a.key) == {} && a.key !in s.informers
    requires |schedule| >= 2 && schedule[0] < 2 && schedule[1] < 2
    ensures var r := FineRun(Launch(s, [[a], [b]]), schedule);
            && r.At?
            && (AllDone(r.config) ==>
                  Uids(r.config.shared.counts, a.key) == {a.uid, b.uid}
                  && (a.key in r.config.shared.informers <==> schedule[0] == schedule[1]))
  {
    var t, m := schedule[0], schedule[1];
    var c := Pair(s, a, Idle, b, Idle);
    assert Launch(s, [[a], [b]]) == c;
    TwoMoves(s, a, b, t, m);
    var d := FineStep(FineStep(c, t).config, m).config;
    assert schedule[1..][0] == m && schedule[1..][1..] == schedule[2..];
    assert FineRun(c, schedule) == FineRun(FineStep(c, t).config, schedule[1..]) == FineRun(d, schedule[2..]);
    if t != m {
      StuckRun(d, a, b, schedule[2..]);
    } else if t == 0 {
      LeadingRun(d, 0, a, b, schedule[2..]);
    } else {
      LeadingRun(d, 1, b, a, schedule[2..]);
    }
  }

  // ----- two stops -----

  // Both have deleted their UID, and neither has counted yet.
  ghost predicate Racing(c: Config, a: Op, b: Op) {
    AtPoint(c, 0, a, UidDeleted) && AtPoint(c, 1, b, UidDeleted)
  }

  ghost predicate Races(c: Config, a: Op, b: Op, schedule: seq<nat>)
    decreases |schedule|
  {
    || Racing(c, a, b)
    || (schedule != [] &&
        if !Enabled(c, schedule[0]) then Races(c, a, b, schedule[1..])
        else FineStep(c, schedule[0]).At? && Races(FineStep(c, schedule[0]).config, a, b, schedule[1..]))
  }

  predicate Closing(pc: PC) {
    pc == UidDeleted || pc == NoneLeft || pc.StopperGot?
  }

  predicate Clearing(pc: PC) {
    pc == ChannelClosed || pc == InformerDeleted || pc == ListerDeleted
  }

  // Thread t is on its way to a close of the channel, which it has at hand or will look up.
  ghost predicate WillClose(c: Config, t: nat, op: Op, channel: nat) {
    t < |c.threads| && c.threads[t].todo == [op] && Closing(c.threads[t].pc)
    && (c.threads[t].pc.StopperGot? ==> c.threads[t].pc.channel == channel)
  }

  ghost predicate HasClosed(c: Config, t: nat, op: Op) {
    t < |c.threads| && (Through(c, t) || (c.threads[t].todo == [op] && Clearing(c.threads[t].pc)))
  }

  ghost predicate BothWill(c: Config, a: Op, b: Op, channel: nat) {
    && |c.threads| == 2 && Uids(c.shared.counts, a.key) == {}
    && (a.key in c.shared.stoppers ==> c.shared.stoppers[a.key] == channel)
    && WillClose(c, 0, a, channel) && WillClose(c, 1, b, channel)
  }

  // Thread t has closed the channel, and the other still will.
  ghost predicate OneWill(c: Config, t: nat, a: Op, b: Op, channel: nat) {
    && |c.threads| == 2 && t < 2 && Uids(c.shared.counts, a.key) == {}
    && (a.key in c.shared.stoppers ==> c.shared.stoppers[a.key] == channel)
    && HasClosed(c, t, a) && WillClose(c, Other(t), b, channel) && channel in c.shared.closed
  }

  /** No way back: both will close the one channel, or one has and the other still will. */
  ghost predicate Doomed(c: Config, a: Op, b: Op, channel: nat) {
    BothWill(c, a, b, channel) || OneWill(c, 0, a, b, channel) || OneWill(c, 1, b, a, channel)
  }

  lemma BothWillStep(c: Config, a: Op, b: Op, channel: nat, m: nat)
    requires BothWill(c, a, b, channel) && a.Remove? && b.Remove? && a.key == b.key && Enabled(c, m)
    ensures FineStep(c, m).At? ==> Doomed(FineStep(c, m).config, a, b, channel)
  {
  }

  lemma OneWillStep(c: Config, t: nat, a: Op, b: Op, channel: nat, m: nat)
    requires OneWill(c, t, a, b, channel) && a.Remove? && b.Remove? && a.key == b.key && Enabled(c, m)
    ensures FineStep(c, m).At? ==> OneWill(FineStep(c, m).config, t, a, b, channel)
  {
    assert [a][1..] == [];
  }

  lemma DoomedStep(c: Config, a: Op, b: Op, channel: nat, m: nat)
    requires Doomed(c, a, b, channel) && a.Remove? && b.Remove? && a.key == b.key && Enabled(c, m)
    ensures FineStep(c, m).At? ==> Doomed(FineStep(c, m).config, a, b, channel)
  {
    if BothWill(c, a, b, channel) {
      BothWillStep(c, a, b, channel, m);
    } else if OneWill(c, 0, a, b, channel) {
      OneWillStep(c, 0, a, b, channel, m);
    } else {
      OneWillStep(c, 1, b, a, channel, m);
    }
  }

  lemma {:induction false} DoomedRun(c: Config, a: Op, b: Op, channel: nat, schedule: seq<nat>)
    requires Doomed(c, a, b, channel) && a.Remove? && b.Remove? && a.key == b.key
    ensures FineRun(c, schedule).At? ==> !AllDone(FineRun(c, schedule).config)
    decreases |schedule|
  {
    if schedule != [] {
      if Enabled(c, schedule[0]) {
        DoomedStep(c, a, b, channel, schedule[0]);
        if FineStep(c, schedule[0]).At? {
          DoomedRun(FineStep(c, schedule[0]).config, a, b, channel, schedule[1..]);
        }
      } else {
        DoomedRun(c, a, b, channel, schedule[1..]);
      }
    }
  }

  // Thread t has not deleted its UID yet.
  predicate Before(c: Config, t: nat, op: Op) {
    AtPoint(c, t, op, Idle) || AtPoint(c, t, op, InformerFound)
  }

  ghost predicate Registered(s: State, key: string, channel: nat) {
    key in s.informers && Find(s.stoppers, key) == Some(channel) && channel !in s.closed
  }

  // Thread t comes first: it deletes and counts while the other's UID is still there.
  ghost predicate First(c: Config, t: nat, a: Op, b: Op, channel: nat) {
    && |c.threads| == 2 && t < 2 && Before(c, Other(t), b) && Registered(c.shared, a.key, channel)
    && (AtPoint(c, t, a, UidDeleted) || Through(c, t)) && Uids(c.shared.counts, a.key) == {b.uid}
  }

  // Thread t is through, and the other, which is last, stops the informer.
  ghost predicate Last(c: Config, t: nat, a: Op, b: Op, channel: nat) {
    && |c.threads| == 2 && t < 2 && Through(c, t) && Uids(c.shared.counts, a.key) == {}
    && if Through(c, Other(t)) then a.key !in c.shared.informers
       else
         && c.threads[Other(t)].todo == [b]
         && var pc := c.threads[Other(t)].pc;
            if Clearing(pc) then pc == ChannelClosed || a.key !in c.shared.informers
            else Closing(pc) && Registered(c.shared, a.key, channel) && (pc.StopperGot? ==> pc.channel == channel)
  }

  // Neither has deleted its UID yet.
  ghost predicate Early(c: Config, a: Op, b: Op, channel: nat) {
    && |c.threads| == 2 && Before(c, 0, a) && Before(c, 1, b) && Registered(c.shared, a.key, channel)
    && Uids(c.shared.counts, a.key) == {a.uid, b.uid}
  }

  ghost predicate Orderly(c: Config, a: Op, b: Op, channel: nat) {
    || Early(c, a, b, channel)
    || First(c, 0, a, b, channel) || First(c, 1, b, a, channel)
    || Last(c, 0, a, b, channel) || Last(c, 1, b, a, channel)
  }

  lemma EarlyStep(c: Config, a: Op, b: Op, channel: nat, m: nat)
    requires Early(c, a, b, channel) && a.Remove? && b.Remove? && a.key == b.key && a.uid != b.uid && Enabled(c, m)
    ensures FineStep(c, m).At?
    ensures var d := FineStep(c, m).config;
            Early(d, a, b, channel) || First(d, 0, a, b, channel) || First(d, 1, b, a, channel)
  {
    assert {a.uid, b.uid} - {a.uid} == {b.uid} && {a.uid, b.uid} - {b.uid} == {a.uid};
  }

  lemma FirstStep(c: Config, t: nat, a: Op, b: Op, channel: nat, m: nat)
    requires First(c, t, a, b, channel) && a.Remove? && b.Remove? && a.key == b.key && a.uid != b.uid && Enabled(c, m)
    ensures FineStep(c, m).At?
    ensures var d := FineStep(c, m).config;
            || First(d, t, a, b, channel) || Last(d, t, a, b, channel)
            || (AtPoint(d, t, a, UidDeleted) && AtPoint(d, Other(t), b, UidDeleted) && |d.threads| == 2
                && Uids(d.shared.counts, a.key) == {} && Registered(d.shared, a.key, channel))
  {
    assert [a][1..] == [];
    assert {b.uid} - {b.uid} == {};
  }

  lemma LastStep(c: Config, t: nat, a: Op, b: Op, channel: nat, m: nat)
    requires Last(c, t, a, b, channel) && a.Remove? && b.Remove? && a.key == b.key && Enabled(c, m)
    ensures FineStep(c, m).At? && Last(FineStep(c, m).config, t, a, b, channel)
  {
    assert [b][1..] == [];
  }

  lemma OrderlyStep(c: Config, a: Op, b: Op, channel: nat, m: nat)
    requires Orderly(c, a, b, channel) && a.Remove? && b.Remove? && a.key == b.key && a.uid != b.uid && Enabled(c, m)
    ensures FineStep(c, m).At?
    ensures Orderly(FineStep(c, m).config, a, b, channel)
         || (Racing(FineStep(c, m).config, a, b) && Doomed(FineStep(c, m).config, a, b, channel))
  {
    if Early(c, a, b, channel) {
      EarlyStep(c, a, b, channel, m);
    } else if First(c, 0, a, b, channel) {
      FirstStep(c, 0, a, b, channel, m);
    } else if First(c, 1, b, a, channel) {
      FirstStep(c, 1, b, a, channel, m);
    } else if Last(c, 0, a, b, channel) {
      LastStep(c, 0, a, b, channel, m);
    } else {
      LastStep(c, 1, b, a, channel, m);
    }
  }

  lemma {:induction false} OrderlyRun(c: Config, a: Op, b: Op, channel: nat, schedule: seq<nat>)
    requires Orderly(c, a, b, channel) && !Racing(c, a, b)
    requires a.Remove? && b.Remove? && a.key == b.key && a.uid != b.uid
    ensures var r := FineRun(c, schedule);
            if Races(c, a, b, schedule) then r.At? ==> !AllDone(r.config)
            else r.At? && (AllDone(r.config) ==> a.key !in r.config.shared.informers)
    decreases |schedule|
  {
    if schedule != [] {
      if Enabled(c, schedule[0]) {
        OrderlyStep(c, a, b, channel, schedule[0]);
        var d := FineStep(c, schedule[0]).config;
        if Racing(d, a, b) {
          assert Races(d, a, b, schedule[1..]);
          DoomedRun(d, a, b, channel, schedule[1..]);
        } else {
          OrderlyRun(d, a, b, channel, schedule[1..]);
        }
      } else {
        OrderlyRun(c, a, b, channel, schedule[1..]);
      }
    }
  }

  /** Two stops that together empty a kind: a schedule that goes on until there is a panic or both are
      done panics iff both deletions come before the first count; otherwise the informer is stopped. */
  lemma TwoStopsIff(s: State, a: Op, b: Op, schedule: seq<nat>)
    requires Consistent(s) && a.Remove? && b.Remove? && a.key == b.key && a.uid != b.uid
    requires a.key in s.informers && Uids(s.counts, a.key) == {a.uid, b.uid}
    requires var r := FineRun(Launch(s, [[a], [b]]), schedule); r.At? ==> AllDone(r.config)
    ensures var c := Launch(s, [[a], [b]]);
            && (FineRun(c, schedule).Crashed? <==> Races(c, a, b, schedule))
            && (FineRun(c, schedule).At? ==> a.key !in FineRun(c, schedule).config.shared.informers)
  {
    var c := Pair(s, a, Idle, b, Idle);
    assert Launch(s, [[a], [b]]) == c;
    assert a.key in s.stoppers && s.stoppers[a.key] in s.running;
    OrderlyRun(c, a, b, s.stoppers[a.key], schedule);
  }

  // ----- a start beside a stop -----

  lemma {:induction false} RunThen(c: Config, schedule: seq<nat>, t: nat)
    requires FineRun(c, schedule).At? && Enabled(FineRun(c, schedule).config, t)
    ensures FineRun(c, schedule + [t]) == FineStep(FineRun(c, schedule).config, t)
    decreases |schedule|
  {
    if schedule == [] {
      assert schedule + [t] == [t] && [t][1..] == [];
      assert FineStep(c, t).At? ==> FineRun(FineStep(c, t).config, []) == FineStep(c, t);
    } else {
      assert (schedule + [t])[0] == schedule[0] && (schedule + [t])[1..] == schedule[1..] + [t];
      if Enabled(c, schedule[0]) {
        RunThen(FineStep(c, schedule[0]).config, schedule[1..], t);
      } else {
        RunThen(c, schedule[1..], t);
      }
    }
  }

  // One more move, to a known point.
  lemma Then(c: Config, schedule: seq<nat>, d: Config, t: nat, s: State, pc: PC) returns (longer: seq<nat>)
    requires FineRun(c, schedule) == At(d) && Enabled(d, t) && pc != Idle
    requires MicroStep(d.shared, d.threads[t].todo[0], d.threads[t].pc) == Micro.Moved(s, pc)
    ensures FineRun(c, longer) == At(Config(s, d.threads[t := Thread(d.threads[t].todo, pc)]))
  {
    RunThen(c, schedule, t);
    longer := schedule + [t];
  }

  // The stop takes the last UID away and sees that none is left.
  lemma StopSeesNone(s: State, a: Op, b: Op) returns (schedule: seq<nat>, t: State)
    requires a.Add? && b.Remove? && b.key in s.informers && Uids(s.counts, b.key) == {b.uid}
    ensures FineRun(Pair(s, a, Idle, b, Idle), schedule) == At(Pair(t, a, Idle, b, NoneLeft))
    ensures t == s.(counts := Removed(s.counts, b.key, b.uid)) && Uids(t.counts, b.key) == {}
  {
    t := s.(counts := Removed(s.counts, b.key, b.uid));
    var c := Pair(s, a, Idle, b, Idle);
    schedule := Then(c, [], c, 1, s, InformerFound);
    schedule := Then(c, schedule, Pair(s, a, Idle, b, InformerFound), 1, t, UidDeleted);
    schedule := Then(c, schedule, Pair(t, a, Idle, b, UidDeleted), 1, t, NoneLeft);
  }

  // The start finds its UID to be the first.
  lemma StartSeesOne(c: Config, before: seq<nat>, s: State, a: Op, b: Op) returns (schedule: seq<nat>, t: State)
    requires a.Add? && Uids(s.counts, a.key) == {} && FineRun(c, before) == At(Pair(s, a, Idle, b, NoneLeft))
    ensures FineRun(c, schedule) == At(Pair(t, a, FirstSeen, b, NoneLeft))
    ensures t == s.(counts := Added(s.counts, a.key, a.uid)) && Uids(t.counts, a.key) == {a.uid}
  {
    t := s.(counts := Added(s.counts, a.key, a.uid));
    assert {} + {a.uid} == {a.uid};
    schedule := Then(c, before, Pair(s, a, Idle, b, NoneLeft), 0, t, UidAdded);
    schedule := Then(c, schedule, Pair(t, a, UidAdded, b, NoneLeft), 0, t, FirstSeen);
  }

  // It gets as far as storing the new channel.
  lemma StartStores(c: Config, before: seq<nat>, s: State, a: Op, b: Op) returns (schedule: seq<nat>, t: State)
    requires a.Add? && FineRun(c, before) == At(Pair(s, a, FirstSeen, b, NoneLeft))
    ensures FineRun(c, schedule) == At(Pair(t, a, StopperSet(s.next), b, NoneLeft))
    ensures t.counts == s.counts && t.stoppers == s.stoppers[a.key := s.next]
    ensures t.running == s.running && t.closed == s.closed
  {
    var s1 := s.(informers := s.informers[a.key := Informer(a.gvr, s.next)], next := s.next + 1);
    var s2 := s1.(listers := s1.listers[a.key := Lister(a.gvr, s.next)]);
    t := s2.(stoppers := s2.stoppers[a.key := s.next]);
    schedule := Then(c, before, Pair(s, a, FirstSeen, b, NoneLeft), 0, s1, InformerSet(s.next));
    schedule := Then(c, schedule, Pair(s1, a, InformerSet(s.next), b, NoneLeft), 0, s2, ListerSet(s.next));
    schedule := Then(c, schedule, Pair(s2, a, ListerSet(s.next), b, NoneLeft), 0, t, StopperSet(s.next));
  }

  // The stop looks up that channel, closes it, and clears the entries of the kind.
  lemma StopClosesNew(c: Config, before: seq<nat>, s: State, a: Op, b: Op, channel: nat) returns (schedule: seq<nat>, t: State)
    requires b.Remove? && FineRun(c, before) == At(Pair(s, a, StopperSet(channel), b, NoneLeft))
    requires b.key in s.stoppers && s.stoppers[b.key] == channel && channel !in s.closed
    ensures FineRun(c, schedule) == At(Pair(t, a, StopperSet(channel), b, ListerDeleted))
    ensures t.counts == s.counts && b.key !in t.informers && t.stoppers == s.stoppers && t.running == s.running - {channel} && channel in t.closed
  {
    var s1 := s.(running := s.running - {channel}, closed := s.closed + {channel});
    var s2 := s1.(informers := s1.informers - {b.key});
    t := s2.(listers := s2.listers - {b.key});
    schedule := Then(c, before, Pair(s, a, StopperSet(channel), b, NoneLeft), 1, s, StopperGot(channel));
    schedule := Then(c, schedule, Pair(s, a, StopperSet(channel), b, StopperGot(channel)), 1, s1, ChannelClosed);
    schedule := Then(c, schedule, Pair(s1, a, StopperSet(channel), b, ChannelClosed), 1, s2, InformerDeleted);
    schedule := Then(c, schedule, Pair(s2, a, StopperSet(channel), b, InformerDeleted), 1, t, ListerDeleted);
  }

  /** A start that comes between a stop's count and its close: the stop closes the new channel in place of
      its own, so the kind counts a UID and has no informer, and the old one runs on with its channel stored
      nowhere. */
  lemma StartBesideStop(s: State, a: Op, b: Op) returns (schedule: seq<nat>)
    requires Consistent(s) && Bounded(s) && a.Add? && b.Remove? && a.key == b.key
    requires a.key in s.informers && Uids(s.counts, a.key) == {b.uid}
    ensures var r := FineRun(Launch(s, [[a], [b]]), schedule);
            && r.At? && AllDone(r.config)
            && Uids(r.config.shared.counts, a.key) == {a.uid} && a.key !in r.config.shared.informers
            && Orphan(r.config.shared, s.stoppers[a.key])
  {
    var c := Pair(s, a, Idle, b, Idle);
    assert Launch(s, [[a], [b]]) == c;
    assert a.key in s.stoppers && s.stoppers[a.key] in s.running;
    var t;
    schedule, t := StopSeesNone(s, a, b);
    schedule, t := StartSeesOne(c, schedule, t, a, b);
    schedule, t := StartStores(c, schedule, t, a, b);
    schedule, t := StopClosesNew(c, schedule, t, a, b, s.next);
    schedule := BothEnd(c, schedule, t, a, b, s.next);
  }

  lemma BothEnd(c: Config, before: seq<nat>, s: State, a: Op, b: Op, channel: nat) returns (schedule: seq<nat>)
    requires a.Add? && b.Remove? && a.key == b.key && channel in s.closed
    requires FineRun(c, before) == At(Pair(s, a, StopperSet(channel), b, ListerDeleted))
    ensures var r := FineRun(c, schedule);
            && r.At? && AllDone(r.config)
            && r.config.shared == s.(stoppers := s.stoppers - {b.key})
  {
    var d := Pair(s, a, StopperSet(channel), b, ListerDeleted);
    assert [a][1..] == [] && [b][1..] == [];
    RunThen(c, before, 1);
    RunThen(c, before + [1], 0);
    schedule := before + [1] + [0];
  }
}
