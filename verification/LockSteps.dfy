// The same loops at the granularity the locks of pkg/util/safemaps.go really give: every single
// map operation is a step of its own. Two threads in the middle of an iteration on one kind can
// then go wrong; as long as that never happens, every interleaving is a sequence of whole
// iterations.

module LockSteps {
  import opened Base
  import opened Schema
  import opened SafeMaps
  import opened Index
  import opened Confluence

  // Where a thread is within its current iteration, named after the last operation it did.
  datatype PC =
    | Idle
    // startInformers
    | UidAdded
    | FirstSeen
    | InformerSet(channel: nat)
    | ListerSet(channel: nat)
    | StopperSet(channel: nat)
    // stopInformers
    | InformerFound
    | UidDeleted
    | NoneLeft
    | StopperGot(channel: nat)
    | ChannelClosed
    | InformerDeleted
    | ListerDeleted

  datatype Micro = Moved(state: State, pc: PC) | Crash

  /** The next map operation (or channel close, or go statement) of an iteration; it ends the
      iteration when it moves to Idle. */
  function MicroStep(s: State, op: Op, pc: PC): Micro {
    match op
    case Add(key, gvr, uid) => AddMicro(s, key, gvr, uid, pc)
    case Remove(key, uid) => RemoveMicro(s, key, uid, pc)
  }

  function AddMicro(s: State, key: string, gvr: GVR, uid: string, pc: PC): Micro {
    match pc
    case Idle => Moved(s.(counts := Added(s.counts, key, uid)), UidAdded)
    case UidAdded => if |Uids(s.counts, key)| == 1 then Moved(s, FirstSeen) else Moved(s, Idle)
    case FirstSeen =>
      Moved(s.(informers := s.informers[key := Informer(gvr, s.next)], next := s.next + 1), InformerSet(s.next))
    case InformerSet(c) => Moved(s.(listers := s.listers[key := Lister(gvr, c)]), ListerSet(c))
    case ListerSet(c) => Moved(s.(stoppers := s.stoppers[key := c]), StopperSet(c))
    // an informer whose channel is closed by then does not run
    case StopperSet(c) => Moved(if c in s.closed then s else s.(running := s.running + {c}), Idle)
    case _ => Crash // not a point of this loop
  }

  function RemoveMicro(s: State, key: string, uid: string, pc: PC): Micro {
    match pc
    case Idle => if key in s.informers then Moved(s, InformerFound) else Moved(s, Idle)
    case InformerFound => Moved(s.(counts := Removed(s.counts, key, uid)), UidDeleted)
    case UidDeleted => if |Uids(s.counts, key)| == 0 then Moved(s, NoneLeft) else Moved(s, Idle)
    case NoneLeft => if key in s.stoppers then Moved(s, StopperGot(s.stoppers[key])) else Crash
    case StopperGot(c) =>
      if c in s.closed then Crash
      else Moved(s.(running := s.running - {c}, closed := s.closed + {c}), ChannelClosed)
    case ChannelClosed => Moved(s.(informers := s.informers - {key}), InformerDeleted)
    case InformerDeleted => Moved(s.(listers := s.listers - {key}), ListerDeleted)
    case ListerDeleted => Moved(s.(stoppers := s.stoppers - {key}), Idle)
    case _ => Crash // not a point of this loop
  }

  datatype Thread = Thread(todo: seq<Op>, pc: PC) {
    ghost predicate InFlight() {
      pc != Idle
    }
  }

  datatype Config = Config(shared: State, threads: seq<Thread>)
  datatype Reached = At(config: Config) | Crashed

  predicate Enabled(c: Config, t: nat) {
    t < |c.threads| && c.threads[t].todo != []
  }

  function FineStep(c: Config, t: nat): Reached
    requires Enabled(c, t)
  {
    var th := c.threads[t];
    match MicroStep(c.shared, th.todo[0], th.pc)
    case Crash => Crashed
    case Moved(s, pc) =>
      At(Config(s, c.threads[t := Thread(if pc == Idle then th.todo[1..] else th.todo, pc)]))
  }

  // A schedule names the thread that moves next; naming a finished thread does nothing.
  function FineRun(c: Config, schedule: seq<nat>): Reached
    decreases |schedule|
  {
    if schedule == [] then At(c)
    else if !Enabled(c, schedule[0]) then FineRun(c, schedule[1..])
    else
      match FineStep(c, schedule[0])
      case Crashed => Crashed
      case At(d) => FineRun(d, schedule[1..])
  }

  function Launch(s: State, threads: seq<seq<Op>>): Config {
    Config(s, seq(|threads|, i requires 0 <= i < |threads| => Thread(threads[i], Idle)))
  }

  // ----- what goes wrong without discipline -----

  /** Two starts on an empty kind: both count two UIDs, and neither starts the informer. */
  lemma TwoAddersStartNothing(key: string, gvr: GVR, u: string, u': string)
    requires key != AW_KEY && u != u'
    ensures var r := FineRun(Launch(BOOTED, [[Add(key, gvr, u)], [Add(key, gvr, u')]]), [0, 1, 0, 1]);
            && r.At? && (forall t :: 0 <= t < 2 ==> r.config.threads[t] == Thread([], Idle))
            && Uids(r.config.shared.counts, key) == {u, u'} && key !in r.config.shared.informers
  {
    var a, b := Add(key, gvr, u), Add(key, gvr, u');
    var c := Launch(BOOTED, [[a], [b]]);
    var s1 := BOOTED.(counts := Added(BOOTED.counts, key, u));
    var s2 := s1.(counts := Added(s1.counts, key, u'));
    assert c.threads == [Thread([a], Idle), Thread([b], Idle)];
    var c1 := Config(s1, [Thread([a], UidAdded), Thread([b], Idle)]);
    var c2 := Config(s2, [Thread([a], UidAdded), Thread([b], UidAdded)]);
    var c3 := Config(s2, [Thread([], Idle), Thread([b], UidAdded)]);
    var c4 := Config(s2, [Thread([], Idle), Thread([], Idle)]);
    assert Uids(s2.counts, key) == {u, u'};
    assert |{u, u'}| == 2;
    assert [a][1..] == [] && [b][1..] == [];
    assert FineStep(c, 0) == At(c1);
    assert FineStep(c1, 1) == At(c2);
    assert FineStep(c2, 0) == At(c3);
    assert FineStep(c3, 1) == At(c4);
    assert FineRun(c, [0, 1, 0, 1]) == FineRun(c1, [0, 1, 0, 1][1..]);
    assert [0, 1, 0, 1][1..] == [1, 0, 1] && [1, 0, 1][1..] == [0, 1] && [0, 1][1..] == [1];
    assert FineRun(c1, [1, 0, 1]) == FineRun(c2, [0, 1]);
    assert FineRun(c2, [0, 1]) == FineRun(c3, [1]);
    assert FineRun(c3, [1]) == FineRun(c4, []);
  }

  /** Two removals that together empty a kind: both see no UID left, both get the stopper, and the
      second close panics. */
  lemma TwoRemoversCloseTwice(s: State, key: string, u: string, u': string, schedule: seq<nat>)
    requires Consistent(s) && key in s.informers && u != u' && Uids(s.counts, key) == {u, u'}
    requires schedule == [0, 1, 0, 1, 0, 1, 0, 1, 0, 1]
    ensures FineRun(Launch(s, [[Remove(key, u)], [Remove(key, u')]]), schedule).Crashed?
  {
    var a, b := Remove(key, u), Remove(key, u');
    assert Launch(s, [[a], [b]]) == Pair(s, a, Idle, b, Idle);
    assert key in s.stoppers && s.stoppers[key] in s.running;
    var s1 := s.(counts := Removed(s.counts, key, u));
    var s2 := s1.(counts := Removed(s1.counts, key, u'));
    assert Uids(s2.counts, key) == {};
    assert schedule == [0, 1] + ([0, 1] + schedule[4..]);
    BothDelete(s, s1, s2, a, b, schedule[4..]);
    BothStop(s2, a, b, schedule[4..]);
  }

  lemma BothDelete(s: State, s1: State, s2: State, a: Op, b: Op, rest: seq<nat>)
    requires a.Remove? && b.Remove? && a.key == b.key && a.key in s.informers
    requires s1 == s.(counts := Removed(s.counts, a.key, a.uid)) && s2 == s1.(counts := Removed(s1.counts, b.key, b.uid))
    ensures FineRun(Pair(s, a, Idle, b, Idle), [0, 1] + ([0, 1] + rest)) == FineRun(Pair(s2, a, UidDeleted, b, UidDeleted), rest)
  {
    BothMove(Pair(s, a, Idle, b, Idle), s, s, a, b, Idle, InformerFound, InformerFound, [0, 1] + rest);
    BothMove(Pair(s, a, InformerFound, b, InformerFound), s1, s2, a, b, InformerFound, UidDeleted, UidDeleted, rest);
  }

  lemma BothStop(s: State, a: Op, b: Op, schedule: seq<nat>)
    requires a.Remove? && b.Remove? && a.key == b.key && Uids(s.counts, a.key) == {}
    requires a.key in s.stoppers && s.stoppers[a.key] !in s.closed
    requires schedule == [0, 1, 0, 1, 0, 1]
    ensures FineRun(Pair(s, a, UidDeleted, b, UidDeleted), schedule).Crashed?
  {
    var ch := s.stoppers[a.key];
    assert schedule == [0, 1] + ([0, 1] + schedule[4..]);
    BothMove(Pair(s, a, UidDeleted, b, UidDeleted), s, s, a, b, UidDeleted, NoneLeft, NoneLeft, [0, 1] + schedule[4..]);
    BothMove(Pair(s, a, NoneLeft, b, NoneLeft), s, s, a, b, NoneLeft, StopperGot(ch), StopperGot(ch), schedule[4..]);
    BothClose(s, a, b, ch, schedule[4..]);
  }

  lemma BothClose(s: State, a: Op, b: Op, channel: nat, schedule: seq<nat>)
    requires a.Remove? && b.Remove? && channel !in s.closed && schedule == [0, 1]
    ensures FineRun(Pair(s, a, StopperGot(channel), b, StopperGot(channel)), schedule).Crashed?
  {
    var t := s.(running := s.running - {channel}, closed := s.closed + {channel});
    var last := Pair(t, a, ChannelClosed, b, StopperGot(channel));
    assert FineStep(Pair(s, a, StopperGot(channel), b, StopperGot(channel)), 0) == At(last);
    assert FineStep(last, 1) == Crashed;
    assert schedule[1..] == [1];
    assert FineRun(Pair(s, a, StopperGot(channel), b, StopperGot(channel)), schedule) == FineRun(last, schedule[1..]);
  }

  function Pair(s: State, a: Op, p: PC, b: Op, q: PC): Config {
    Config(s, [Thread([a], p), Thread([b], q)])
  }

  lemma BothMove(c: Config, s: State, t: State, a: Op, b: Op, from: PC, p: PC, q: PC, rest: seq<nat>)
    requires c == Pair(c.shared, a, from, b, from)
    requires MicroStep(c.shared, a, from) == Moved(s, p) && p != Idle
    requires MicroStep(s, b, from) == Moved(t, q) && q != Idle
    ensures FineRun(c, [0, 1] + rest) == FineRun(Pair(t, a, p, b, q), rest)
  {
    assert FineStep(c, 0) == At(Pair(s, a, p, b, from));
    assert FineStep(Pair(s, a, p, b, from), 1) == At(Pair(t, a, p, b, q));
    assert ([0, 1] + rest)[1..] == [1] + rest && ([1] + rest)[1..] == rest;
    assert FineRun(c, [0, 1] + rest) == FineRun(Pair(s, a, p, b, from), [1] + rest);
    assert FineRun(Pair(s, a, p, b, from), [1] + rest) == FineRun(Pair(t, a, p, b, q), rest);
  }

  // ----- the discipline and the reduction -----

  /** No other thread is in the middle of an iteration on the kind this thread is about to touch. */
  ghost predicate Exclusive(c: Config, t: nat)
    requires Enabled(c, t)
  {
    forall t' :: 0 <= t' < |c.threads| && t' != t && c.threads[t'].InFlight() && c.threads[t'].todo != []
                 ==> c.threads[t'].todo[0].key != c.threads[t].todo[0].key
  }

  ghost predicate Disciplined(c: Config, schedule: seq<nat>)
    decreases |schedule|
  {
    schedule != [] ==>
      if !Enabled(c, schedule[0]) then Disciplined(c, schedule[1..])
      else Exclusive(c, schedule[0]) &&
           (FineStep(c, schedule[0]).At? ==> Disciplined(FineStep(c, schedule[0]).config, schedule[1..]))
  }

  // An iteration takes effect when it starts the informer or closes the channel, or else when it ends.
  predicate TookEffect(pc: PC) {
    pc == ChannelClosed || pc == InformerDeleted || pc == ListerDeleted
  }

  function Pending(th: Thread): seq<Op> {
    if TookEffect(th.pc) && th.todo != [] then th.todo[1..] else th.todo
  }

  function PendingOf(c: Config): seq<seq<Op>> {
    seq(|c.threads|, i requires 0 <= i < |c.threads| => Pending(c.threads[i]))
  }

  // The entries of the thread's key as they are (v), given those of the state in which every
  // iteration has either taken effect as a whole or not begun (w).
  ghost predicate Midway(v: View, w: View, op: Op, pc: PC) {
    match pc
    case Idle => v == w
    case UidAdded => op.Add? && v == w.(uids := w.uids + {op.uid})
    case FirstSeen => op.Add? && v == w.(uids := w.uids + {op.uid}) && |v.uids| == 1
    case InformerSet(c) =>
      op.Add? && v == w.(uids := w.uids + {op.uid}, informer := Some(Informer(op.gvr, c))) && |v.uids| == 1
    case ListerSet(c) =>
      op.Add? && |v.uids| == 1 &&
      v == w.(uids := w.uids + {op.uid}, informer := Some(Informer(op.gvr, c)), lister := Some(Lister(op.gvr, c)))
    case StopperSet(c) =>
      op.Add? && |v.uids| == 1 &&
      v == View(w.uids + {op.uid}, Some(Informer(op.gvr, c)), Some(Lister(op.gvr, c)), Some(c))
    case InformerFound => op.Remove? && v == w && w.informer.Some?
    case UidDeleted => op.Remove? && v == w.(uids := w.uids - {op.uid}) && w.informer.Some?
    case NoneLeft => op.Remove? && v == w.(uids := {}) && w.uids - {op.uid} == {} && w.informer.Some?
    case StopperGot(c) =>
      op.Remove? && v == w.(uids := {}) && w.uids - {op.uid} == {} && w.informer.Some? && w.stopper == Some(c)
    case ChannelClosed => op.Remove? && w == View(v.uids, None, None, None)
    case InformerDeleted => op.Remove? && w == View(v.uids, None, None, None) && v.informer.None?
    case ListerDeleted => op.Remove? && w == View(v.uids, None, None, None) && v.informer.None? && v.lister.None?
  }

  // The channel a thread has made but not yet handed to a running informer.
  function Held(pc: PC): Option<nat> {
    if pc.InformerSet? || pc.ListerSet? || pc.StopperSet? then Some(pc.channel) else None
  }

  ghost predicate ChannelsApart(c: Config, a: State) {
    && (forall ch :: ch in a.running || ch in a.closed ==> ch < c.shared.next)
    && (forall t :: 0 <= t < |c.threads| && Held(c.threads[t].pc).Some? ==>
          Held(c.threads[t].pc).value < c.shared.next && Unused(a, Held(c.threads[t].pc).value))
    && (forall t, t' :: 0 <= t < t' < |c.threads| && Held(c.threads[t].pc).Some? ==>
          Held(c.threads[t].pc) != Held(c.threads[t'].pc))
  }

  ghost predicate Busy(c: Config, key: string) {
    exists t :: 0 <= t < |c.threads| && c.threads[t].InFlight() && c.threads[t].todo != [] && c.threads[t].todo[0].key == key
  }

  ghost predicate ThreadsMidway(c: Config, a: State) {
    forall t :: 0 <= t < |c.threads| && c.threads[t].InFlight() ==>
      && c.threads[t].todo != []
      && Midway(ViewAt(c.shared, c.threads[t].todo[0].key), ViewAt(a, c.threads[t].todo[0].key), c.threads[t].todo[0], c.threads[t].pc)
  }

  ghost predicate KeysApart(c: Config) {
    forall t, t' :: 0 <= t < t' < |c.threads| && c.threads[t].InFlight() && c.threads[t'].InFlight()
                    && c.threads[t].todo != [] && c.threads[t'].todo != [] ==>
      c.threads[t].todo[0].key != c.threads[t'].todo[0].key
  }

  /** The configuration c stands for the state a of the coarse machine. */
  ghost predicate Simulates(c: Config, a: State) {
    && Consistent(a)
    && c.shared.running == a.running && c.shared.closed == a.closed
    && ThreadsMidway(c, a)
    && KeysApart(c)
    && ChannelsApart(c, a)
    && (forall key :: !Busy(c, key) ==> ViewAt(c.shared, key) == ViewAt(a, key))
  }

  // ----- one micro step on its own key -----

  lemma MicroFrame(s: State, op: Op, pc: PC, key: string)
    requires MicroStep(s, op, pc).Moved? && key != op.key
    ensures ViewAt(MicroStep(s, op, pc).state, key) == ViewAt(s, key)
  {
  }

  // Whether this micro step makes the iteration take effect.
  predicate Commits(pc: PC, pc': PC) {
    !TookEffect(pc) && (pc' == Idle || pc' == ChannelClosed)
  }

  function ChannelFor(pc: PC, next: nat): nat {
    if Held(pc).Some? then Held(pc).value else next
  }

  function After(a: State, op: Op, pc: PC, pc': PC, next: nat): Outcome {
    if Commits(pc, pc') then StepWith(a, op, ChannelFor(pc, next)) else Fine(a)
  }

  // what the coarse steps do to the entries of their key
  lemma AddView(a: State, key: string, gvr: GVR, uid: string, ch: nat)
    ensures var w, w' := ViewAt(a, key), ViewAt(AddStep(a, key, gvr, uid, ch), key);
            w' == if |w.uids + {uid}| == 1 then View(w.uids + {uid}, Some(Informer(gvr, ch)), Some(Lister(gvr, ch)), Some(ch))
                  else w.(uids := w.uids + {uid})
  {
  }

  lemma RemoveView(a: State, key: string, uid: string)
    requires Consistent(a)
    ensures RemoveStep(a, key, uid).Fine?
    ensures var w, b := ViewAt(a, key), RemoveStep(a, key, uid).state;
            if w.informer.None? then b == a
            else if w.uids - {uid} == {} then ViewAt(b, key) == View({}, None, None, None)
            else ViewAt(b, key) == w.(uids := w.uids - {uid}) && b.running == a.running && b.closed == a.closed
  {
    RemoveSafe(a, key, uid);
  }

  // This micro step, seen from the coarse state, is a whole iteration or nothing.
  ghost predicate Follows(s: State, a: State, op: Op, pc: PC) {
    var m := MicroStep(s, op, pc);
    && m.Moved?
    && var b := After(a, op, pc, m.pc, s.next);
    && b.Fine? && Consistent(b.state)
    && m.state.running == b.state.running && m.state.closed == b.state.closed
    && Midway(ViewAt(m.state, op.key), ViewAt(b.state, op.key), op, m.pc)
  }

  lemma MicroSimulates(s: State, a: State, op: Op, pc: PC)
    requires Consistent(a) && s.running == a.running && s.closed == a.closed
    requires Midway(ViewAt(s, op.key), ViewAt(a, op.key), op, pc)
    requires Unused(a, s.next) && (Held(pc).Some? ==> Unused(a, Held(pc).value))
    ensures Follows(s, a, op, pc)
  {
    match op
    case Add(key, gvr, uid) =>
      if pc == UidAdded {
        CountTakesEffect(s, a, op, pc);
      } else if pc.StopperSet? {
        StartTakesEffect(s, a, op, pc);
      } else {
        AddAdvances(s, a, op, pc);
      }
    case Remove(key, uid) =>
      if pc.StopperGot? {
        StopTakesEffect(s, a, op, pc);
      } else if pc == Idle {
        SkipTakesEffect(s, a, op, pc);
      } else if pc == UidDeleted {
        RemoveTakesEffect(s, a, op, pc);
      } else {
        RemoveAdvances(s, a, op, pc);
      }
  }

  lemma AddAdvances(s: State, a: State, op: Op, pc: PC)
    requires op.Add? && pc != UidAdded && !pc.StopperSet?
    requires Consistent(a) && s.running == a.running && s.closed == a.closed
    requires Midway(ViewAt(s, op.key), ViewAt(a, op.key), op, pc)
    requires Unused(a, s.next) && (Held(pc).Some? ==> Unused(a, Held(pc).value))
    ensures Follows(s, a, op, pc)
  {
  }

  lemma RemoveAdvances(s: State, a: State, op: Op, pc: PC)
    requires op.Remove? && !pc.StopperGot? && pc != Idle && pc != UidDeleted
    requires Consistent(a) && s.running == a.running && s.closed == a.closed
    requires Midway(ViewAt(s, op.key), ViewAt(a, op.key), op, pc)
    requires Unused(a, s.next) && (Held(pc).Some? ==> Unused(a, Held(pc).value))
    ensures Follows(s, a, op, pc)
  {
    if pc == NoneLeft {
      assert op.key in a.informers && op.key in a.stoppers;
      assert ViewAt(s, op.key).stopper == ViewAt(a, op.key).stopper;
    }
  }

  lemma CountTakesEffect(s: State, a: State, op: Op, pc: PC)
    requires op.Add? && pc == UidAdded
    requires Consistent(a) && s.running == a.running && s.closed == a.closed
    requires Midway(ViewAt(s, op.key), ViewAt(a, op.key), op, pc)
    requires Unused(a, s.next) && (Held(pc).Some? ==> Unused(a, Held(pc).value))
    ensures Follows(s, a, op, pc)
  {
    var ch := ChannelFor(pc, s.next);
    AddSafe(a, op.key, op.gvr, op.uid, ch);
    AddView(a, op.key, op.gvr, op.uid, ch);
  }

  lemma StartTakesEffect(s: State, a: State, op: Op, pc: PC)
    requires op.Add? && pc.StopperSet?
    requires Consistent(a) && s.running == a.running && s.closed == a.closed
    requires Midway(ViewAt(s, op.key), ViewAt(a, op.key), op, pc)
    requires Unused(a, s.next) && (Held(pc).Some? ==> Unused(a, Held(pc).value))
    ensures Follows(s, a, op, pc)
  {
    var ch := ChannelFor(pc, s.next);
    AddSafe(a, op.key, op.gvr, op.uid, ch);
    AddView(a, op.key, op.gvr, op.uid, ch);
  }

  lemma SkipTakesEffect(s: State, a: State, op: Op, pc: PC)
    requires op.Remove? && pc == Idle
    requires Consistent(a) && s.running == a.running && s.closed == a.closed
    requires Midway(ViewAt(s, op.key), ViewAt(a, op.key), op, pc)
    ensures Follows(s, a, op, pc)
  {
    RemoveSafe(a, op.key, op.uid);
    RemoveView(a, op.key, op.uid);
  }

  lemma RemoveTakesEffect(s: State, a: State, op: Op, pc: PC)
    requires op.Remove? && pc == UidDeleted
    requires Consistent(a) && s.running == a.running && s.closed == a.closed
    requires Midway(ViewAt(s, op.key), ViewAt(a, op.key), op, pc)
    ensures Follows(s, a, op, pc)
  {
    assert Uids(s.counts, op.key) == ViewAt(s, op.key).uids == ViewAt(a, op.key).uids - {op.uid};
    if Uids(s.counts, op.key) == {} {
      LastUidDeleted(s, a, op);
    } else {
      OtherUidsLeft(s, a, op);
    }
  }

  lemma LastUidDeleted(s: State, a: State, op: Op)
    requires op.Remove? && Uids(s.counts, op.key) == {}
    requires Consistent(a) && s.running == a.running && s.closed == a.closed
    requires Midway(ViewAt(s, op.key), ViewAt(a, op.key), op, UidDeleted)
    ensures Follows(s, a, op, UidDeleted)
  {
    assert MicroStep(s, op, UidDeleted) == Micro.Moved(s, NoneLeft);
  }

  lemma OtherUidsLeft(s: State, a: State, op: Op)
    requires op.Remove? && Uids(s.counts, op.key) != {}
    requires Consistent(a) && s.running == a.running && s.closed == a.closed
    requires Midway(ViewAt(s, op.key), ViewAt(a, op.key), op, UidDeleted)
    ensures Follows(s, a, op, UidDeleted)
  {
    assert MicroStep(s, op, UidDeleted) == Micro.Moved(s, Idle);
    RemoveSafe(a, op.key, op.uid);
    RemoveView(a, op.key, op.uid);
  }

  lemma StopTakesEffect(s: State, a: State, op: Op, pc: PC)
    requires op.Remove? && pc.StopperGot?
    requires Consistent(a) && s.running == a.running && s.closed == a.closed
    requires Midway(ViewAt(s, op.key), ViewAt(a, op.key), op, pc)
    ensures Follows(s, a, op, pc)
  {
    assert op.key in a.stoppers && pc.channel in a.running;
    RemoveSafe(a, op.key, op.uid);
    RemoveView(a, op.key, op.uid);
  }

  // ----- one step of one thread -----

  function NextPC(c: Config, t: nat): PC
    requires Enabled(c, t)
    requires MicroStep(c.shared, c.threads[t].todo[0], c.threads[t].pc).Moved?
  {
    MicroStep(c.shared, c.threads[t].todo[0], c.threads[t].pc).pc
  }

  lemma ThreadFollows(c: Config, a: State, t: nat)
    requires Simulates(c, a) && Enabled(c, t) && Exclusive(c, t)
    ensures Follows(c.shared, a, c.threads[t].todo[0], c.threads[t].pc)
  {
    var th := c.threads[t];
    var op := th.todo[0];
    if !th.InFlight() {
      assert !Busy(c, op.key);
      assert ViewAt(c.shared, op.key) == ViewAt(a, op.key);
    }
    MicroSimulates(c.shared, a, op, th.pc);
  }

  // The coarse state after thread t's step.
  function CoarseAfter(c: Config, a: State, t: nat): Outcome
    requires Enabled(c, t)
    requires MicroStep(c.shared, c.threads[t].todo[0], c.threads[t].pc).Moved?
  {
    After(a, c.threads[t].todo[0], c.threads[t].pc, NextPC(c, t), c.shared.next)
  }

  lemma OtherKeys(c: Config, a: State, t: nat, key: string)
    requires Simulates(c, a) && Enabled(c, t) && Exclusive(c, t)
    requires key != c.threads[t].todo[0].key
    ensures FineStep(c, t).At? && CoarseAfter(c, a, t).Fine?
    ensures ViewAt(FineStep(c, t).config.shared, key) == ViewAt(c.shared, key)
    ensures ViewAt(CoarseAfter(c, a, t).state, key) == ViewAt(a, key)
  {
    ThreadFollows(c, a, t);
    var th := c.threads[t];
    MicroFrame(c.shared, th.todo[0], th.pc, key);
    if Commits(th.pc, NextPC(c, t)) {
      StepFrame(a, th.todo[0], ChannelFor(th.pc, c.shared.next), key);
    }
  }

  lemma StepKeepsMidway(c: Config, a: State, t: nat)
    requires Simulates(c, a) && Enabled(c, t) && Exclusive(c, t)
    ensures FineStep(c, t).At? && CoarseAfter(c, a, t).Fine?
    ensures ThreadsMidway(FineStep(c, t).config, CoarseAfter(c, a, t).state)
  {
    ThreadFollows(c, a, t);
    var d, b := FineStep(c, t).config, CoarseAfter(c, a, t).state;
    forall i | 0 <= i < |d.threads| && d.threads[i].InFlight()
      ensures d.threads[i].todo != []
      ensures Midway(ViewAt(d.shared, d.threads[i].todo[0].key), ViewAt(b, d.threads[i].todo[0].key),
                     d.threads[i].todo[0], d.threads[i].pc)
    {
      if i != t {
        OtherKeys(c, a, t, c.threads[i].todo[0].key);
      }
    }
  }

  // A step keeps the channel its thread holds, hands it over, or makes the next one.
  lemma HeldAfter(s: State, op: Op, pc: PC)
    requires MicroStep(s, op, pc).Moved?
    ensures var m := MicroStep(s, op, pc);
            && s.next <= m.state.next
            && (Held(m.pc).Some? ==>
                  (Held(m.pc) == Held(pc) && !Commits(pc, m.pc)) || (Held(m.pc) == Some(s.next) && s.next < m.state.next))
  {
  }

  lemma StepKeepsChannels(c: Config, a: State, t: nat)
    requires Simulates(c, a) && Enabled(c, t) && Exclusive(c, t)
    ensures FineStep(c, t).At? && CoarseAfter(c, a, t).Fine?
    ensures ChannelsApart(FineStep(c, t).config, CoarseAfter(c, a, t).state)
  {
    ThreadFollows(c, a, t);
    var th := c.threads[t];
    var d, b := FineStep(c, t).config, CoarseAfter(c, a, t).state;
    HeldAfter(c.shared, th.todo[0], th.pc);
    forall ch | ch in b.running || ch in b.closed
      ensures ch in a.running || ch in a.closed || Held(th.pc) == Some(ch)
    {
      MadeChannels(c.shared, a, th.todo[0], th.pc, ch);
    }
    assert Commits(th.pc, d.threads[t].pc) || b == a;
    ChannelsMove(c, a, t, d, b);
  }

  // Channels stay apart when one thread keeps, hands over or makes one.
  lemma ChannelsMove(c: Config, a: State, t: nat, d: Config, b: State)
    requires ChannelsApart(c, a) && t < |c.threads| == |d.threads| && c.shared.next <= d.shared.next
    requires forall i :: 0 <= i < |c.threads| && i != t ==> d.threads[i] == c.threads[i]
    requires forall ch :: ch in b.running || ch in b.closed ==> ch in a.running || ch in a.closed || Held(c.threads[t].pc) == Some(ch)
    requires Held(d.threads[t].pc).Some? ==>
               (Held(d.threads[t].pc) == Held(c.threads[t].pc) && b == a)
               || (Held(d.threads[t].pc) == Some(c.shared.next) && c.shared.next < d.shared.next)
    ensures ChannelsApart(d, b)
  {
    forall i | 0 <= i < |d.threads| && Held(d.threads[i].pc).Some?
      ensures Held(d.threads[i].pc).value < d.shared.next && Unused(b, Held(d.threads[i].pc).value)
    {
      if i != t {
        HeldApart(c, a, i, t);
      }
    }
    forall i, k | 0 <= i < k < |d.threads| && Held(d.threads[i].pc).Some?
      ensures Held(d.threads[i].pc) != Held(d.threads[k].pc)
    {
      HeldApart(c, a, i, k);
    }
  }

  lemma HeldApart(c: Config, a: State, i: nat, k: nat)
    requires ChannelsApart(c, a) && i < |c.threads| && k < |c.threads| && i != k
    ensures Held(c.threads[i].pc).Some? ==>
              Held(c.threads[i].pc) != Held(c.threads[k].pc) && Held(c.threads[i].pc).value < c.shared.next
    ensures Held(c.threads[k].pc).Some? ==> Held(c.threads[k].pc).value < c.shared.next
  {
    if i > k {
      assert Held(c.threads[k].pc).Some? ==> Held(c.threads[k].pc) != Held(c.threads[i].pc);
    }
  }

  lemma MadeChannels(s: State, a: State, op: Op, pc: PC, ch: nat)
    requires Consistent(a) && s.running == a.running && s.closed == a.closed
    requires Midway(ViewAt(s, op.key), ViewAt(a, op.key), op, pc)
    requires MicroStep(s, op, pc).Moved?
    requires ch in MicroStep(s, op, pc).state.running || ch in MicroStep(s, op, pc).state.closed
    ensures ch in a.running || ch in a.closed || Held(pc) == Some(ch)
  {
    if pc.StopperGot? {
      assert op.key in a.stoppers && pc.channel in a.running;
    }
  }

  lemma StepKeepsViews(c: Config, a: State, t: nat, key: string)
    requires Simulates(c, a) && Enabled(c, t) && Exclusive(c, t)
    ensures FineStep(c, t).At? && CoarseAfter(c, a, t).Fine?
    ensures !Busy(FineStep(c, t).config, key) ==>
              ViewAt(FineStep(c, t).config.shared, key) == ViewAt(CoarseAfter(c, a, t).state, key)
  {
    ThreadFollows(c, a, t);
    var d := FineStep(c, t).config;
    if !Busy(d, key) {
      if key == c.threads[t].todo[0].key {
        assert !d.threads[t].InFlight();
      } else {
        forall i | 0 <= i < |c.threads| && c.threads[i].InFlight() && c.threads[i].todo != []
          ensures c.threads[i].todo[0].key != key
        {
          assert i != t ==> d.threads[i] == c.threads[i];
        }
        assert !Busy(c, key);
        OtherKeys(c, a, t, key);
      }
    }
  }

  lemma FineStepSimulates(c: Config, a: State, t: nat)
    requires Simulates(c, a) && Enabled(c, t) && Exclusive(c, t)
    ensures FineStep(c, t).At? && CoarseAfter(c, a, t).Fine?
    ensures Simulates(FineStep(c, t).config, CoarseAfter(c, a, t).state)
  {
    ThreadFollows(c, a, t);
    StepKeepsMidway(c, a, t);
    StepKeepsChannels(c, a, t);
    forall key ensures !Busy(FineStep(c, t).config, key) ==>
                         ViewAt(FineStep(c, t).config.shared, key) == ViewAt(CoarseAfter(c, a, t).state, key) {
      StepKeepsViews(c, a, t, key);
    }
  }

  lemma StepPending(c: Config, a: State, t: nat)
    requires Simulates(c, a) && Enabled(c, t) && Exclusive(c, t)
    ensures FineStep(c, t).At?
    ensures PendingOf(FineStep(c, t).config) ==
              if Commits(c.threads[t].pc, NextPC(c, t)) then PendingOf(c)[t := PendingOf(c)[t][1..]] else PendingOf(c)
    ensures Commits(c.threads[t].pc, NextPC(c, t)) ==> PendingOf(c)[t] != [] && PendingOf(c)[t][0] == c.threads[t].todo[0]
  {
    ThreadFollows(c, a, t);
    var d, before := FineStep(c, t).config, PendingOf(c);
    PendingAfter(c, a, t);
    forall i | 0 <= i < |before| && i != t ensures PendingOf(d)[i] == before[i] {
      assert d.threads[i] == c.threads[i];
    }
  }

  // Where a step leaves the thread, told by its program counters.
  lemma CommitsOnce(s: State, op: Op, pc: PC)
    requires MicroStep(s, op, pc).Moved?
    ensures var pc' := MicroStep(s, op, pc).pc;
            if Commits(pc, pc') then pc' == Idle || TookEffect(pc')
            else if TookEffect(pc) then pc' == Idle || TookEffect(pc') else pc' != Idle && !TookEffect(pc')
  {
  }

  lemma PendingMoves(th: Thread, pc: PC)
    requires th.todo != []
    requires if Commits(th.pc, pc) then pc == Idle || TookEffect(pc)
             else if TookEffect(th.pc) then pc == Idle || TookEffect(pc) else pc != Idle && !TookEffect(pc)
    ensures var after := Pending(Thread(if pc == Idle then th.todo[1..] else th.todo, pc));
            if Commits(th.pc, pc) then Pending(th) == th.todo && after == th.todo[1..] else after == Pending(th)
  {
  }

  lemma PendingAfter(c: Config, a: State, t: nat)
    requires Simulates(c, a) && Enabled(c, t) && Exclusive(c, t)
    ensures FineStep(c, t).At?
    ensures var before, after := Pending(c.threads[t]), Pending(FineStep(c, t).config.threads[t]);
            if Commits(c.threads[t].pc, NextPC(c, t)) then before == c.threads[t].todo && after == before[1..] else after == before
  {
    ThreadFollows(c, a, t);
    var th := c.threads[t];
    CommitsOnce(c.shared, th.todo[0], th.pc);
    PendingMoves(th, NextPC(c, t));
  }

  // ----- whole schedules -----

  datatype Effect = Effect(op: Op, channel: nat)

  function OpsIn(trace: seq<Effect>): seq<Op> {
    seq(|trace|, i requires 0 <= i < |trace| => trace[i].op)
  }

  /** The coarse machine gets from a to b by these iterations, each with a channel not made before. */
  ghost predicate Reaches(a: State, trace: seq<Effect>, b: State)
    decreases |trace|
  {
    if trace == [] then a == b
    else
      && Unused(a, trace[0].channel)
      && StepWith(a, trace[0].op, trace[0].channel).Fine?
      && Reaches(StepWith(a, trace[0].op, trace[0].channel).state, trace[1..], b)
  }

  ghost predicate AllDone(c: Config) {
    forall t :: 0 <= t < |c.threads| ==> c.threads[t].todo == []
  }

  ghost predicate SameState(s: State, t: State) {
    s.running == t.running && s.closed == t.closed && forall key :: ViewAt(s, key) == ViewAt(t, key)
  }

  lemma {:induction false} ReduceFrom(c: Config, a: State, schedule: seq<nat>) returns (trace: seq<Effect>, b: State)
    requires Simulates(c, a) && Disciplined(c, schedule)
    ensures FineRun(c, schedule).At? && Simulates(FineRun(c, schedule).config, b)
    ensures Reaches(a, trace, b)
    ensures AllDone(FineRun(c, schedule).config) ==> IsShuffle(PendingOf(c), OpsIn(trace))
    decreases |schedule|
  {
    if schedule == [] {
      trace, b := [], a;
    } else if !Enabled(c, schedule[0]) {
      trace, b := ReduceFrom(c, a, schedule[1..]);
    } else {
      var t := schedule[0];
      FineStepSimulates(c, a, t);
      var d := FineStep(c, t).config;
      var rest;
      rest, b := ReduceFrom(d, CoarseAfter(c, a, t).state, schedule[1..]);
      trace := StepTrace(c, a, t, rest, b);
    }
  }

  // The trace from before a step, given the one from after it.
  lemma StepTrace(c: Config, a: State, t: nat, rest: seq<Effect>, b: State) returns (trace: seq<Effect>)
    requires Simulates(c, a) && Enabled(c, t) && Exclusive(c, t)
    requires FineStep(c, t).At? && CoarseAfter(c, a, t).Fine? && Reaches(CoarseAfter(c, a, t).state, rest, b)
    ensures Reaches(a, trace, b)
    ensures IsShuffle(PendingOf(FineStep(c, t).config), OpsIn(rest)) ==> IsShuffle(PendingOf(c), OpsIn(trace))
  {
    StepPending(c, a, t);
    if Commits(c.threads[t].pc, NextPC(c, t)) {
      var e := Effect(c.threads[t].todo[0], ChannelFor(c.threads[t].pc, c.shared.next));
      trace := [e] + rest;
      assert Unused(a, e.channel);
      assert OpsIn(trace)[0] == e.op && OpsIn(trace)[1..] == OpsIn(rest);
      assert trace[1..] == rest;
    } else {
      trace := rest;
    }
  }

  lemma LaunchSimulates(s: State, threads: seq<seq<Op>>)
    requires Consistent(s) && Bounded(s)
    ensures Simulates(Launch(s, threads), s) && PendingOf(Launch(s, threads)) == threads
  {
  }

  /** Reduction: under the discipline no thread panics, and when all are done the shared state is
      that of some sequence of whole iterations, itself a shuffle of the threads. */
  lemma Reduction(s: State, threads: seq<seq<Op>>, schedule: seq<nat>)
    requires Consistent(s) && Bounded(s) && Disciplined(Launch(s, threads), schedule)
    ensures FineRun(Launch(s, threads), schedule).At?
    ensures AllDone(FineRun(Launch(s, threads), schedule).config) ==>
              exists trace, t :: Reaches(s, trace, t) && Consistent(t) && IsShuffle(threads, OpsIn(trace))
                                 && SameState(FineRun(Launch(s, threads), schedule).config.shared, t)
  {
    LaunchSimulates(s, threads);
    var trace, t := ReduceFrom(Launch(s, threads), s, schedule);
    var d := FineRun(Launch(s, threads), schedule).config;
    if AllDone(d) {
      assert forall key :: !Busy(d, key);
      assert SameState(d.shared, t);
    }
  }

  // ----- together with confluence -----

  ghost predicate SameShape(s: State, t: State) {
    s.counts == t.counts && s.informers.Keys == t.informers.Keys
  }

  lemma AddShape(a: State, key: string, gvr: GVR, uid: string, channel: nat)
    ensures AddStep(a, key, gvr, uid, channel).counts == Added(a.counts, key, uid)
    ensures AddStep(a, key, gvr, uid, channel).informers.Keys
         == if Starts(a, key, uid) then a.informers.Keys + {key} else a.informers.Keys
  {
    assert a.informers[key := Informer(gvr, channel)].Keys == a.informers.Keys + {key};
  }

  lemma RemoveShape(a: State, key: string, uid: string)
    requires RemoveStep(a, key, uid).Fine?
    ensures var b := RemoveStep(a, key, uid).state;
            if key !in a.informers.Keys then b == a
            else
              && b.counts == Removed(a.counts, key, uid)
              && b.informers.Keys == a.informers.Keys - if |Uids(b.counts, key)| == 0 then {key} else {}
  {
  }

  lemma StepShape(a: State, op: Op, channel: nat, s: State)
    requires SameShape(a, s) && StepWith(a, op, channel).Fine? && Step(s, op).Fine?
    ensures SameShape(StepWith(a, op, channel).state, Step(s, op).state)
  {
    match op
    case Add(key, gvr, uid) =>
      AddShape(a, key, gvr, uid, channel);
      AddShape(s, key, gvr, uid, s.next);
    case Remove(key, uid) =>
      RemoveShape(a, key, uid);
      RemoveShape(s, key, uid);
  }

  // Which channels get made changes neither the UID sets nor the kinds having an informer.
  lemma {:induction false} ChannelsDoNotMatter(a: State, trace: seq<Effect>, b: State, s: State)
    requires Reaches(a, trace, b) && Consistent(a) && Consistent(s) && Bounded(s) && SameShape(a, s)
    ensures Run(s, OpsIn(trace)).Fine? && SameShape(b, Run(s, OpsIn(trace)).state)
    decreases |trace|
  {
    if trace != [] {
      var op := trace[0].op;
      StepWithSafe(a, op, trace[0].channel);
      StepSafe(s, op);
      StepShape(a, op, trace[0].channel, s);
      assert OpsIn(trace)[1..] == OpsIn(trace[1..]);
      ChannelsDoNotMatter(StepWith(a, op, trace[0].channel).state, trace[1..], b, Step(s, op).state);
    }
  }

  /** Any disciplined interleaving of single map operations of any number of startInformers and
      stopInformers calls ends as if the calls had been made one after another. */
  lemma LockStepsAreSequential(s: State, mapper: RestMapper, calls: seq<Call>, schedule: seq<nat>)
    requires Consistent(s) && Bounded(s)
    requires forall i :: 0 <= i < |calls| ==> |calls[i].info.gvrs| <= |calls[i].info.uids|
    requires var threads := ThreadsOf(mapper, calls);
             AvoidsAw(Flatten(threads)) && NoConflict(Flatten(threads)) && Disciplined(Launch(s, threads), schedule)
    ensures var threads := ThreadsOf(mapper, calls);
            var r := FineRun(Launch(s, threads), schedule);
            && r.At? && Run(s, Flatten(threads)).Fine?
            && (AllDone(r.config) ==> SameOutcome(r.config.shared, Run(s, Flatten(threads)).state))
  {
    var threads := ThreadsOf(mapper, calls);
    Reduction(s, threads, schedule);
    RunSafe(s, Flatten(threads));
    var d := FineRun(Launch(s, threads), schedule).config;
    if AllDone(d) {
      var trace, t :| Reaches(s, trace, t) && Consistent(t) && IsShuffle(threads, OpsIn(trace)) && SameState(d.shared, t);
      TraceOutcome(s, threads, trace, t);
      StateOutcome(d.shared, t);
    }
  }

  lemma StateOutcome(s: State, t: State)
    requires SameState(s, t)
    ensures SameOutcome(s, t)
  {
    forall key ensures Uids(s.counts, key) == Uids(t.counts, key) && (key in s.informers <==> key in t.informers) {
      assert ViewAt(s, key) == ViewAt(t, key);
    }
  }

  lemma TraceOutcome(s: State, threads: seq<seq<Op>>, trace: seq<Effect>, t: State)
    requires Consistent(s) && Bounded(s) && Reaches(s, trace, t) && IsShuffle(threads, OpsIn(trace))
    requires AvoidsAw(Flatten(threads)) && NoConflict(Flatten(threads))
    ensures Run(s, Flatten(threads)).Fine? && SameOutcome(t, Run(s, Flatten(threads)).state)
  {
    ChannelsDoNotMatter(s, trace, t, s);
    SequentialIsShuffle(threads);
    ShufflesAgree(s, threads, Flatten(threads), OpsIn(trace));
  }
}
