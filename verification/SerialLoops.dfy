// Loops that go one after another on each kind, though not on different ones: the outcome is that of the
// calls made in that order, whatever UIDs they add and remove.

module SerialLoops {
  import opened SafeMaps
  import opened Diff
  import opened Index
  import opened Confluence
  import opened LockSteps

  ghost predicate IsOrder(order: seq<nat>, n: nat) {
    && Distinct(order)
    && (forall i :: 0 <= i < |order| ==> order[i] < n)
    && forall t :: 0 <= t < n ==> t in order
  }

  /** Every thread before this one has nothing left to do on the kind this one is about to touch. */
  ghost predicate TurnOf(c: Config, order: seq<nat>, t: nat)
    requires Enabled(c, t)
  {
    forall i, j, op {:trigger op in c.threads[order[i]].todo, order[j]} ::
      0 <= i < j < |order| && order[j] == t && order[i] < |c.threads| && op in c.threads[order[i]].todo
      ==> op.key != c.threads[t].todo[0].key
  }

  ghost predicate Serial(c: Config, order: seq<nat>, schedule: seq<nat>)
    decreases |schedule|
  {
    schedule != [] ==>
      if !Enabled(c, schedule[0]) then Serial(c, order, schedule[1..])
      else TurnOf(c, order, schedule[0]) &&
           (FineStep(c, schedule[0]).At? ==> Serial(FineStep(c, schedule[0]).config, order, schedule[1..]))
  }

  // It has been the turn of every thread in flight.
  ghost predicate InTurn(c: Config, order: seq<nat>) {
    forall t: nat :: Enabled(c, t) && c.threads[t].InFlight() ==> TurnOf(c, order, t)
  }

  lemma TurnIsExclusive(c: Config, order: seq<nat>, t: nat)
    requires IsOrder(order, |c.threads|) && Enabled(c, t) && TurnOf(c, order, t) && InTurn(c, order)
    ensures Exclusive(c, t)
  {
    forall t' | 0 <= t' < |c.threads| && t' != t && c.threads[t'].InFlight() && c.threads[t'].todo != []
      ensures c.threads[t'].todo[0].key != c.threads[t].todo[0].key
    {
      assert TurnOf(c, order, t');
      assert t in order && t' in order;
      var i :| 0 <= i < |order| && order[i] == t;
      var j :| 0 <= j < |order| && order[j] == t';
      assert c.threads[t].todo[0] in c.threads[order[i]].todo && c.threads[t'].todo[0] in c.threads[order[j]].todo;
      assert i < j || j < i;
    }
  }

  lemma StepInTurn(c: Config, order: seq<nat>, t: nat)
    requires Enabled(c, t) && TurnOf(c, order, t) && InTurn(c, order) && FineStep(c, t).At?
    ensures InTurn(FineStep(c, t).config, order)
  {
    var d := FineStep(c, t).config;
    forall u, op | 0 <= u < |d.threads| && op in d.threads[u].todo ensures op in c.threads[u].todo {}
    forall u: nat | Enabled(d, u) && d.threads[u].InFlight() ensures TurnOf(d, order, u) {
      assert Enabled(c, u) && TurnOf(c, order, u);
      assert d.threads[u].todo[0] == c.threads[u].todo[0];
    }
  }

  // ----- what is left to do, kind by kind, in order -----

  function InOrder(threads: seq<seq<Op>>, order: seq<nat>): seq<seq<Op>>
    requires forall i :: 0 <= i < |order| ==> order[i] < |threads|
  {
    seq(|order|, i requires 0 <= i < |order| => threads[order[i]])
  }

  function LeftOnKey(threads: seq<seq<Op>>, order: seq<nat>, key: string): seq<Op>
    requires forall i :: 0 <= i < |order| ==> order[i] < |threads|
    decreases |order|
  {
    if order == [] then [] else OnKey(threads[order[0]], key) + LeftOnKey(threads, order[1..], key)
  }

  lemma {:induction false} OnKeyJoins(a: seq<Op>, b: seq<Op>, key: string)
    ensures OnKey(a + b, key) == OnKey(a, key) + OnKey(b, key)
    decreases |a|
  {
    if a == [] {
      assert a + b == b;
    } else {
      assert (a + b)[0] == a[0] && (a + b)[1..] == a[1..] + b;
      OnKeyJoins(a[1..], b, key);
    }
  }

  lemma {:induction false} FlattenOnKey(threads: seq<seq<Op>>, order: seq<nat>, key: string)
    requires forall i :: 0 <= i < |order| ==> order[i] < |threads|
    ensures OnKey(Flatten(InOrder(threads, order)), key) == LeftOnKey(threads, order, key)
    decreases |order|
  {
    if order != [] {
      assert InOrder(threads, order)[1..] == InOrder(threads, order[1..]);
      OnKeyJoins(threads[order[0]], Flatten(InOrder(threads, order[1..])), key);
      FlattenOnKey(threads, order[1..], key);
    }
  }

  lemma {:induction false} NotOnKey(ops: seq<Op>, key: string)
    requires forall op :: op in ops ==> op.key != key
    ensures OnKey(ops, key) == []
    decreases |ops|
  {
    if ops != [] {
      assert ops[0] in ops;
      NotOnKey(ops[1..], key);
    }
  }

  // A thread other than those in the order changes nothing for them.
  lemma {:induction false} LeftUnchanged(threads: seq<seq<Op>>, order: seq<nat>, t: nat, ops: seq<Op>, key: string)
    requires t < |threads| && t !in order && forall i :: 0 <= i < |order| ==> order[i] < |threads|
    ensures LeftOnKey(threads[t := ops], order, key) == LeftOnKey(threads, order, key)
    decreases |order|
  {
    if order != [] {
      LeftUnchanged(threads, order[1..], t, ops, key);
    }
  }

  // No thread before t in the order has anything on the kind.
  ghost predicate NothingBefore(threads: seq<seq<Op>>, order: seq<nat>, t: nat, key: string)
    requires forall i :: 0 <= i < |order| ==> order[i] < |threads|
    decreases |order|
  {
    order != [] && order[0] != t ==> OnKey(threads[order[0]], key) == [] && NothingBefore(threads, order[1..], t, key)
  }

  /** The first iteration of a thread whose turn it is on the kind is the first of all left on it. */
  lemma {:induction false} TakeFirst(threads: seq<seq<Op>>, order: seq<nat>, t: nat, key: string)
    requires t < |threads| && threads[t] != [] && t in order && Distinct(order)
    requires forall i :: 0 <= i < |order| ==> order[i] < |threads|
    requires threads[t][0].key == key ==> NothingBefore(threads, order, t, key)
    ensures LeftOnKey(threads, order, key)
         == (if threads[t][0].key == key then [threads[t][0]] else []) + LeftOnKey(threads[t := threads[t][1..]], order, key)
    decreases |order|
  {
    if order[0] == t {
      assert t !in order[1..];
      LeftUnchanged(threads, order[1..], t, threads[t][1..], key);
    } else {
      TakeFirst(threads, order[1..], t, key);
    }
  }

  lemma {:induction false} TurnMeansNothingBefore(c: Config, order: seq<nat>, t: nat)
    requires Enabled(c, t) && TurnOf(c, order, t) && t in order
    requires forall i :: 0 <= i < |order| ==> order[i] < |c.threads|
    ensures NothingBefore(PendingOf(c), order, t, c.threads[t].todo[0].key)
    decreases |order|
  {
    if order[0] != t {
      var j :| 0 <= j < |order| && order[j] == t;
      var rest := PendingOf(c)[order[0]];
      forall op | op in rest ensures op.key != c.threads[t].todo[0].key {
        assert op in c.threads[order[0]].todo && order[j] == t;
      }
      NotOnKey(rest, c.threads[t].todo[0].key);
      forall i, k, op | 0 <= i < k < |order[1..]| && order[1..][k] == t && op in c.threads[order[1..][i]].todo
        ensures op.key != c.threads[t].todo[0].key
      {
        assert op in c.threads[order[i + 1]].todo && order[k + 1] == t;
      }
      TurnMeansNothingBefore(c, order[1..], t);
    }
  }

  lemma {:induction false} NothingLeft(threads: seq<seq<Op>>, order: seq<nat>, key: string)
    requires forall i :: 0 <= i < |order| ==> order[i] < |threads| && threads[order[i]] == []
    ensures LeftOnKey(threads, order, key) == []
    decreases |order|
  {
    if order != [] {
      NothingLeft(threads, order[1..], key);
    }
  }

  // ----- whole schedules -----

  // an iteration that takes effect is the first left on its kind
  lemma CommitTakesFirst(c: Config, a: State, order: seq<nat>, t: nat, key: string)
    requires Simulates(c, a) && IsOrder(order, |c.threads|) && Enabled(c, t) && TurnOf(c, order, t) && Exclusive(c, t)
    ensures FineStep(c, t).At?
    ensures var op := c.threads[t].todo[0];
            LeftOnKey(PendingOf(c), order, key)
            == (if Commits(c.threads[t].pc, NextPC(c, t)) && op.key == key then [op] else [])
               + LeftOnKey(PendingOf(FineStep(c, t).config), order, key)
  {
    StepPending(c, a, t);
    if Commits(c.threads[t].pc, NextPC(c, t)) {
      TurnMeansNothingBefore(c, order, t);
      TakeFirst(PendingOf(c), order, t, key);
    }
  }

  lemma {:induction false} SerialFrom(c: Config, a: State, order: seq<nat>, schedule: seq<nat>)
    returns (trace: seq<Effect>, b: State)
    requires Simulates(c, a) && IsOrder(order, |c.threads|) && InTurn(c, order) && Serial(c, order, schedule)
    ensures FineRun(c, schedule).At? && Simulates(FineRun(c, schedule).config, b) && Reaches(a, trace, b)
    ensures AllDone(FineRun(c, schedule).config) ==> forall key :: OnKey(OpsIn(trace), key) == LeftOnKey(PendingOf(c), order, key)
    decreases |schedule|
  {
    if schedule == [] {
      trace, b := [], a;
      if AllDone(c) {
        forall key ensures LeftOnKey(PendingOf(c), order, key) == [] {
          NothingLeft(PendingOf(c), order, key);
        }
      }
    } else if !Enabled(c, schedule[0]) {
      trace, b := SerialFrom(c, a, order, schedule[1..]);
    } else {
      var t := schedule[0];
      TurnIsExclusive(c, order, t);
      FineStepSimulates(c, a, t);
      StepInTurn(c, order, t);
      var d := FineStep(c, t).config;
      var rest;
      rest, b := SerialFrom(d, CoarseAfter(c, a, t).state, order, schedule[1..]);
      trace := OneMore(c, a, order, t, rest, b);
    }
  }

  // The trace from before a step, given the one from after it.
  lemma OneMore(c: Config, a: State, order: seq<nat>, t: nat, rest: seq<Effect>, b: State) returns (trace: seq<Effect>)
    requires Simulates(c, a) && IsOrder(order, |c.threads|) && Enabled(c, t) && TurnOf(c, order, t) && Exclusive(c, t)
    requires FineStep(c, t).At? && CoarseAfter(c, a, t).Fine? && Reaches(CoarseAfter(c, a, t).state, rest, b)
    ensures Reaches(a, trace, b)
    ensures forall key :: OnKey(OpsIn(rest), key) == LeftOnKey(PendingOf(FineStep(c, t).config), order, key)
                          ==> OnKey(OpsIn(trace), key) == LeftOnKey(PendingOf(c), order, key)
  {
    var op := c.threads[t].todo[0];
    if Commits(c.threads[t].pc, NextPC(c, t)) {
      var e := Effect(op, ChannelFor(c.threads[t].pc, c.shared.next));
      trace := [e] + rest;
      assert Unused(a, e.channel);
      assert OpsIn(trace)[0] == e.op && OpsIn(trace)[1..] == OpsIn(rest);
      assert trace[1..] == rest;
    } else {
      trace := rest;
    }
    forall key | OnKey(OpsIn(rest), key) == LeftOnKey(PendingOf(FineStep(c, t).config), order, key)
      ensures OnKey(OpsIn(trace), key) == LeftOnKey(PendingOf(c), order, key)
    {
      CommitTakesFirst(c, a, order, t, key);
    }
  }

  /** Any number of calls of which those on one kind run one after another, interleaved with the rest map
      operation by map operation: no schedule panics, and when all are done the UID sets and informers are
      those of the calls made in that order. UIDs both added and removed are no exception, nor is the
      AppliedManifestWork kind. */
  lemma SerialCallsInOrder(s: State, threads: seq<seq<Op>>, order: seq<nat>, schedule: seq<nat>)
    requires Consistent(s) && Bounded(s) && IsOrder(order, |threads|) && Serial(Launch(s, threads), order, schedule)
    ensures var r := FineRun(Launch(s, threads), schedule);
            && r.At? && Run(s, Flatten(InOrder(threads, order))).Fine?
            && (AllDone(r.config) ==> SameOutcome(r.config.shared, Run(s, Flatten(InOrder(threads, order))).state))
  {
    LaunchSimulates(s, threads);
    var trace, b := SerialFrom(Launch(s, threads), s, order, schedule);
    var ops := Flatten(InOrder(threads, order));
    RunSafe(s, ops);
    ChannelsDoNotMatter(s, trace, b, s);
    var d := FineRun(Launch(s, threads), schedule).config;
    if AllDone(d) {
      assert forall key :: !Busy(d, key);
      StateOutcome(d.shared, b);
      forall key ensures ShapeAt(b, key) == ShapeAt(Run(s, ops).state, key) {
        RunShape(s, OpsIn(trace), key);
        RunShape(s, ops, key);
        FlattenOnKey(threads, order, key);
        assert ShapeAt(b, key) == ShapeAt(Run(s, OpsIn(trace)).state, key);
      }
      ShapesOutcome(b, Run(s, ops).state);
    }
  }

  lemma ShapesOutcome(s: State, t: State)
    requires forall key :: ShapeAt(s, key) == ShapeAt(t, key)
    ensures SameOutcome(s, t)
  {
    forall key ensures Uids(s.counts, key) == Uids(t.counts, key) && (key in s.informers <==> key in t.informers) {
      assert ShapeAt(s, key) == ShapeAt(t, key);
    }
  }
}
