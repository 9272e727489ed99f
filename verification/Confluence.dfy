// startInformers and stopInformers run concurrently (reconcilers.go starts one as a goroutine and
// calls the other, on four workers). With each loop iteration atomic, the order of the
// iterations does not matter to the outcome.

module Confluence {
  import opened Base
  import opened Schema
  import opened SafeMaps
  import opened Diff
  import opened Index

  type RestMapper = map<GVR, GVK>

  datatype Call =
    | Start(info: AppliedManifestInfo)
    | Stop(info: AppliedManifestInfo)

  /** The iterations of one call: it returns at the first GVR the mapper does not know, and a
      start passes over excluded kinds. */
  function Iterations(mapper: RestMapper, call: Call): seq<Op>
    requires |call.info.gvrs| <= |call.info.uids|
  {
    IterationsFrom(mapper, call, 0)
  }

  function IterationsFrom(mapper: RestMapper, call: Call, i: nat): seq<Op>
    requires i <= |call.info.gvrs| <= |call.info.uids|
    decreases |call.info.gvrs| - i
  {
    if i == |call.info.gvrs| || call.info.gvrs[i] !in mapper then []
    else
      var gvr, uid := call.info.gvrs[i], call.info.uids[i];
      OpsOf(call, gvr, mapper[gvr], uid) + IterationsFrom(mapper, call, i + 1)
  }

  // What one iteration does once the kind is known.
  function OpsOf(call: Call, gvr: GVR, gvk: GVK, uid: string): seq<Op> {
    if call.Stop? then [Remove(KindKey(gvk), uid)]
    else if Excluded(gvk) then []
    else [Add(KindKey(gvk), gvr, uid)]
  }

  // One iteration of a call's run; after is the state it leaves.
  lemma RunIteration(before: State, after: State, mapper: RestMapper, call: Call, i: nat)
    requires i < |call.info.gvrs| <= |call.info.uids| && call.info.gvrs[i] in mapper
    requires var ops := OpsOf(call, call.info.gvrs[i], mapper[call.info.gvrs[i]], call.info.uids[i]);
             if ops == [] then after == before else Step(before, ops[0]) == Fine(after)
    ensures Run(before, IterationsFrom(mapper, call, i)) == Run(after, IterationsFrom(mapper, call, i + 1))
  {
    var ops := OpsOf(call, call.info.gvrs[i], mapper[call.info.gvrs[i]], call.info.uids[i]);
    if ops == [] {
      assert IterationsFrom(mapper, call, i) == IterationsFrom(mapper, call, i + 1);
    } else {
      assert IterationsFrom(mapper, call, i)[1..] == IterationsFrom(mapper, call, i + 1);
    }
  }

  // The loop gets as far as the first GVR the mapper does not know, or to the end.
  predicate GetsTo(mapper: RestMapper, info: AppliedManifestInfo, n: nat) {
    && n <= |info.gvrs| <= |info.uids|
    && (forall i :: 0 <= i < n ==> info.gvrs[i] in mapper)
    && (n < |info.gvrs| ==> info.gvrs[n] !in mapper)
  }

  /** A stop makes one removal for each GVR it gets to, by its kind and with its UID, in order. */
  lemma {:induction false} StopIterations(mapper: RestMapper, call: Call, n: nat, from: nat)
    requires call.Stop? && GetsTo(mapper, call.info, n) && from <= n
    ensures var ops := IterationsFrom(mapper, call, from);
            |ops| == n - from && forall i :: from <= i < n ==>
              ops[i - from] == Remove(KindKey(mapper[call.info.gvrs[i]]), call.info.uids[i])
    decreases n - from
  {
    if from < n {
      StopIterations(mapper, call, n, from + 1);
    }
  }

  /** A start makes one addition for each GVR it gets to whose kind is not excluded, in order. */
  lemma {:induction false} StartIterations(mapper: RestMapper, call: Call, n: nat, from: nat) returns (at: seq<nat>)
    requires call.Start? && GetsTo(mapper, call.info, n) && from <= n
    ensures var ops := IterationsFrom(mapper, call, from);
            && |at| == |ops| && (forall k :: 0 <= k < |at| ==> from <= at[k] < n)
            && (forall j, k :: 0 <= j < k < |at| ==> at[j] < at[k])
            && (forall k :: 0 <= k < |at| ==>
                  ops[k] == Add(KindKey(mapper[call.info.gvrs[at[k]]]), call.info.gvrs[at[k]], call.info.uids[at[k]]))
            && forall i :: from <= i < n ==> (i in at <==> !Excluded(mapper[call.info.gvrs[i]]))
    decreases n - from
  {
    if from == n {
      at := [];
    } else {
      var rest := StartIterations(mapper, call, n, from + 1);
      at := (if Excluded(mapper[call.info.gvrs[from]]) then [] else [from]) + rest;
    }
  }

  // ----- shuffles -----

  ghost predicate IsShuffle(threads: seq<seq<Op>>, run: seq<Op>)
    decreases |run|
  {
    if run == [] then forall i :: 0 <= i < |threads| ==> threads[i] == []
    else exists i :: 0 <= i < |threads| && threads[i] != [] && threads[i][0] == run[0]
                     && IsShuffle(threads[i := threads[i][1..]], run[1..])
  }

  // running the calls one after another
  function Flatten(threads: seq<seq<Op>>): seq<Op> {
    if threads == [] then [] else threads[0] + Flatten(threads[1..])
  }

  lemma {:induction false} ShuffleElements(threads: seq<seq<Op>>, run: seq<Op>, op: Op)
    requires IsShuffle(threads, run)
    ensures op in run <==> exists i :: 0 <= i < |threads| && op in threads[i]
    decreases |run|
  {
    if run != [] {
      var j :| 0 <= j < |threads| && threads[j] != [] && threads[j][0] == run[0]
               && IsShuffle(threads[j := threads[j][1..]], run[1..]);
      var rest := threads[j := threads[j][1..]];
      ShuffleElements(rest, run[1..], op);
      assert threads[j] == [run[0]] + rest[j];
      assert run == [run[0]] + run[1..];
      if op in run && op != run[0] {
        var i :| 0 <= i < |rest| && op in rest[i];
        assert op in threads[i];
      }
      if i :| 0 <= i < |threads| && op in threads[i] {
        assert op == run[0] || op in rest[i];
      }
    }
  }

  lemma SequentialIsShuffle(threads: seq<seq<Op>>)
    ensures IsShuffle(threads, Flatten(threads))
    decreases |threads|
  {
    SequentialFrom(threads, 0);
    assert threads[0..] == threads;
  }

  lemma {:induction false} SequentialFrom(threads: seq<seq<Op>>, from: nat)
    requires from <= |threads| && forall i :: 0 <= i < from ==> threads[i] == []
    ensures IsShuffle(threads, Flatten(threads[from..]))
    decreases |threads| - from, if from < |threads| then |threads[from]| else 0
  {
    if from < |threads| {
      var run := Flatten(threads[from..]);
      assert threads[from..][1..] == threads[from + 1..];
      if threads[from] == [] {
        SequentialFrom(threads, from + 1);
        assert run == Flatten(threads[from + 1..]);
      } else {
        var rest := threads[from := threads[from][1..]];
        SequentialFrom(rest, from);
        assert rest[from..][1..] == threads[from + 1..];
        assert run == threads[from] + Flatten(threads[from + 1..]);
        assert Flatten(rest[from..]) == threads[from][1..] + Flatten(threads[from + 1..]) == run[1..];
      }
    }
  }

  // ----- the outcome of a run, without its order -----

  function AddedTo(ops: seq<Op>, key: string): set<string> {
    set op | op in ops && op.Add? && op.key == key :: op.uid
  }

  function RemovedFrom(ops: seq<Op>, key: string): set<string> {
    set op | op in ops && op.Remove? && op.key == key :: op.uid
  }

  ghost predicate NoConflict(ops: seq<Op>) {
    forall key :: AddedTo(ops, key) !! RemovedFrom(ops, key)
  }

  /** One iteration on the UID sets. Skipping a removal when no informer is registered loses
      nothing, because the set is then empty. */
  lemma StepUids(s: State, op: Op, key: string)
    requires Consistent(s) && Bounded(s) && key != AW_KEY
    ensures Step(s, op).Fine?
    ensures Uids(Step(s, op).state.counts, key) == Uids(s.counts, key) + AddedTo([op], key) - RemovedFrom([op], key)
  {
    SingleOp(op, key);
    UidsAfter(s, op, key);
  }

  lemma UidsAfter(s: State, op: Op, key: string)
    requires Consistent(s) && Bounded(s) && key != AW_KEY
    ensures Step(s, op).Fine?
    ensures var before, after := Uids(s.counts, key), Uids(Step(s, op).state.counts, key);
            after == if op.key != key then before else if op.Add? then before + {op.uid} else before - {op.uid}
  {
    assert Step(s, op).Fine? by {
      StepSafe(s, op);
    }
    if op.key != key {
      StepFrame(s, op, s.next, key);
      assert ViewAt(Step(s, op).state, key) == ViewAt(s, key);
    } else {
      OwnUids(s, op);
    }
  }

  lemma OwnUids(s: State, op: Op)
    requires Agreement(s) && Step(s, op).Fine? && op.key != AW_KEY
    ensures var before, after := Uids(s.counts, op.key), Uids(Step(s, op).state.counts, op.key);
            after == if op.Add? then before + {op.uid} else before - {op.uid}
  {
    if op.Remove? && op.key !in s.informers {
      assert Step(s, op) == Fine(s) && Uids(s.counts, op.key) == {};
    } else {
      CountsAfter(s, op);
    }
  }

  lemma CountsAfter(s: State, op: Op)
    requires Step(s, op).Fine? && (op.Remove? ==> op.key in s.informers)
    ensures Step(s, op).state.counts == if op.Add? then Added(s.counts, op.key, op.uid) else Removed(s.counts, op.key, op.uid)
  {
    match op
    case Add(key, gvr, uid) =>
      assert Step(s, op).state.counts == AddStep(s, key, gvr, uid, s.next).counts;
    case Remove(key, uid) =>
      assert Step(s, op) == RemoveStep(s, key, uid);
  }

  lemma SingleOp(op: Op, key: string)
    ensures AddedTo([op], key) == if op.Add? && op.key == key then {op.uid} else {}
    ensures RemovedFrom([op], key) == if op.Remove? && op.key == key then {op.uid} else {}
  {
    assert op in [op];
  }

  lemma SplitOps(ops: seq<Op>, key: string)
    requires ops != []
    ensures AddedTo(ops, key) == AddedTo([ops[0]], key) + AddedTo(ops[1..], key)
    ensures RemovedFrom(ops, key) == RemovedFrom([ops[0]], key) + RemovedFrom(ops[1..], key)
  {
    assert ops == [ops[0]] + ops[1..];
    assert forall op :: op in ops <==> op in [ops[0]] || op in ops[1..];
  }

  lemma StepUid(s: State, op: Op, key: string, uid: string)
    requires Consistent(s) && Bounded(s) && key != AW_KEY
    ensures Step(s, op).Fine?
    ensures uid in Uids(Step(s, op).state.counts, key)
       <==> if op.key == key && op.uid == uid then op.Add? else uid in Uids(s.counts, key)
  {
    UidsAfter(s, op, key);
  }

  function LastOn(ops: seq<Op>, key: string, uid: string): Option<Op>
    decreases |ops|
  {
    if ops == [] then None
    else
      match LastOn(ops[1..], key, uid)
      case Some(op) => Some(op)
      case None => if ops[0].key == key && ops[0].uid == uid then Some(ops[0]) else None
  }

  /** The UID sets any run ends with: the last iteration on a UID decides. */
  lemma {:induction false} RunUidsExact(s: State, ops: seq<Op>, key: string, uid: string)
    requires Consistent(s) && Bounded(s) && key != AW_KEY
    ensures Run(s, ops).Fine?
    ensures uid in Uids(Run(s, ops).state.counts, key) <==>
              match LastOn(ops, key, uid)
              case None => uid in Uids(s.counts, key)
              case Some(op) => op.Add?
    decreases |ops|
  {
    if ops != [] {
      StepSafe(s, ops[0]);
      StepUid(s, ops[0], key, uid);
      RunUidsExact(Step(s, ops[0]).state, ops[1..], key, uid);
    }
  }

  /** The UID sets a conflict-free run ends with: what was there and what was added, less what
      was removed. */
  lemma {:induction false} RunUids(s: State, ops: seq<Op>, key: string)
    requires Consistent(s) && Bounded(s) && key != AW_KEY && NoConflict(ops)
    ensures Run(s, ops).Fine?
    ensures Uids(Run(s, ops).state.counts, key) == Uids(s.counts, key) + AddedTo(ops, key) - RemovedFrom(ops, key)
    decreases |ops|
  {
    if ops != [] {
      StepUids(s, ops[0], key);
      StepSafe(s, ops[0]);
      TailNoConflict(ops);
      RunUids(Step(s, ops[0]).state, ops[1..], key);
      SplitOps(ops, key);
      AddThenRemove(Uids(s.counts, key), AddedTo([ops[0]], key), RemovedFrom([ops[0]], key),
                    AddedTo(ops[1..], key), RemovedFrom(ops[1..], key));
    }
  }

  lemma TailNoConflict(ops: seq<Op>)
    requires ops != [] && NoConflict(ops)
    ensures NoConflict(ops[1..])
  {
    forall k ensures AddedTo(ops[1..], k) !! RemovedFrom(ops[1..], k) {
      SplitOps(ops, k);
      assert AddedTo(ops, k) !! RemovedFrom(ops, k);
    }
  }

  lemma AddThenRemove(u: set<string>, a: set<string>, r: set<string>, a': set<string>, r': set<string>)
    requires a + a' !! r + r'
    ensures u + a - r + a' - r' == u + (a + a') - (r + r')
  {
  }

  // ----- one kind at a time -----

  // What a kind's entries come to: its UIDs, and whether it has an informer.
  datatype Shape = Shape(uids: set<string>, watched: bool)

  function ShapeAt(s: State, key: string): Shape {
    Shape(Uids(s.counts, key), key in s.informers)
  }

  function ShapeStep(v: Shape, op: Op): Shape {
    match op
    case Add(_, _, uid) => Shape(v.uids + {uid}, v.watched || |v.uids + {uid}| == 1)
    case Remove(_, uid) => if v.watched then Shape(v.uids - {uid}, |v.uids - {uid}| != 0) else v
  }

  function ShapeRun(v: Shape, ops: seq<Op>): Shape
    decreases |ops|
  {
    if ops == [] then v else ShapeRun(ShapeStep(v, ops[0]), ops[1..])
  }

  // the iterations on one kind
  function OnKey(ops: seq<Op>, key: string): seq<Op>
    decreases |ops|
  {
    if ops == [] then [] else (if ops[0].key == key then [ops[0]] else []) + OnKey(ops[1..], key)
  }

  lemma AddedShape(s: State, op: Op)
    requires op.Add?
    ensures Step(s, op).Fine? && ShapeAt(Step(s, op).state, op.key) == ShapeStep(ShapeAt(s, op.key), op)
  {
  }

  lemma RemovedShape(s: State, op: Op)
    requires op.Remove? && Step(s, op).Fine?
    ensures ShapeAt(Step(s, op).state, op.key) == ShapeStep(ShapeAt(s, op.key), op)
  {
  }

  lemma OneShape(s: State, op: Op, key: string)
    requires Step(s, op).Fine?
    ensures ShapeAt(Step(s, op).state, key) == if op.key == key then ShapeStep(ShapeAt(s, key), op) else ShapeAt(s, key)
  {
    if op.key != key {
      StepFrame(s, op, s.next, key);
      assert ViewAt(Step(s, op).state, key) == ViewAt(s, key);
    } else if op.Add? {
      AddedShape(s, op);
    } else {
      RemovedShape(s, op);
    }
  }

  /** What a run makes of a kind depends on its iterations on that kind alone. */
  lemma {:induction false} RunShape(s: State, ops: seq<Op>, key: string)
    requires Consistent(s) && Bounded(s)
    ensures Run(s, ops).Fine? && ShapeAt(Run(s, ops).state, key) == ShapeRun(ShapeAt(s, key), OnKey(ops, key))
    decreases |ops|
  {
    if ops != [] {
      StepSafe(s, ops[0]);
      OneShape(s, ops[0], key);
      RunShape(Step(s, ops[0]).state, ops[1..], key);
      if ops[0].key == key {
        assert OnKey(ops, key)[1..] == OnKey(ops[1..], key);
      } else {
        assert OnKey(ops, key) == OnKey(ops[1..], key);
      }
    }
  }

  ghost predicate SameOutcome(s: State, t: State) {
    s.informers.Keys == t.informers.Keys && forall key :: Uids(s.counts, key) == Uids(t.counts, key)
  }

  /** Any two shuffles of the same iterations end with the same UID sets and the same kinds
      having an informer. */
  lemma ShufflesAgree(s: State, threads: seq<seq<Op>>, run: seq<Op>, run': seq<Op>)
    requires Consistent(s) && Bounded(s)
    requires IsShuffle(threads, run) && IsShuffle(threads, run')
    requires AvoidsAw(run) && NoConflict(run)
    ensures Run(s, run).Fine? && Run(s, run').Fine?
    ensures SameOutcome(Run(s, run).state, Run(s, run').state)
  {
    forall op ensures op in run <==> op in run' {
      ShuffleElements(threads, run, op);
      ShuffleElements(threads, run', op);
    }
    forall key ensures AddedTo(run, key) == AddedTo(run', key) && RemovedFrom(run, key) == RemovedFrom(run', key) {}
    RunSafe(s, run);
    RunSafe(s, run');
    RunKeepsAwView(s, run);
    assert forall i :: 0 <= i < |run'| ==> run'[i] in run;
    RunKeepsAwView(s, run');
    var t, t' := Run(s, run).state, Run(s, run').state;
    forall key ensures Uids(t.counts, key) == Uids(t'.counts, key) && (key in t.informers <==> key in t'.informers) {
      if key == AW_KEY {
        assert ViewAt(t, AW_KEY) == ViewAt(t', AW_KEY);
      } else {
        assert NoConflict(run');
        RunUids(s, run, key);
        RunUids(s, run', key);
      }
    }
  }

  function ThreadsOf(mapper: RestMapper, calls: seq<Call>): seq<seq<Op>>
    requires forall i :: 0 <= i < |calls| ==> |calls[i].info.gvrs| <= |calls[i].info.uids|
  {
    seq(|calls|, i requires 0 <= i < |calls| => Iterations(mapper, calls[i]))
  }

  /** Whatever way the iterations of any number of startInformers and stopInformers calls are
      interleaved, the outcome is that of making the calls one after another. */
  lemma InterleavingIsSequential(s: State, mapper: RestMapper, calls: seq<Call>, run: seq<Op>)
    requires Consistent(s) && Bounded(s)
    requires forall i :: 0 <= i < |calls| ==> |calls[i].info.gvrs| <= |calls[i].info.uids|
    requires IsShuffle(ThreadsOf(mapper, calls), run) && AvoidsAw(run) && NoConflict(run)
    ensures Run(s, run).Fine? && Run(s, Flatten(ThreadsOf(mapper, calls))).Fine?
    ensures SameOutcome(Run(s, run).state, Run(s, Flatten(ThreadsOf(mapper, calls))).state)
  {
    SequentialIsShuffle(ThreadsOf(mapper, calls));
    ShufflesAgree(s, ThreadsOf(mapper, calls), run, Flatten(ThreadsOf(mapper, calls)));
  }

  /** With a UID both added and removed the order does matter. */
  lemma ConflictingOrderMatters(key: string, gvr: GVR, uid: string)
    requires key != AW_KEY
    ensures var add, remove := Add(key, gvr, uid), Remove(key, uid);
            && Run(BOOTED, [add, remove]).Fine? && Run(BOOTED, [remove, add]).Fine?
            && key !in Run(BOOTED, [add, remove]).state.informers
            && key in Run(BOOTED, [remove, add]).state.informers
  {
    var add, remove := Add(key, gvr, uid), Remove(key, uid);
    BootedConsistent();
    RunSafe(BOOTED, [add, remove]);
    RunSafe(BOOTED, [remove, add]);
    StepSafe(BOOTED, add);
    StepSafe(BOOTED, remove);
    StepUids(BOOTED, add, key);
    StepUids(BOOTED, remove, key);
    var a, r := Step(BOOTED, add).state, Step(BOOTED, remove).state;
    StepUids(a, remove, key);
    StepUids(r, add, key);
    assert add in [add] && remove in [remove];
    assert [add, remove][1..] == [remove] && [remove, add][1..] == [add];
    assert Run(BOOTED, [add, remove]) == Run(a, [remove]) == Step(a, remove);
    assert Run(BOOTED, [remove, add]) == Run(r, [add]) == Step(r, add);
  }
}
