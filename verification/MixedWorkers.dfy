// Workers in the middle of handleWorkStatus for one WorkStatus, some for the live object and some for the
// deleted one: the queue keeps a plain key and a deletion key apart, so two workers can hold both.

module MixedWorkers {
  import opened Base
  import opened Schema
  import opened Objects
  import H = Hub
  import opened WorkStatuses
  import opened Workers
  import opened Collisions

  // Each attempt has its own object and its own view of the listers.
  datatype Attempt = Attempt(task: Task, pc: PC)
  datatype Floor = Floor(hub: H.State, attempts: seq<Attempt>)

  predicate AllAbout(attempts: seq<Attempt>, key: H.ObjectKey) {
    forall a :: a in attempts ==> a.task.Key() == key
  }

  ghost function MoveOne(c: Floor, m: Move): Floor
    requires m.worker < |c.attempts|
  {
    var a := c.attempts[m.worker];
    var r := CallStep(a.task, c.hub, a.pc, m.fault);
    Floor(r.hub, c.attempts[m.worker := a.(pc := r.pc)])
  }

  ghost predicate CanMove(c: Floor, moves: seq<Move>) {
    forall i :: 0 <= i < |moves| ==> moves[i].worker < |c.attempts|
  }

  ghost function MoveAll(c: Floor, moves: seq<Move>): Floor
    requires CanMove(c, moves)
    decreases |moves|
  {
    if moves == [] then c else MoveAll(MoveOne(c, moves[0]), moves[1..])
  }

  // ----- which call decides -----

  datatype Effect = Made | Gone

  // A Create that went through, or a Delete that found something to delete.
  function EffectOf(h: H.State, a: Attempt, fault: H.Fault): Option<Effect> {
    if a.pc.Creating? && fault != H.FailsBefore && a.task.Key() !in h.workStatuses then Some(Made)
    else if a.pc.Deleting? && fault != H.FailsBefore && a.task.Key() in h.workStatuses then Some(Gone)
    else None
  }

  ghost function LastEffect(c: Floor, moves: seq<Move>): Option<Effect>
    requires CanMove(c, moves)
    decreases |moves|
  {
    if moves == [] then None
    else
      match LastEffect(MoveOne(c, moves[0]), moves[1..])
      case Some(e) => Some(e)
      case None => EffectOf(c.hub, c.attempts[moves[0].worker], moves[0].fault)
  }

  lemma MovePresence(c: Floor, m: Move, key: H.ObjectKey)
    requires m.worker < |c.attempts| && AllAbout(c.attempts, key)
    ensures AllAbout(MoveOne(c, m).attempts, key)
    ensures key in MoveOne(c, m).hub.workStatuses <==>
              match EffectOf(c.hub, c.attempts[m.worker], m.fault)
              case Some(e) => e == Made
              case None => key in c.hub.workStatuses
  {
    assert c.attempts[m.worker] in c.attempts;
    forall a | a in MoveOne(c, m).attempts ensures a.task.Key() == key {
      var i :| 0 <= i < |c.attempts| && MoveOne(c, m).attempts[i] == a;
      assert c.attempts[i] in c.attempts && a.task == c.attempts[i].task;
    }
  }

  /** However live and deletion attempts are interleaved and whatever calls fail: the WorkStatus is there
      in the end iff the last Create or Delete that took effect is a Create, or none did and it was there. */
  lemma {:induction false} LastEffectDecides(c: Floor, moves: seq<Move>, key: H.ObjectKey)
    requires CanMove(c, moves) && AllAbout(c.attempts, key)
    ensures key in MoveAll(c, moves).hub.workStatuses <==>
              match LastEffect(c, moves)
              case Some(e) => e == Made
              case None => key in c.hub.workStatuses
    decreases |moves|
  {
    if moves != [] {
      MovePresence(c, moves[0], key);
      LastEffectDecides(MoveOne(c, moves[0]), moves[1..], key);
    }
  }

  // ----- a WorkStatus left behind -----

  predicate Unfailing(moves: seq<Move>) {
    forall m :: m in moves ==> m.fault == H.NoFault
  }

  lemma {:induction false} MoveLast(c: Floor, moves: seq<Move>, m: Move)
    requires CanMove(c, moves) && m.worker < |c.attempts|
    ensures CanMove(c, moves + [m]) && |MoveAll(c, moves).attempts| == |c.attempts|
    ensures MoveAll(c, moves + [m]) == MoveOne(MoveAll(c, moves), m)
    decreases |moves|
  {
    if moves == [] {
      assert moves + [m] == [m] && [m][1..] == [];
    } else {
      assert (moves + [m])[0] == moves[0] && (moves + [m])[1..] == moves[1..] + [m];
      MoveLast(MoveOne(c, moves[0]), moves[1..], m);
    }
  }

  // One more move, which does not fail.
  lemma Then(c: Floor, moves: seq<Move>, t: Floor, worker: nat) returns (longer: seq<Move>, u: Floor)
    requires CanMove(c, moves) && Unfailing(moves) && MoveAll(c, moves) == t && worker < |c.attempts|
    ensures CanMove(c, longer) && Unfailing(longer) && MoveAll(c, longer) == u
    ensures worker < |t.attempts| && u == MoveOne(t, Move(worker, H.NoFault))
  {
    MoveLast(c, moves, Move(worker, H.NoFault));
    longer, u := moves + [Move(worker, H.NoFault)], MoveOne(t, Move(worker, H.NoFault));
  }

  // What the live attempt is to find when it looks at an absent WorkStatus.
  ghost predicate CouldMake(live: Task, h: H.State) {
    && !live.isBeingDeleted && StandingOf(live.env, h, live.aw, live.obj).Creatable?
    && GetObjectStatusAsBytes(live.obj).Some?
  }

  ghost function ToMake(live: Task, h: H.State): H.WorkStatus
    requires CouldMake(live, h)
  {
    var standing := StandingOf(live.env, h, live.aw, live.obj);
    NewWorkStatus(standing.mw, live.aw, live.obj, standing.gvr)
  }

  ghost function Pair(live: Task, p: PC, gone: Task, q: PC, h: H.State): Floor {
    Floor(h, [Attempt(live, p), Attempt(gone, q)])
  }

  // The live attempt finds nothing and fetches the ManifestWork.
  lemma LooksInVain(live: Task, gone: Task, h: H.State) returns (moves: seq<Move>)
    requires CouldMake(live, h)
    ensures var c := Pair(live, Getting, gone, Getting, h);
            && CanMove(c, moves) && Unfailing(moves)
            && MoveAll(c, moves) == Pair(live, Creating(ToMake(live, h)), gone, Getting, h)
  {
    var c := Pair(live, Getting, gone, Getting, h);
    var t;
    moves, t := Then(c, [], c, 0);
    assert t == Pair(live, GettingManifestWork, gone, Getting, h);
    moves, t := Then(c, moves, t, 0);
  }

  // The deletion, with nothing to delete, runs to its end.
  lemma DeletesTooEarly(c: Floor, before: seq<Move>, live: Task, p: PC, gone: Task, h: H.State) returns (moves: seq<Move>)
    requires CanMove(c, before) && Unfailing(before) && MoveAll(c, before) == Pair(live, p, gone, Getting, h) && |c.attempts| == 2
    requires gone.isBeingDeleted && gone.Key() !in h.workStatuses
    ensures CanMove(c, moves) && Unfailing(moves) && MoveAll(c, moves) == Pair(live, p, gone, Over(true), h)
  {
    var t;
    moves, t := Then(c, before, Pair(live, p, gone, Getting, h), 1);
    assert t == Pair(live, p, gone, Deleting, h);
    moves, t := Then(c, moves, t, 1);
  }

  // The live attempt makes the WorkStatus, which has the singleton label it should have.
  lemma MakesLate(live: Task, gone: Task, q: PC, h: H.State)
    requires CouldMake(live, h)
    ensures var ws := ToMake(live, h);
            var made := H.Create(h, live.Key(), ws, H.NoFault).hub;
            && live.Key() in made.workStatuses
            && MoveOne(Pair(live, Creating(ws), gone, q, h), Move(0, H.NoFault)) == Pair(live, Labelling(ws), gone, q, made)
            && MoveOne(Pair(live, Labelling(ws), gone, q, made), Move(0, H.NoFault)) == Pair(live, Updating, gone, q, made)
  {
    var ws := ToMake(live, h);
    LabelsSettled(ws.labels, live.obj);
    assert WithSingleton(ws.labels, live.obj) == ws.labels;
  }

  lemma ReportsLate(live: Task, gone: Task, q: PC, h: H.State)
    requires live.Key() in h.workStatuses && GetObjectStatusAsBytes(live.obj).Some?
    ensures var t := MoveOne(Pair(live, Updating, gone, q, h), Move(0, H.NoFault));
            live.Key() in t.hub.workStatuses && t.attempts == [Attempt(live, Over(true)), Attempt(gone, q)]
  {
  }

  // The live attempt goes on as if nothing had happened.
  lemma MakesLast(c: Floor, before: seq<Move>, live: Task, gone: Task, q: PC, h: H.State) returns (moves: seq<Move>)
    requires CouldMake(live, h) && CanMove(c, before) && Unfailing(before) && |c.attempts| == 2
    requires MoveAll(c, before) == Pair(live, Creating(ToMake(live, h)), gone, q, h)
    ensures CanMove(c, moves) && Unfailing(moves) && live.Key() in MoveAll(c, moves).hub.workStatuses
    ensures MoveAll(c, moves).attempts == [Attempt(live, Over(true)), Attempt(gone, q)]
  {
    MakesLate(live, gone, q, h);
    var t;
    moves, t := Then(c, before, MoveAll(c, before), 0);
    moves, t := Then(c, moves, t, 0);
    ReportsLate(live, gone, q, t.hub);
    moves, t := Then(c, moves, t, 0);
  }

  /** A live attempt that has seen no WorkStatus yet, overtaken by the deletion of its object: no call
      fails, both attempts end well, so that no key is left, and the gone object has a WorkStatus. */
  lemma StaleCreateSurvives(live: Task, gone: Task, h: H.State) returns (moves: seq<Move>)
    requires CouldMake(live, h) && gone.isBeingDeleted && live.Key() == gone.Key()
    ensures var c := Pair(live, Getting, gone, Getting, h);
            && CanMove(c, moves) && Unfailing(moves)
            && MoveAll(c, moves).attempts == [Attempt(live, Over(true)), Attempt(gone, Over(true))]
            && live.Key() in MoveAll(c, moves).hub.workStatuses
  {
    var c := Pair(live, Getting, gone, Getting, h);
    moves := LooksInVain(live, gone, h);
    moves := DeletesTooEarly(c, moves, live, Creating(ToMake(live, h)), gone, h);
    moves := MakesLast(c, moves, live, gone, Over(true), h);
  }

  /** It can happen to any object in any proper scene: the live attempt has read its cache before the
      object went, the deletion attempt after. */
  lemma AnyObjectCanBeOvertaken(sc: Scene, obj: Object)
    requires sc.Proper() && SlashFree(obj.namespace) && SlashFree(obj.name)
    requires obj.status.Some? && obj == Workload(sc.gvk, sc.owner, obj.namespace, obj.name, obj.status.value)
    ensures var store, aw := map[MetaNamespaceKey(obj.namespace, obj.name) := obj], sc.Owner();
            var live, gone := Task(sc.Env(store), aw, obj, false), Task(sc.Env(map[]), aw, CopyObjectMetaAndType(obj), true);
            && GetAppliedManifestWork(live.obj, live.env.listers, live.env.cluster) == Some(aw)
            && GetAppliedManifestWork(gone.obj, gone.env.listers, gone.env.cluster) == Some(aw)
            && CouldMake(live, sc.Hub()) && live.Key() == gone.Key()
  {
    var store := map[MetaNamespaceKey(obj.namespace, obj.name) := obj];
    SceneOwner(sc, store, obj);
    SceneOwner(sc, map[], CopyObjectMetaAndType(obj));
    SceneManaged(sc);
  }
}
