// Several workers inside handleWorkStatus for the same object at once, interleaved hub call by hub
// call, each call failing or not.

module Workers {
  import opened Base
  import opened Objects
  import H = Hub
  import opened WorkStatuses
  import opened Retry
  import opened Outcomes

  // Where an attempt is, named after the call it makes next.
  datatype PC =
    | Getting
    | Deleting
    | GettingManifestWork
    | Creating(ws: H.WorkStatus)
    | Labelling(ws: H.WorkStatus)
    | Updating
    | Over(ok: bool)

  // What all attempts are about.
  datatype Task = Task(env: Env, aw: AppliedManifestWork, obj: Object, isBeingDeleted: bool) {
    function Key(): H.ObjectKey {
      WorkStatusKey(env, aw, obj)
    }

    ghost function Goal(h: H.State): H.State {
      if isBeingDeleted then h.(workStatuses := h.workStatuses - {Key()}) else WorkStatuses.Goal(env, h, aw, obj)
    }

    ghost predicate Attainable(h: H.State) {
      isBeingDeleted || WorkStatuses.Attainable(env, h, aw, obj)
    }
  }

  datatype Moved = Moved(hub: H.State, pc: PC)

  /** The next call of an attempt, or the decision to end it. */
  ghost function CallStep(task: Task, h: H.State, pc: PC, fault: H.Fault): Moved {
    match pc
    case Getting => GetStep(task, h, fault)
    case Deleting => Moved(H.Delete(h, task.Key(), fault).hub, Over(true))
    case GettingManifestWork => ManifestWorkStep(task, h, fault)
    case Creating(ws) =>
      var created := H.Create(h, task.Key(), ws, fault);
      Moved(created.hub, if created.error.Some? then Over(false) else Labelling(ws))
    case Labelling(ws) => LabelStep(task, h, ws, fault)
    case Updating =>
      (match GetObjectStatusAsBytes(task.obj)
       case None => Moved(h, Over(false))
       case Some(status) =>
         var updated := H.UpdateStatus(h, task.Key(), status, fault);
         Moved(updated.hub, Over(updated.error.None?)))
    case Over(_) => Moved(h, pc)
  }

  function GetStep(task: Task, h: H.State, fault: H.Fault): Moved {
    match H.Fetch(h.workStatuses, task.Key(), fault)
    case Got(ws) => Moved(h, if task.isBeingDeleted then Deleting else Labelling(ws))
    case NotGot(NotFound) => Moved(h, if task.isBeingDeleted then Deleting else GettingManifestWork)
    case NotGot(_) => Moved(h, Over(false))
  }

  ghost function ManifestWorkStep(task: Task, h: H.State, fault: H.Fault): Moved {
    match H.Fetch(h.manifestWorks, ManifestWorkKey(task.env, task.aw), fault)
    case NotGot(_) => Moved(h, Over(false))
    case Got(mw) =>
      if !KubeStellarManaged(mw.labels) then Moved(h, Over(true))
      else if task.obj.gvk !in task.env.gvrFor then Moved(h, Over(false))
      else Moved(h, Creating(NewWorkStatus(mw, task.aw, task.obj, task.env.gvrFor[task.obj.gvk])))
  }

  // Whether to patch is decided by the WorkStatus as this attempt has seen it.
  function LabelStep(task: Task, h: H.State, ws: H.WorkStatus, fault: H.Fault): Moved {
    if SINGLETON_LABEL in task.obj.labels && Find(ws.labels, SINGLETON_LABEL) != Some(task.obj.labels[SINGLETON_LABEL]) then
      var patched := H.PatchLabel(h, task.Key(), SINGLETON_LABEL, task.obj.labels[SINGLETON_LABEL], fault);
      Moved(patched.hub, if patched.error.Some? then Over(false) else Updating)
    else Moved(h, Updating)
  }

  /** It is what the attempt has seen that decides about the patch, whatever the hub has by now. */
  lemma SeenLabelsDecide(task: Task, h: H.State, ws: H.WorkStatus, fault: H.Fault)
    ensures var m := CallStep(task, h, Labelling(ws), fault);
            if NeedsPatch(ws.labels, task.obj) then
              var p := H.PatchLabel(h, task.Key(), SINGLETON, task.obj.labels[SINGLETON], fault);
              m == Moved(p.hub, if p.error.None? then Updating else Over(false))
            else m == Moved(h, Updating)
  {
  }

  // ----- one attempt alone is handleWorkStatus -----

  function FaultFor(pc: PC, f: Faults): H.Fault {
    match pc
    case Getting => f.get
    case Deleting => f.delete
    case GettingManifestWork => f.getManifestWork
    case Creating(_) => f.create
    case Labelling(_) => f.patch
    case Updating => f.update
    case Over(_) => H.NoFault
  }

  function Rank(pc: PC): nat {
    match pc
    case Getting => 5
    case GettingManifestWork => 4
    case Creating(_) => 3
    case Labelling(_) => 2
    case Updating => 1
    case Deleting => 1
    case Over(_) => 0
  }

  lemma CallStepEnds(task: Task, h: H.State, pc: PC, fault: H.Fault)
    requires !pc.Over?
    ensures Rank(CallStep(task, h, pc, fault).pc) < Rank(pc)
  {
  }

  ghost function Alone(task: Task, h: H.State, pc: PC, f: Faults): Handled
    decreases Rank(pc)
  {
    if pc.Over? then Handled(h, pc.ok)
    else
      CallStepEnds(task, h, pc, FaultFor(pc, f));
      var m := CallStep(task, h, pc, FaultFor(pc, f));
      Alone(task, m.hub, m.pc, f)
  }

  lemma AloneReports(task: Task, h: H.State, f: Faults)
    ensures Alone(task, h, Updating, f) == Report(h, task.Key(), task.obj, f)
  {
    var m := CallStep(task, h, Updating, f.update);
    assert m.pc.Over? && Alone(task, h, Updating, f) == Alone(task, m.hub, m.pc, f);
  }

  lemma AloneLabels(task: Task, h: H.State, ws: H.WorkStatus, f: Faults)
    ensures Alone(task, h, Labelling(ws), f) == LabelAndReport(h, task.Key(), ws, task.obj, f)
  {
    var m := CallStep(task, h, Labelling(ws), f.patch);
    assert Alone(task, h, Labelling(ws), f) == Alone(task, m.hub, m.pc, f);
    AloneReports(task, m.hub, f);
  }

  lemma AloneMakes(task: Task, h: H.State, ws: H.WorkStatus, f: Faults)
    ensures Alone(task, h, Creating(ws), f)
         == var created := H.Create(h, task.Key(), ws, f.create);
            if created.error.Some? then Handled(created.hub, false) else LabelAndReport(created.hub, task.Key(), ws, task.obj, f)
  {
    var m := CallStep(task, h, Creating(ws), f.create);
    assert Alone(task, h, Creating(ws), f) == Alone(task, m.hub, m.pc, f);
    AloneLabels(task, m.hub, ws, f);
  }

  /** Left to itself an attempt does what handleWorkStatus does in one go. */
  lemma AloneIsHandle(task: Task, h: H.State, f: Faults)
    requires GetAppliedManifestWork(task.obj, task.env.listers, task.env.cluster) == Some(task.aw)
    ensures Alone(task, h, Getting, f) == HandleWorkStatus(task.env, h, task.obj, task.isBeingDeleted, f)
  {
    var m := CallStep(task, h, Getting, f.get);
    assert Alone(task, h, Getting, f) == Alone(task, m.hub, m.pc, f);
    if m.pc.Deleting? {
      var d := CallStep(task, h, Deleting, f.delete);
      assert Alone(task, h, Deleting, f) == Alone(task, d.hub, d.pc, f);
    } else if m.pc.Labelling? {
      AloneLabels(task, h, m.pc.ws, f);
    } else if m.pc.GettingManifestWork? {
      var w := CallStep(task, h, GettingManifestWork, f.getManifestWork);
      assert Alone(task, h, GettingManifestWork, f) == Alone(task, w.hub, w.pc, f);
      if w.pc.Creating? {
        AloneMakes(task, h, w.pc.ws, f);
      }
    }
  }

  // ----- any number of attempts -----

  datatype Config = Config(hub: H.State, attempts: seq<PC>)
  datatype Move = Move(worker: nat, fault: H.Fault)

  // The one failure handleWorkStatus does not notice.
  predicate GetsThrough(pc: PC, fault: H.Fault) {
    pc.Deleting? ==> fault != H.FailsBefore
  }

  ghost predicate IsInterleaving(task: Task, c: Config, moves: seq<Move>)
    decreases |moves|
  {
    moves != [] ==>
      && moves[0].worker < |c.attempts| && GetsThrough(c.attempts[moves[0].worker], moves[0].fault)
      && IsInterleaving(task, Next(task, c, moves[0]), moves[1..])
  }

  ghost function Next(task: Task, c: Config, m: Move): Config
    requires m.worker < |c.attempts|
  {
    var r := CallStep(task, c.hub, c.attempts[m.worker], m.fault);
    Config(r.hub, c.attempts[m.worker := r.pc])
  }

  ghost function Interleave(task: Task, c: Config, moves: seq<Move>): Config
    requires IsInterleaving(task, c, moves)
    decreases |moves|
  {
    if moves == [] then c else Interleave(task, Next(task, c, moves[0]), moves[1..])
  }

  ghost predicate Labelled(task: Task, labels: H.Labels) {
    WithSingleton(labels, task.obj) == labels
  }

  ghost predicate Managed(task: Task, h: H.State) {
    ManifestWorkKey(task.env, task.aw) in h.manifestWorks
    && KubeStellarManaged(h.manifestWorks[ManifestWorkKey(task.env, task.aw)].labels)
  }

  /** What an attempt may rely on at its point, whatever the others do: a WorkStatus it has seen is
      still there, and a singleton label it has found or set still is as it should be. */
  ghost predicate Relies(task: Task, start: H.State, h: H.State, pc: PC) {
    match pc
    case Getting => true
    case Deleting => task.isBeingDeleted
    case GettingManifestWork => !task.isBeingDeleted && (task.Key() in h.workStatuses ==> Managed(task, h))
    case Creating(ws) =>
      && !task.isBeingDeleted
      && Managed(task, h) && task.obj.gvk in task.env.gvrFor
      && ws == NewWorkStatus(h.manifestWorks[ManifestWorkKey(task.env, task.aw)], task.aw, task.obj, task.env.gvrFor[task.obj.gvk])
    case Labelling(ws) =>
      && !task.isBeingDeleted && task.Key() in h.workStatuses
      && (Labelled(task, ws.labels) ==> Labelled(task, h.workStatuses[task.Key()].labels))
    case Updating =>
      !task.isBeingDeleted && task.Key() in h.workStatuses && Labelled(task, h.workStatuses[task.Key()].labels)
    case Over(ok) => ok ==> h == task.Goal(start) && task.Attainable(start)
  }

  ghost predicate Converging(task: Task, start: H.State, c: Config) {
    && c.hub.manifestWorks == start.manifestWorks
    && task.Goal(c.hub) == task.Goal(start) && (task.Attainable(c.hub) <==> task.Attainable(start))
    && forall t :: 0 <= t < |c.attempts| ==> Relies(task, start, c.hub, c.attempts[t])
  }

  // h' is h, or h with the task's WorkStatus made or brought closer to its goal.
  ghost predicate Closer(task: Task, h: H.State, h': H.State) {
    && h'.manifestWorks == h.manifestWorks
    && task.Goal(h') == task.Goal(h) && (task.Attainable(h') <==> task.Attainable(h))
    && (task.Goal(h) == h ==> h' == h)
    && (task.Key() in h'.workStatuses ==> task.Key() in h.workStatuses || Managed(task, h))
    && (!task.isBeingDeleted && task.Key() in h.workStatuses ==>
          task.Key() in h'.workStatuses
          && (Labelled(task, h.workStatuses[task.Key()].labels) ==> Labelled(task, h'.workStatuses[task.Key()].labels)))
  }

  // another attempt's step leaves standing what this one relies on
  lemma RelianceStands(task: Task, start: H.State, h: H.State, h': H.State, pc: PC)
    requires Relies(task, start, h, pc) && Closer(task, h, h') && task.Goal(h) == task.Goal(start)
    ensures Relies(task, start, h', pc)
  {
  }

  lemma DeleteCloser(task: Task, h: H.State, fault: H.Fault)
    requires task.isBeingDeleted
    ensures Closer(task, h, H.Delete(h, task.Key(), fault).hub)
    ensures fault != H.FailsBefore ==> H.Delete(h, task.Key(), fault).hub == task.Goal(h)
  {
    var key := task.Key();
    assert h.workStatuses - {key} - {key} == h.workStatuses - {key};
    assert key !in h.workStatuses ==> h.workStatuses - {key} == h.workStatuses;
  }

  // a WorkStatus that reports the same in the end
  lemma ChangeCloser(task: Task, h: H.State, ws: H.WorkStatus)
    requires !task.isBeingDeleted && task.Key() in h.workStatuses
    requires var was := h.workStatuses[task.Key()];
             && Reporting(ws, task.obj) == Reporting(was, task.obj)
             && (Reporting(was, task.obj) == was ==> ws == was)
             && (Labelled(task, was.labels) ==> Labelled(task, ws.labels))
    ensures Closer(task, h, h.(workStatuses := h.workStatuses[task.Key() := ws]))
  {
    var key, was := task.Key(), h.workStatuses[task.Key()];
    Overwrite(h.workStatuses, key, ws, Reporting(was, task.obj));
    Overwrite(h.workStatuses, key, was, was);
    if task.Goal(h) == h {
      assert h.workStatuses[key := Reporting(was, task.obj)][key] == was;
    }
  }

  lemma PatchCloser(task: Task, h: H.State, fault: H.Fault)
    requires !task.isBeingDeleted && task.Key() in h.workStatuses && SINGLETON_LABEL in task.obj.labels
    ensures var r := H.PatchLabel(h, task.Key(), SINGLETON_LABEL, task.obj.labels[SINGLETON_LABEL], fault);
            && Closer(task, h, r.hub)
            && (r.error.None? ==> task.Key() in r.hub.workStatuses && Labelled(task, r.hub.workStatuses[task.Key()].labels))
  {
    var was := h.workStatuses[task.Key()];
    var ws := was.(labels := WithSingleton(was.labels, task.obj));
    ReportingTwice(was, task.obj);
    Overwrite(was.labels, SINGLETON_LABEL, task.obj.labels[SINGLETON_LABEL], task.obj.labels[SINGLETON_LABEL]);
    ChangeCloser(task, h, ws);
    Overwrite(h.workStatuses, task.Key(), was, was);
  }

  lemma UpdateCloser(task: Task, h: H.State, status: RawStatus, fault: H.Fault)
    requires Relies(task, h, h, Updating) && GetObjectStatusAsBytes(task.obj) == Some(status)
    ensures var r := H.UpdateStatus(h, task.Key(), status, fault);
            Closer(task, h, r.hub) && (r.error.None? ==> r.hub == task.Goal(h) && task.Attainable(h))
  {
    var was := h.workStatuses[task.Key()];
    ReportingTwice(was, task.obj);
    ChangeCloser(task, h, was.(status := Some(status)));
    Overwrite(h.workStatuses, task.Key(), was, was);
  }

  lemma CreateCloser(task: Task, h: H.State, ws: H.WorkStatus, fault: H.Fault)
    requires Relies(task, h, h, Creating(ws))
    ensures var r := H.Create(h, task.Key(), ws, fault);
            Closer(task, h, r.hub) && (r.error.None? ==> task.Key() in r.hub.workStatuses && r.hub.workStatuses[task.Key()] == ws)
  {
    var key := task.Key();
    Overwrite(h.workStatuses, key, ws, Reporting(ws, task.obj));
  }

  /** Every call brings the hub closer to the goal, or leaves it, and an attempt that ends well has
      reached it. */
  lemma CallCloser(task: Task, start: H.State, h: H.State, pc: PC, fault: H.Fault)
    requires h.manifestWorks == start.manifestWorks && task.Goal(h) == task.Goal(start)
    requires task.Attainable(h) <==> task.Attainable(start)
    requires Relies(task, start, h, pc) && GetsThrough(pc, fault)
    ensures var m := CallStep(task, h, pc, fault);
            Closer(task, h, m.hub) && Relies(task, start, m.hub, m.pc)
  {
    match pc
    case Getting =>
    case Deleting => DeleteCloser(task, h, fault);
    case GettingManifestWork =>
    case Creating(ws) => CreateCloser(task, h, ws, fault);
    case Labelling(ws) =>
      LabelsSettled(ws.labels, task.obj);
      if !Labelled(task, ws.labels) {
        PatchCloser(task, h, fault);
      }
    case Updating =>
      if GetObjectStatusAsBytes(task.obj).Some? {
        UpdateCloser(task, h, GetObjectStatusAsBytes(task.obj).value, fault);
      }
    case Over(_) =>
  }

  lemma MoveConverges(task: Task, start: H.State, c: Config, m: Move)
    requires Converging(task, start, c) && m.worker < |c.attempts| && GetsThrough(c.attempts[m.worker], m.fault)
    ensures Converging(task, start, Next(task, c, m))
  {
    CallCloser(task, start, c.hub, c.attempts[m.worker], m.fault);
    var d := Next(task, c, m);
    forall t | 0 <= t < |d.attempts| ensures Relies(task, start, d.hub, d.attempts[t]) {
      if t != m.worker {
        RelianceStands(task, start, c.hub, d.hub, c.attempts[t]);
      }
    }
  }

  lemma {:induction false} InterleavingConverges(task: Task, start: H.State, c: Config, moves: seq<Move>)
    requires Converging(task, start, c) && IsInterleaving(task, c, moves)
    ensures Converging(task, start, Interleave(task, c, moves))
    decreases |moves|
  {
    if moves != [] {
      MoveConverges(task, start, c, moves[0]);
      InterleavingConverges(task, start, Next(task, c, moves[0]), moves[1..]);
    }
  }

  function Begin(h: H.State, n: nat): Config {
    Config(h, seq(n, _ => Getting))
  }

  lemma GoalCreatesAtMostOne(task: Task, h: H.State)
    ensures h.created <= task.Goal(h).created && |task.Goal(h).created| <= |h.created| + 1
  {
  }

  /** Any number of attempts for one WorkStatus, their hub calls interleaved in any way and failing in
      any way but an unnoticed deletion: together they create at most one WorkStatus, and as soon as
      one of them has ended well the hub is, and stays, the one a single failure-free run leaves. */
  lemma WorkersConverge(task: Task, h: H.State, n: nat, moves: seq<Move>)
    requires GetAppliedManifestWork(task.obj, task.env.listers, task.env.cluster) == Some(task.aw)
    requires IsInterleaving(task, Begin(h, n), moves)
    ensures var c, once := Interleave(task, Begin(h, n), moves), HandleWorkStatus(task.env, h, task.obj, task.isBeingDeleted, NO_FAULTS);
            && c.hub.created <= once.hub.created && |once.hub.created| <= |h.created| + 1
            && (Over(true) in c.attempts ==> c.hub == once.hub && once.ok)
            && task.Goal(c.hub) == once.hub
  {
    InterleavingConverges(task, h, Begin(h, n), moves);
    HandleTowardGoal(task.env, h, task.obj, task.isBeingDeleted, NO_FAULTS);
    var c := Interleave(task, Begin(h, n), moves);
    GoalCreatesAtMostOne(task, h);
    GoalCreatesAtMostOne(task, c.hub);
    if Over(true) in c.attempts {
      var t :| 0 <= t < |c.attempts| && c.attempts[t] == Over(true);
      assert Relies(task, h, c.hub, c.attempts[t]);
    }
  }
}
