/**
 The fence path releases a head whose containers never appeared: what it inspected
 came before the fence. When that is enough, and when it is not.
 */
module LifecycleFencePath {
  import opened Common
  import opened Lifecycle
  import opened LifecycleInvariant
  import opened LifecycleFrames
  import opened LifecycleSteps
  import opened LifecycleProgress
  import opened LifecycleTheorems
  import opened LifecycleActors

  /** No launcher is alive or about to start, and the node holds nothing of `r`. */
  predicate Idle(s: State, r: Record, node: Node) {
    s.world.procs == map[] && !s.agent.holder.LaunchAt? && VerifiedAbsent(s, r, node) && CidsOk(s, r)
  }

  lemma IdleStep(s: State, step: Step, t: State, r: Record, node: Node)
    requires Inv(s) && Idle(s, r, node) && Do(s, step) == Some(t) && t.past.nextLaunch == s.past.nextLaunch
    ensures Idle(t, r, node)
  {
    hide Inv, Do, RecordsStep, TableStep, WrappersStep, FenceStep;
    StepOnward(s, step, t);
    if step.ByWorld? && step.world.Crash? { CrashFrees(s, step.world.ssh, t); }
    assert forall p :: p !in t.world.procs;
    assert t.world.procs == map[];
  }

  /** Without a launcher an idle node stays idle until a launch ID is drawn. */
  lemma {:induction false} IdleRun(s: State, steps: seq<Step>, t: State, r: Record, node: Node)
    requires Inv(s) && Idle(s, r, node) && Run(s, steps, t, true) && t.past.nextLaunch == s.past.nextLaunch
    ensures Idle(t, r, node)
    decreases |steps|
  {
    hide Inv, Idle, Onward, Do;
    if steps != [] {
      var u := Do(s, steps[0]).value;
      StepKeeps(s, steps[0], u);
      LaunchesGrow(u, steps[1..], t);
      assert s.past.nextLaunch <= u.past.nextLaunch by { StepOnward(s, steps[0], u); UnfoldGrows(s, u); }
      IdleStep(s, steps[0], u, r, node);
      IdleRun(u, steps[1..], t, r, node);
    }
  }

  lemma {:induction false} NoLaunchBegins(s: State, steps: seq<Step>, t: State)
    requires Inv(s) && !s.agent.holder.LaunchAt? && Run(s, steps, t, true) && t.past.nextLaunch == s.past.nextLaunch
    ensures !t.agent.holder.LaunchAt?
    decreases |steps|
  {
    hide Inv, Onward, Do;
    if steps != [] {
      var u := Do(s, steps[0]).value;
      StepKeeps(s, steps[0], u);
      LaunchesGrow(u, steps[1..], t);
      StepOnward(s, steps[0], u);
      UnfoldGrows(s, u);
      if steps[0].ByWorld? && steps[0].world.Crash? { CrashFrees(s, steps[0].world.ssh, u); }
      NoLaunchBegins(u, steps[1..], t);
    }
  }

  /** `e` is the record in force, as a head that is not stopped. */
  predicate InForce(s: State, e: Record) {
    e.id.name in s.disk.records && s.disk.records[e.id.name] == e && HeadLive(e)
  }

  /** A live head carries the newest launch ID, and every live launcher is its own. */
  lemma TheHead(s: State, e: Record)
    requires Inv(s) && InForce(s, e)
    ensures e.launch == s.past.nextLaunch - 1 && CidsOk(s, e)
    ensures NoLauncherOf(s, e.launch) ==> s.world.procs == map[]
  {
    hide Inv;
    TheRecord(s, e.id.name);
    if p :| p in s.world.procs { ProcOwner(s, p); }
    else { assert s.world.procs == map[]; }
  }

  predicate NoLauncherOf(s: State, l: LaunchId) {
    forall p :: p in s.world.procs ==> s.world.procs[p] != l
  }

  /** A goroutine's read that is still stamped now was in force at any earlier moment
      at which the goroutine already held it. */
  lemma HeldInForce(s: State, steps: seq<Step>, t: State, e: Record)
    requires Inv(s) && Run(s, steps, t, true) && Snapshot(s, e) && e.status != Stopped && Stamped(t, e.id.name, e.stamp)
    ensures InForce(s, e)
  {
    hide Inv, Run;
    if !Stamped(s, e.id.name, e.stamp) { StampIsGone(s, steps, t, e.id.name, e.stamp); }
  }

  // ---------------------------------------------------------------- the mark

  /** A run after which the fence of `id` goes through and "stopped" is written. */
  ghost predicate Marks(s: State, steps: seq<Step>, m: State, id: ActorId, t: State) {
    && id in s.agent.actors && s.agent.actors[id].FenceWanted?
    && Run(s, steps, m, true)
    && id in m.agent.actors && m.agent.actors[id] == s.agent.actors[id]
    && StillCurrent(m, s.agent.actors[id].seen) && !LauncherActive(m, s.agent.actors[id].seen)
    && DoFenceAndMark(m, id, true, true) == Some(t)
  }

  lemma MarkLeaves(m: State, id: ActorId, t: State)
    requires id in m.agent.actors && m.agent.actors[id].FenceWanted? && DoFenceAndMark(m, id, true, true) == Some(t)
    ensures t.world.containers == m.world.containers
  { }

  lemma TheFenceWanted(s: State, id: ActorId)
    requires Inv(s) && id in s.agent.actors && s.agent.actors[id].FenceWanted?
    ensures Snapshot(s, s.agent.actors[id].seen) && s.agent.actors[id].seen.status != Stopped
  {
    hide Inv;
    TheActor(s, id);
  }

  /** From a state with no launcher and no container of the head, whatever runs before
      the mark, it leaves both nodes clean. */
  lemma MarkedClean(s: State, steps: seq<Step>, m: State, id: ActorId, t: State)
    requires Inv(s) && Marks(s, steps, m, id, t) && !s.agent.holder.LaunchAt?
    requires NoLauncherOf(s, s.agent.actors[id].seen.launch) && Clean(s, s.agent.actors[id].seen)
    ensures Clean(t, s.agent.actors[id].seen)
  {
    hide Inv, Run, DoFenceAndMark, VerifiedAbsent, LauncherActive;
    var e := s.agent.actors[id].seen;
    TheFenceWanted(s, id);
    HeldInForce(s, steps, m, e);
    StampedIsSame(s, steps, m, e.id.name);
    RunKeeps(s, steps, m);
    TheHead(s, e);
    TheHead(m, e);
    IdleRun(s, steps, m, e, Local);
    IdleRun(s, steps, m, e, Remote);
    MarkLeaves(m, id, t);
    SameContainers(m, t, e);
  }

  lemma SameContainers(m: State, t: State, r: Record)
    requires t.world.containers == m.world.containers
    ensures Clean(t, r) <==> Clean(m, r)
  { }

  /** The mark can go through at once. */
  lemma MarksAtOnce(s: State, id: ActorId) returns (t: State)
    requires Inv(s) && s.agent.holder.Free? && id in s.agent.actors && s.agent.actors[id].FenceWanted?
    requires StillCurrent(s, s.agent.actors[id].seen) && !LauncherActive(s, s.agent.actors[id].seen)
    ensures Marks(s, [], s, id, t) && t.world.containers == s.world.containers
  {
    hide Inv;
    t := DoFenceAndMark(s, id, true, true).value;
  }

  /** A launcher that is still alive can create a container before the fence. */
  lemma MarksOverContainer(s: State, id: ActorId, p: Pid) returns (steps: seq<Step>, m: State, t: State)
    requires Inv(s) && s.agent.holder.Free? && id in s.agent.actors && s.agent.actors[id].FenceWanted?
    requires StillCurrent(s, s.agent.actors[id].seen) && !LauncherActive(s, s.agent.actors[id].seen)
    requires p in s.world.procs && NoNamed(s, Local)
    ensures Marks(s, steps, m, id, t) && !NoNamed(t, Local)
  {
    hide Inv;
    var create := ByWorld(ContainerCreate(p, Local, true, 0));
    m := Do(s, create).value;
    steps := [create];
    assert steps[1..] == [] && Run(m, [], m, true);
    t := DoFenceAndMark(m, id, true, true).value;
    assert s.world.nextCid in t.world.containers && t.world.containers[s.world.nextCid].named;
  }

  /** Exactly when the fence path is container-free: with the lock free and its checks
      passing, every way of getting to the mark leaves both nodes clean if and only if
      no process of the launch is alive and both nodes are clean now. */
  lemma FencePathCleanExactly(s: State, id: ActorId)
    requires Inv(s) && s.agent.holder.Free? && id in s.agent.actors && s.agent.actors[id].FenceWanted?
    requires StillCurrent(s, s.agent.actors[id].seen) && !LauncherActive(s, s.agent.actors[id].seen)
    ensures (forall steps, m, t :: Marks(s, steps, m, id, t) ==> Clean(t, s.agent.actors[id].seen)) <==>
            NoLauncherOf(s, s.agent.actors[id].seen.launch) && Clean(s, s.agent.actors[id].seen)
  {
    hide Inv, Run, Marks, StillCurrent, LauncherActive, IdAbsent;
    var e := s.agent.actors[id].seen;
    if NoLauncherOf(s, e.launch) && Clean(s, e) {
      forall steps, m, t | Marks(s, steps, m, id, t) ensures Clean(t, e) { MarkedClean(s, steps, m, id, t); }
    } else if !Clean(s, e) {
      var t := MarksAtOnce(s, id);
      SameContainers(s, t, e);
    } else {
      var p :| p in s.world.procs && s.world.procs[p] == e.launch;
      var steps, m, t := MarksOverContainer(s, id, p);
      assert !Clean(t, e);
    }
  }

  // ---------------------------------------------------------------- from the first look

  /** No process of the launch alive at the first inspection, both inspections empty and
      the record still current at the end: then the fence path, too, leaves both nodes
      clean, whatever ran in between. `s` is where reconcile read the record. */
  lemma FencePathCleanWithoutLauncher(
      s: State, toFirst: seq<Step>, p: State, q: State, toSecond: seq<Step>, u: State, v: State,
      toMark: seq<Step>, m: State, t: State, id: ActorId, e: Record)
    requires Inv(s) && s.agent.holder.Free? && InForce(s, e) && Run(s, toFirst, p, true)
    requires id in p.agent.actors && p.agent.actors[id] == Inspecting(OrphanPass, e, None)
    requires NoLauncherOf(p, e.launch) && Do(p, ByObserver(InspectFirst(id, Some(Absent)))) == Some(q)
    requires Run(q, toSecond, u, true) && id in u.agent.actors
    requires u.agent.actors[id] == Inspecting(OrphanPass, e, Some(Absent))
    requires Do(u, ByObserver(InspectSecond(id, Some(Absent)))) == Some(v) && Marks(v, toMark, m, id, t)
    ensures Clean(t, e)
  {
    hide Inv, Run, Do, StillCurrent, LauncherActive, DoFenceAndMark, VerifiedAbsent;
    RunKeeps(s, toFirst, p);
    FirstLook(p, id, e, q);
    RunKeeps(q, toSecond, u);
    SecondLook(u, id, e, v);
    MarkIsStamped(v, toMark, m, id, t);
    TheReader(v, id, e);
    HeldInForce(v, toMark, m, e);
    TheReader(q, id, e);
    HeldInForce(q, toSecond, u, e);
    TheHead(s, e);
    TheHead(p, e);
    TheHead(u, e);
    NoLaunchBegins(s, toFirst, p);
    IdleRun(q, toSecond, u, e, Local);
    MarkedClean(v, toMark, m, id, t);
  }

  lemma MarkIsStamped(s: State, steps: seq<Step>, m: State, id: ActorId, t: State)
    requires Marks(s, steps, m, id, t)
    ensures Run(s, steps, m, true) && Stamped(m, s.agent.actors[id].seen.id.name, s.agent.actors[id].seen.stamp)
  { hide Run, DoFenceAndMark, LauncherActive; }

  lemma TheReader(s: State, id: ActorId, e: Record)
    requires Inv(s) && id in s.agent.actors
    requires s.agent.actors[id] == FenceWanted(e) || (s.agent.actors[id].Inspecting? && s.agent.actors[id].seen == e)
    ensures Snapshot(s, e) && e.status != Stopped
  {
    hide Inv;
    TheActor(s, id);
  }

  lemma FirstLook(p: State, id: ActorId, e: Record, q: State)
    requires Inv(p) && id in p.agent.actors && p.agent.actors[id] == Inspecting(OrphanPass, e, None)
    requires Do(p, ByObserver(InspectFirst(id, Some(Absent)))) == Some(q)
    ensures Inv(q) && VerifiedAbsent(q, e, Local)
    ensures q.disk == p.disk && q.world == p.world && q.past == p.past && q.agent.holder == p.agent.holder
    ensures id in q.agent.actors && q.agent.actors[id] == Inspecting(OrphanPass, e, Some(Absent))
  {
    hide Inv;
    StepKeeps(p, ByObserver(InspectFirst(id, Some(Absent))), q);
  }

  lemma SecondLook(u: State, id: ActorId, e: Record, v: State)
    requires Inv(u) && id in u.agent.actors && u.agent.actors[id] == Inspecting(OrphanPass, e, Some(Absent))
    requires Do(u, ByObserver(InspectSecond(id, Some(Absent)))) == Some(v)
    ensures Inv(v) && VerifiedAbsent(v, e, Remote) && (VerifiedAbsent(u, e, Local) ==> VerifiedAbsent(v, e, Local))
    ensures v.disk == u.disk && v.world == u.world && v.past == u.past && v.agent.holder == u.agent.holder
    ensures id in v.agent.actors && v.agent.actors[id] == FenceWanted(e)
  {
    hide Inv;
    StepKeeps(u, ByObserver(InspectSecond(id, Some(Absent))), v);
  }
}
