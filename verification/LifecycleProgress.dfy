/**
 What any one step may change: the two-state facts the whole-run theorems rest on.
 */
module LifecycleProgress {
  import opened Common
  import opened Lifecycle
  import opened LifecycleInvariant
  import opened LifecycleFrames
  import opened LifecycleSteps

  /** Sources of fresh values, the clock and the history only grow. */
  predicate Grows(s: State, t: State) {
    && s.disk.clock <= t.disk.clock && s.past.nextLaunch <= t.past.nextLaunch && s.world.nextCid <= t.world.nextCid
    && s.agent.nextActor <= t.agent.nextActor
    && s.past.started <= t.past.started && s.past.fenced <= t.past.fenced && s.past.released <= t.past.released
  }

  /** A record in force after a step was there before, or carries a new stamp. */
  predicate RecordsStep(s: State, t: State) {
    forall n :: n in t.disk.records ==>
      || (n in s.disk.records && s.disk.records[n] == t.disk.records[n])
      || (t.disk.records[n].stamp == s.disk.clock && s.disk.clock < t.disk.clock)
  }

  /** A container keeps its marker and never gains the fixed name; a new one was
      created by a live launcher process and carries its marker. */
  ghost predicate ContainersStep(s: State, t: State) {
    forall c :: c in t.world.containers ==>
      if c in s.world.containers
      then
        && s.world.containers[c].marker == t.world.containers[c].marker
        && s.world.containers[c].node == t.world.containers[c].node
        && (t.world.containers[c].named ==> s.world.containers[c].named)
      else
        && c == s.world.nextCid
        && exists p :: p in s.world.procs && t.world.containers[c].marker == Some(s.world.procs[p])
  }

  /** A marker is alive only if it was, or if its launcher has just been started. */
  ghost predicate ProcsStep(s: State, t: State) {
    forall p :: p in t.world.procs ==>
      || (exists q :: q in s.world.procs && s.world.procs[q] == t.world.procs[p])
      || (LaunchingAt(s, NeedStart) && t.world.procs[p] == s.agent.holder.res.launch)
  }

  predicate SameEntry(s: State, t: State, n: Name)
    requires n in t.agent.table
  {
    && n in s.agent.table && s.agent.table[n].waiter == t.agent.table[n].waiter
    && s.agent.table[n].launch == t.agent.table[n].launch
  }

  /** A table entry keeps its launch and waiter, or is new with a new waiter. */
  predicate TableStep(s: State, t: State) {
    forall n :: n in t.agent.table ==>
      || SameEntry(s, t, n)
      || t.agent.table[n].waiter == s.agent.nextActor
  }

  /** A wrapper is either the one already there or written for the ssh in use. */
  predicate WrappersStep(s: State, t: State) {
    forall l :: l in t.disk.transports && t.disk.transports[l].wrapper.Some? ==>
      || (l in s.disk.transports && s.disk.transports[l].wrapper == t.disk.transports[l].wrapper)
      || t.disk.transports[l].wrapper == Some(s.agent.ssh)
  }

  /** Only a fence adds to the fenced launches, and it leaves no process of the launch. */
  predicate FenceStep(s: State, t: State) {
    forall l :: l in t.past.fenced && l !in s.past.fenced ==> forall p :: p in t.world.procs ==> t.world.procs[p] != l
  }

  /** The agent is the same process, and a launch begins only by drawing a launch ID. */
  predicate Steady(s: State, t: State) {
    && t.agent.ssh == s.agent.ssh
    && (t.agent.holder.LaunchAt? && !s.agent.holder.LaunchAt? ==> s.past.nextLaunch < t.past.nextLaunch)
  }

  ghost predicate Onward(s: State, t: State) {
    && Grows(s, t) && RecordsStep(s, t) && ContainersStep(s, t) && ProcsStep(s, t)
    && TableStep(s, t) && WrappersStep(s, t) && FenceStep(s, t)
  }

  // ---------------------------------------------------------------- shapes of steps

  /** Only the agent's memory moved on; no table entry appeared. */
  predicate Moved(s: State, t: State) {
    && t.disk == s.disk && t.world == s.world && t.past == s.past && t.agent.ssh == s.agent.ssh
    && s.agent.nextActor <= t.agent.nextActor
    && forall n :: n in t.agent.table ==>
         SameEntry(s, t, n)
  }

  /** The record `n` was written first. */
  predicate Wrote(s: State, n: Name, t: State) {
    && n in t.disk.records && t.disk.records[n].stamp == s.disk.clock
    && Moved(s.(disk := s.disk.(records := s.disk.records[n := t.disk.records[n]], clock := s.disk.clock + 1)), t)
  }

  lemma OnwardMoved(s: State, m: State, t: State)
    requires Onward(s, m) && Moved(m, t)
    ensures Onward(s, t)
  { }

  lemma OnwardSame(s: State, t: State)
    requires Moved(s, t)
    ensures Onward(s, t)
  {
    hide Moved;
    assert Onward(s, s);
    OnwardMoved(s, s, t);
  }

  lemma OnwardWrote(s: State, n: Name, t: State)
    requires Wrote(s, n, t)
    ensures Onward(s, t)
  {
    hide Moved;
    var m := s.(disk := s.disk.(records := s.disk.records[n := t.disk.records[n]], clock := s.disk.clock + 1));
    assert Onward(s, m);
    OnwardMoved(s, m, t);
  }

  lemma OnwardEither(s: State, n: Name, t: State)
    requires Moved(s, t) || Wrote(s, n, t)
    ensures Onward(s, t)
  {
    hide Moved, Wrote, Onward;
    if Moved(s, t) { OnwardSame(s, t); } else { OnwardWrote(s, n, t); }
  }

  /** Records, files or containers were dropped, files written, a launch ID drawn. */
  predicate Eased(s: State, m: State) {
    && m == s.(disk := s.disk.(records := m.disk.records, env := m.disk.env, transports := m.disk.transports),
               world := s.world.(containers := m.world.containers),
               past := s.past.(nextLaunch := m.past.nextLaunch))
    && s.past.nextLaunch <= m.past.nextLaunch && WrappersStep(s, m)
    && (forall n :: n in m.disk.records ==> n in s.disk.records && s.disk.records[n] == m.disk.records[n])
    && (forall c :: c in m.world.containers ==>
          && c in s.world.containers && s.world.containers[c].marker == m.world.containers[c].marker
          && s.world.containers[c].node == m.world.containers[c].node
          && (m.world.containers[c].named ==> s.world.containers[c].named))
  }

  lemma OnwardVia(s: State, m: State, t: State)
    requires Eased(s, m) && Moved(m, t)
    ensures Onward(s, t)
  {
    hide Moved;
    assert Onward(s, m);
    OnwardMoved(s, m, t);
  }

  lemma OnwardFence(s: State, l: LaunchId, m: State)
    requires m == Fenced(s, l)
    ensures Onward(s, m)
  { }

  lemma OnwardFenced(s: State, l: LaunchId, n: Name, t: State)
    requires Moved(Fenced(s, l), t) || Wrote(Fenced(s, l), n, t)
    ensures Onward(s, t)
  {
    hide Moved;
    var m := Fenced(s, l);
    OnwardFence(s, l, m);
    if Moved(m, t) {
      OnwardMoved(s, m, t);
    } else {
      var u := m.(disk := m.disk.(records := m.disk.records[n := t.disk.records[n]], clock := m.disk.clock + 1));
      assert Onward(s, u);
      OnwardMoved(s, u, t);
    }
  }

  lemma OnwardReleased(s: State, n: Name, l: LaunchId, t: State)
    requires Wrote(s.(past := s.past.(released := s.past.released + {l})), n, t)
    ensures Onward(s, t)
  {
    hide Moved;
    var u := s.(past := s.past.(released := s.past.released + {l}),
                disk := s.disk.(records := s.disk.records[n := t.disk.records[n]], clock := s.disk.clock + 1));
    assert Onward(s, u);
    OnwardMoved(s, u, t);
  }

  // ---------------------------------------------------------------- every step

  lemma CreateOnward(s: State, p: Pid, t: State)
    requires p in s.world.procs && s.world.nextCid in t.world.containers
    requires t.world.containers[s.world.nextCid].marker == Some(s.world.procs[p])
    requires var u := WithContainer(s, s.world.nextCid, t.world.containers[s.world.nextCid]);
      t == u.(world := u.world.(nextCid := s.world.nextCid + 1))
    requires s.world.nextCid !in s.world.containers
    ensures Onward(s, t)
  { }

  lemma ProcOnward(s: State, step: WorldStep, t: State)
    requires DoWorld(s, step) == Some(t) && (step.ProcExit? || step.ProcFork? || step.Crash?)
    ensures Onward(s, t)
  { }

  lemma KeyOf(s: State, n: Name)
    requires Inv(s) && n in s.disk.records
    ensures s.disk.records[n].id.name == n
  { hide Inv; TheRecord(s, n); }

  lemma StartedOnward(s: State, t: State)
    requires DoStartLauncher(s, true, false) == Some(t)
    ensures Onward(s, t)
  { }

  lemma WaiterLockOnward(s: State, id: ActorId, wrote: bool, t: State)
    requires Inv(s) && DoWaiterLock(s, id, wrote) == Some(t)
    ensures Onward(s, t)
  {
    hide Onward, Inv;
    if s.agent.actors[id].name in s.disk.records { KeyOf(s, s.agent.actors[id].name); }
    OnwardEither(s, s.agent.actors[id].name, t);
  }

  lemma StopBeginOnward(s: State, id: ActorId, wrote: bool, t: State)
    requires Inv(s) && DoStopBegin(s, id, wrote) == Some(t)
    ensures Onward(s, t)
  {
    hide Onward, Inv;
    if s.agent.actors[id].name in s.disk.records { KeyOf(s, s.agent.actors[id].name); }
    OnwardEither(s, s.agent.actors[id].name, t);
  }

  lemma FenceOnward(s: State, ok: bool, t: State)
    requires DoFenceLaunch(s, ok) == Some(t)
    ensures Onward(s, t)
  {
    hide Onward, Inv;
    if ok { OnwardFenced(s, s.agent.holder.res.launch, 0, t); } else { OnwardSame(s, t); }
  }

  lemma WriteIdsOnward(s: State, wrote: bool, t: State)
    requires DoWriteIds(s, wrote) == Some(t)
    ensures Onward(s, t)
  {
    hide Onward, Inv;
    OnwardEither(s, s.agent.holder.res.id.name, t);
  }

  lemma RemovalOnward(s: State, step: ReleaseStep, t: State)
    requires (step.RunStopScript? || step.RemoveExact?) && DoRelease(s, step) == Some(t)
    ensures Onward(s, t)
  {
    hide Onward, Inv;
    OnwardVia(s, s.(world := s.world.(containers := t.world.containers)), t);
  }

  lemma WriteFailedOnward(s: State, wrote: bool, t: State)
    requires DoWriteFailed(s, wrote) == Some(t)
    ensures Onward(s, t)
  {
    hide Onward, Inv;
    OnwardEither(s, s.agent.holder.res.id.name, t);
  }

  lemma CasOnward(s: State, id: ActorId, wrote: bool, t: State)
    requires DoCompareAndWrite(s, id, wrote) == Some(t)
    ensures Onward(s, t)
  {
    hide Onward, Inv;
    OnwardEither(s, s.agent.actors[id].updated.id.name, t);
  }

  lemma ReadyOnward(s: State, id: ActorId, wrote: bool, t: State)
    requires Inv(s) && DoMarkReady(s, id, wrote) == Some(t)
    ensures Onward(s, t)
  {
    hide Onward, Inv;
    if s.agent.actors[id].seen.id.name in s.disk.records { KeyOf(s, s.agent.actors[id].seen.id.name); }
    OnwardEither(s, s.agent.actors[id].seen.id.name, t);
  }

  lemma FenceAndMarkOnward(s: State, id: ActorId, fenceOk: bool, wrote: bool, t: State)
    requires DoFenceAndMark(s, id, fenceOk, wrote) == Some(t)
    ensures Onward(s, t)
  {
    hide Onward, Inv;
    var e := s.agent.actors[id].seen;
    if !StillCurrent(s, e) || LauncherActive(s, e) || !fenceOk { OnwardSame(s, t); }
    else { OnwardFenced(s, e.launch, e.id.name, t); }
  }

  lemma StartOnward(s: State, ok: bool, wrote: bool, t: State)
    requires DoStartLauncher(s, ok, wrote) == Some(t)
    ensures Onward(s, t)
  {
    hide Onward, Inv;
    if ok { StartedOnward(s, t); } else { OnwardEither(s, s.agent.holder.res.id.name, t); }
  }

  lemma StartingOnward(s: State, wrote: bool, t: State)
    requires DoWriteStarting(s, wrote) == Some(t)
    ensures Onward(s, t)
  {
    hide Onward, Inv;
    OnwardEither(s, s.agent.holder.res.id.name, t);
  }

  lemma OpenLogOnward(s: State, ok: bool, undone: bool, t: State)
    requires DoOpenLog(s, ok, undone) == Some(t)
    ensures Onward(s, t)
  {
    hide Onward, Inv;
    OnwardVia(s, s.(disk := s.disk.(records := t.disk.records)), t);
  }

  lemma FileOnward(s: State, step: LaunchStep, t: State)
    requires (step.WriteEnv? || step.WriteConfig? || step.WriteWrapper?) && DoLaunch(s, step) == Some(t)
    ensures Onward(s, t)
  {
    hide Onward, Inv;
    OnwardVia(s, s.(disk := s.disk.(env := t.disk.env, transports := t.disk.transports)), t);
  }

  lemma RestartLockOnward(s: State, id: ActorId, ok: bool, t: State)
    requires DoRestartLock(s, id, ok) == Some(t)
    ensures Onward(s, t)
  {
    hide Onward, Inv;
    if s.agent.actors[id].res.id.role.Worker? { OnwardEither(s, s.agent.actors[id].res.id.name, t); }
    else { OnwardVia(s, s.(past := s.past.(nextLaunch := t.past.nextLaunch)), t); }
  }

  lemma RemoveOnward(s: State, step: CallStep, t: State)
    requires (step.RemoveLock? || step.RemoveTransport?) && DoCall(s, step) == Some(t)
    ensures Onward(s, t)
  {
    hide Onward, Inv;
    OnwardVia(s, s.(disk := s.disk.(records := t.disk.records, transports := t.disk.transports)), t);
  }

  lemma WorldOnward(s: State, step: WorldStep, t: State)
    requires Inv(s) && DoWorld(s, step) == Some(t)
    ensures Onward(s, t)
    ensures step.Crash? || Steady(s, t)
  {
    hide Onward, Inv;
    match step {
      case ContainerCreate(p, node, pinned, rank) => TheHistory(s); CreateOnward(s, p, t);
      case ContainerRun(c, running) => OnwardVia(s, t, t);
      case ContainerRename(c) => OnwardVia(s, t, t);
      case ContainerGone(c) => OnwardVia(s, t, t);
      case WaitReturns(id, clean) => OnwardSame(s, t);
      case WaiterLock(id, wrote) => WaiterLockOnward(s, id, wrote, t);
      case StopRequest(name) => OnwardSame(s, t);
      case StopBegin(id, wrote) => StopBeginOnward(s, id, wrote, t);
      case ProcExit(p) => ProcOnward(s, step, t);
      case ProcFork(p) => ProcOnward(s, step, t);
      case Crash(ssh) => ProcOnward(s, step, t);
    }
  }

  lemma StopOnward(s: State, step: StopStep, t: State)
    requires Inv(s) && DoStop(s, step) == Some(t)
    ensures Onward(s, t)
    ensures Steady(s, t)
  {
    hide Onward, Inv;
    match step {
      case FenceLaunch(ok) => FenceOnward(s, ok, t);
      case WriteIds(wrote) => WriteIdsOnward(s, wrote, t);
      case JoinAbsent => OnwardSame(s, t);
      case JoinReaped(ok) => OnwardSame(s, t);
      case JoinTimeout => OnwardSame(s, t);
      case CheckSource(checkoutOk) => OnwardSame(s, t);
      case LookHead(obs) => OnwardSame(s, t);
      case LookWorker(obs) => OnwardSame(s, t);
    }
  }

  lemma StoppedOnward(s: State, wrote: bool, t: State)
    requires Inv(s) && DoWriteStopped(s, wrote) == Some(t)
    ensures Onward(s, t)
  {
    hide Onward, Inv, StopPcOk, NextOk, RecordOk;
    TheStop(s);
    if s.agent.holder.res.id.role.Head? && wrote {
      OnwardReleased(s, s.agent.holder.res.id.name, s.agent.holder.res.launch, t);
    }
    else { OnwardEither(s, s.agent.holder.res.id.name, t); }
  }

  lemma ReleaseOnward(s: State, step: ReleaseStep, t: State)
    requires Inv(s) && DoRelease(s, step) == Some(t)
    ensures Onward(s, t)
    ensures Steady(s, t)
  {
    hide Onward, Inv;
    match step {
      case RunStopScript(gone, ok) => RemovalOnward(s, step, t);
      case RemoveExact(effect, ok) => RemovalOnward(s, step, t);
      case WriteStopped(wrote) => StoppedOnward(s, wrote, t);
      case WriteFailed(wrote) => WriteFailedOnward(s, wrote, t);
      case NothingToRemove => OnwardSame(s, t);
      case CheckHeadAbsent(ok) => OnwardSame(s, t);
      case CheckWorkerAbsent(ok) => OnwardSame(s, t);
    }
  }

  lemma ObserversOnward(s: State, step: ObserverStep, t: State)
    requires Inv(s) && DoObserver(s, step) == Some(t)
    ensures Onward(s, t)
    ensures Steady(s, t)
  {
    hide Onward, Inv;
    match step {
      case CompareAndWrite(id, wrote) => CasOnward(s, id, wrote, t);
      case MarkReady(id, wrote) => ReadyOnward(s, id, wrote, t);
      case FenceAndMark(id, fenceOk, wrote) => FenceAndMarkOnward(s, id, fenceOk, wrote, t);
      case ObserveBegin(name) => OnwardSame(s, t);
      case ReconcileBegin(name, expired) => OnwardSame(s, t);
      case ReconcileCheck(id) => OnwardSame(s, t);
      case InspectFirst(id, obs) => OnwardSame(s, t);
      case InspectSecond(id, obs) => OnwardSame(s, t);
      case ProbeBegin(name) => OnwardSame(s, t);
    }
  }

  lemma LaunchOnward(s: State, step: LaunchStep, t: State)
    requires Inv(s) && DoLaunch(s, step) == Some(t)
    ensures Onward(s, t)
    ensures Steady(s, t)
  {
    hide Onward, Inv;
    match step {
      case CreateWorker(record, wrote) => OnwardEither(s, record.id.name, t);
      case CreateHead(identity, topology) => OnwardVia(s, s.(past := s.past.(nextLaunch := t.past.nextLaunch)), t);
      case WriteStarting(wrote) => StartingOnward(s, wrote, t);
      case OpenLog(ok, undone) => OpenLogOnward(s, ok, undone, t);
      case StartLauncher(ok, wrote) => StartOnward(s, ok, wrote, t);
      case WriteEnv(ok) => FileOnward(s, step, t);
      case WriteConfig(ok) => FileOnward(s, step, t);
      case WriteWrapper(ok) => FileOnward(s, step, t);
    }
  }

  lemma CallsOnward(s: State, step: CallStep, t: State)
    requires Inv(s) && DoCall(s, step) == Some(t)
    ensures Onward(s, t)
    ensures Steady(s, t)
  {
    hide Onward, Inv;
    match step {
      case RestartLock(id, ok) => RestartLockOnward(s, id, ok, t);
      case RemoveLock(id, ok) => RemoveOnward(s, step, t);
      case RemoveTransport(left) => RemoveOnward(s, step, t);
      case RestartBegin(name) => OnwardSame(s, t);
      case RemoveBegin(name) => OnwardSame(s, t);
    }
  }

  lemma StepOnward(s: State, step: Step, t: State)
    requires Inv(s) && Do(s, step) == Some(t)
    ensures Onward(s, t)
    ensures Steady(s, t) || (step.ByWorld? && step.world.Crash?)
  {
    hide Onward, Inv, Steady;
    match step {
      case ByWorld(x) => WorldOnward(s, x, t);
      case ByStop(x) => StopOnward(s, x, t);
      case ByRelease(x) => ReleaseOnward(s, x, t);
      case ByObserver(x) => ObserversOnward(s, x, t);
      case ByLaunch(x) => LaunchOnward(s, x, t);
      case ByCall(x) => CallsOnward(s, x, t);
    }
  }
}
