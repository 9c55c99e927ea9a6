/**
 Interleaving guarantees: stale goroutines, compare-and-write, exact removal, and
 joining a launcher while its waiter runs.
 */
module LifecycleActors {
  import opened Common
  import opened Lifecycle
  import opened LifecycleInvariant
  import opened LifecycleFrames
  import opened LifecycleSteps
  import opened LifecycleProgress

  // ---------------------------------------------------------------- stale goroutines

  /** The launch a goroutine read and is bound to; calls by name have none. */
  function BoundTo(a: Actor): Option<LaunchId> {
    match a
    case Waiting(n, l, pid) => Some(l)
    case Waited(n, l, clean) => Some(l)
    case StopWanted(n, bound, next) => if bound.Some? then Some(bound.value.launch) else None
    case Reconciling(e) => Some(e.launch)
    case Inspecting(pass, e, h) => Some(e.launch)
    case CasWanted(e, u) => Some(e.launch)
    case FenceWanted(e) => Some(e.launch)
    case ReadyWanted(e) => Some(e.launch)
    case RestartWanted(r) => None
    case RemoveWanted(r) => None
  }

  /** The goroutine that takes a step outside the stop, launch and remove sections. */
  function Mover(step: Step): Option<ActorId> {
    match step
    case ByWorld(WaitReturns(id, clean)) => Some(id)
    case ByWorld(WaiterLock(id, wrote)) => Some(id)
    case ByWorld(StopBegin(id, wrote)) => Some(id)
    case ByObserver(ReconcileCheck(id)) => Some(id)
    case ByObserver(InspectFirst(id, obs)) => Some(id)
    case ByObserver(InspectSecond(id, obs)) => Some(id)
    case ByObserver(CompareAndWrite(id, wrote)) => Some(id)
    case ByObserver(FenceAndMark(id, fenceOk, wrote)) => Some(id)
    case ByObserver(MarkReady(id, wrote)) => Some(id)
    case _ => None
  }

  /** Records and processes of other launches stay as they are. */
  ghost predicate OnlyTouches(s: State, t: State, l: LaunchId) {
    && (forall n :: n in t.disk.records ==> n in s.disk.records)
    && (forall n :: n in s.disk.records && s.disk.records[n].launch != l ==>
          n in t.disk.records && t.disk.records[n] == s.disk.records[n])
    && (forall p :: p in t.world.procs ==> p in s.world.procs && s.world.procs[p] == t.world.procs[p])
    && (forall p :: p in s.world.procs && s.world.procs[p] != l ==> p in t.world.procs)
  }

  ghost predicate Harmless(s: State, t: State, id: ActorId, l: LaunchId) {
    && OnlyTouches(s, t, l) && t.world.containers == s.world.containers
    && (t.agent.holder == s.agent.holder || (t.agent.holder.StopAt? && t.agent.holder.res.launch == l))
    && (id in t.agent.actors ==> BoundTo(t.agent.actors[id]) == Some(l))
  }

  /** stopGeneration is called by goroutines that have nothing to do afterwards. */
  lemma NextOfBound(s: State, id: ActorId)
    requires Inv(s) && id in s.agent.actors && s.agent.actors[id].StopWanted? && s.agent.actors[id].bound.Some?
    ensures s.agent.actors[id].next.Finish?
  { hide Inv; TheActor(s, id); }

  lemma BoundWorldStep(s: State, x: WorldStep, t: State, id: ActorId, l: LaunchId)
    requires Inv(s) && DoWorld(s, x) == Some(t) && Mover(ByWorld(x)) == Some(id)
    requires id in s.agent.actors && BoundTo(s.agent.actors[id]) == Some(l)
    ensures Harmless(s, t, id, l)
  {
    hide Inv;
    if s.agent.actors[id].StopWanted? { NextOfBound(s, id); }
    var n := NameOf(s.agent.actors[id]);
    if n in s.disk.records { KeyOf(s, n); }
  }

  lemma BoundObserverStep(s: State, x: ObserverStep, t: State, id: ActorId, l: LaunchId)
    requires Inv(s) && DoObserver(s, x) == Some(t) && Mover(ByObserver(x)) == Some(id)
    requires id in s.agent.actors && BoundTo(s.agent.actors[id]) == Some(l)
    ensures Harmless(s, t, id, l)
  {
    hide Inv;
    TheUpdate(s, id);
    var n := NameOf(s.agent.actors[id]);
    if n in s.disk.records { KeyOf(s, n); }
  }

  lemma TheUpdate(s: State, id: ActorId)
    requires Inv(s) && id in s.agent.actors
    ensures var a := s.agent.actors[id]; a.CasWanted? ==> a.updated.id == a.seen.id && a.updated.launch == a.seen.launch
  { hide Inv; TheActor(s, id); }

  /** A goroutine bound to launch `l` changes no record and kills no process of
      another launch, touches no container, and a stop it enters is a stop of `l`. */
  lemma StaleActorIsHarmless(s: State, step: Step, t: State, id: ActorId, l: LaunchId)
    requires Inv(s) && Do(s, step) == Some(t) && Mover(step) == Some(id)
    requires id in s.agent.actors && BoundTo(s.agent.actors[id]) == Some(l)
    ensures Harmless(s, t, id, l)
  {
    hide Inv, Harmless;
    match step {
      case ByWorld(x) => BoundWorldStep(s, x, t, id, l);
      case ByObserver(x) => BoundObserverStep(s, x, t, id, l);
    }
  }

  lemma StopStepTouches(s: State, step: StopStep, t: State)
    requires Inv(s) && DoStop(s, step) == Some(t) && s.agent.holder.StopAt?
    ensures OnlyTouches(s, t, s.agent.holder.res.launch)
  {
    hide Inv, StopPcOk, NextOk, RecordOk, Inspected, SourceMatches;
    TheStop(s);
  }

  lemma ReleaseStepTouches(s: State, step: ReleaseStep, t: State)
    requires Inv(s) && DoRelease(s, step) == Some(t) && s.agent.holder.StopAt?
    ensures OnlyTouches(s, t, s.agent.holder.res.launch)
  {
    hide Inv, StopPcOk, NextOk, RecordOk, VerifiedAbsent;
    TheStop(s);
  }

  /** Inside the stop critical section only the launch it stops is touched. */
  lemma StopTouchesItsLaunch(s: State, step: Step, t: State)
    requires Inv(s) && Do(s, step) == Some(t) && s.agent.holder.StopAt? && (step.ByStop? || step.ByRelease?)
    ensures OnlyTouches(s, t, s.agent.holder.res.launch)
  {
    hide Inv, OnlyTouches;
    match step {
      case ByStop(x) => StopStepTouches(s, x, t);
      case ByRelease(x) => ReleaseStepTouches(s, x, t);
    }
  }

  // ---------------------------------------------------------------- compare-and-write

  /** The record `n` is the one stamped `stamp`. */
  predicate Stamped(s: State, n: Name, stamp: nat) {
    n in s.disk.records && s.disk.records[n].stamp == stamp
  }

  /** A stamp that has been replaced never comes back. */
  lemma {:induction false} StampIsGone(s: State, steps: seq<Step>, t: State, n: Name, stamp: nat)
    requires Inv(s) && Run(s, steps, t, true) && stamp < s.disk.clock && !Stamped(s, n, stamp)
    ensures !Stamped(t, n, stamp)
    decreases |steps|
  {
    hide Inv, Do;
    if steps != [] {
      var u := Do(s, steps[0]).value;
      StepKeeps(s, steps[0], u);
      StepOnward(s, steps[0], u);
      StampIsGone(u, steps[1..], t, n, stamp);
    }
  }

  /** While a stamp is in force, so is the whole record. */
  lemma {:induction false} StampedIsSame(s: State, steps: seq<Step>, t: State, n: Name)
    requires Inv(s) && Run(s, steps, t, true) && n in s.disk.records && Stamped(t, n, s.disk.records[n].stamp)
    ensures t.disk.records[n] == s.disk.records[n]
    decreases |steps|
  {
    hide Inv, Do, ContainersStep, ProcsStep, TableStep, WrappersStep, FenceStep;
    TheRecordStamp(s, n);
    if steps != [] {
      var u := Do(s, steps[0]).value;
      StepKeeps(s, steps[0], u);
      StepOnward(s, steps[0], u);
      if Stamped(u, n, s.disk.records[n].stamp) { StampedIsSame(u, steps[1..], t, n); }
      else { StampIsGone(u, steps[1..], t, n, s.disk.records[n].stamp); }
    }
  }

  lemma TheRecordStamp(s: State, n: Name)
    requires Inv(s) && n in s.disk.records
    ensures s.disk.records[n].stamp < s.disk.clock
  { hide Inv; TheRecord(s, n); }

  /** A record that is written carries a stamp newer than every stored one, so nothing
      that was read before the write, however long ago, is current after it. */
  lemma WriteMakesReadsStale(s: State, steps: seq<Step>, t: State, n: Name, r: Record)
    requires Inv(s) && Run(s, steps, t, true) && n in s.disk.records && r.id.name == n
    ensures !StillCurrent(Write(t, r), s.disk.records[n])
    ensures forall m :: m in t.disk.records ==> t.disk.records[m].stamp < Write(t, r).disk.records[n].stamp
  {
    hide Inv, Run;
    TheRecord(s, n);
    ClockGrows(s, steps, t);
    RunKeeps(s, steps, t);
    forall m | m in t.disk.records ensures t.disk.records[m].stamp < t.disk.clock { TheRecordStamp(t, m); }
  }

  /** If a compare-and-write (or a fence-and-mark) finds the record it read at `s`
      still current at `t`, that record was in force at every moment in between:
      no status change by stop or by the waiter is overwritten. */
  lemma CompareSawEveryWrite(s: State, before: seq<Step>, m: State, after: seq<Step>, t: State, n: Name)
    requires Inv(s) && Run(s, before, m, true) && Run(m, after, t, true)
    requires n in s.disk.records && s.disk.records[n].id.name == n && StillCurrent(t, s.disk.records[n])
    ensures n in m.disk.records && m.disk.records[n] == s.disk.records[n] == t.disk.records[n]
  {
    hide Inv, Run;
    var stamp := s.disk.records[n].stamp;
    RunKeeps(s, before, m);
    TheRecordStamp(s, n);
    ClockGrows(s, before, m);
    if !Stamped(m, n, stamp) { StampIsGone(m, after, t, n, stamp); }
    StampedIsSame(s, before, m, n);
    StampedIsSame(m, after, t, n);
  }

  lemma {:induction false} ClockGrows(s: State, steps: seq<Step>, t: State)
    requires Inv(s) && Run(s, steps, t, true)
    ensures s.disk.clock <= t.disk.clock
    decreases |steps|
  {
    hide Inv, Do, RecordsStep, ContainersStep, ProcsStep, TableStep, WrappersStep, FenceStep;
    if steps != [] {
      var u := Do(s, steps[0]).value;
      StepKeeps(s, steps[0], u);
      StepOnward(s, steps[0], u);
      ClockGrows(u, steps[1..], t);
    }
  }

  // ---------------------------------------------------------------- the orphan pass

  /** After an agent restart: a head whose two containers run is recorded as running, one
      without any container goes to the fence, and everything in between, one container
      or two that do not both run, ends with the goroutine wanting the stop of exactly
      the generation it read. */
  lemma OrphanPassExactly(s: State, id: ActorId, w: Obs, t: State)
    requires id in s.agent.actors && s.agent.actors[id].Inspecting? && s.agent.actors[id].pass == OrphanPass
    requires s.agent.actors[id].head.Some? && DoInspectSecond(s, id, Some(w)) == Some(t)
    ensures var e, h := s.agent.actors[id].seen, s.agent.actors[id].head.value;
      && id in t.agent.actors
      && (t.agent.actors[id] == CasWanted(e, e.(status := Running)) <==> BothRunning(h, w))
      && (t.agent.actors[id] == StopWanted(e.id.name, Some(e), Finish) <==>
          (h.Present? || w.Present?) && !(h.Present? && h.running && w.Present? && w.running))
      && (t.agent.actors[id] == FenceWanted(e) <==> h.Absent? && w.Absent?)
  { }

  // ---------------------------------------------------------------- exact removal

  /** The container was checked to be the record's own on this node. */
  predicate Owned(s: State, r: Record, c: ContainerId) {
    && c in s.world.containers
    && Conforms(s.world.containers[c], r, s.world.containers[c].node)
    && RecordedCid(r, s.world.containers[c].node) == Some(c)
  }

  /** No step of the agent but the removal inside stop changes any container. */
  lemma OnlyStopRemoves(s: State, step: Step, t: State)
    requires Do(s, step) == Some(t) && !step.ByWorld? && t.world.containers != s.world.containers
    ensures step.ByRelease? && (step.release.RunStopScript? || step.release.RemoveExact?)
    ensures s.agent.holder.StopAt? && s.agent.holder.spc.RemoveContainers?
  { }

  /** When stop reaches its removal, every container under the fixed name, on
      either node, carries the record's launch, pinned policy, rank and recorded ID. */
  lemma NamedAreOwned(s: State, c: ContainerId)
    requires Inv(s) && s.agent.holder.StopAt? && s.agent.holder.spc.RemoveContainers?
    requires c in s.world.containers && s.world.containers[c].named
    ensures Owned(s, s.agent.holder.res, c)
  {
    hide Inv;
    TheStop(s);
    var node := s.world.containers[c].node;
    assert ObsOk(s, s.agent.holder.res, node, if node == Local then s.agent.holder.spc.h else s.agent.holder.spc.w);
  }

  /** Destructive commands are exact: whatever container a step of the agent stops
      or removes is the record's own. */
  lemma RemovalIsExact(s: State, step: Step, t: State, c: ContainerId)
    requires Inv(s) && Do(s, step) == Some(t) && !step.ByWorld? && c in s.world.containers
    requires c !in t.world.containers || t.world.containers[c] != s.world.containers[c]
    ensures s.agent.holder.StopAt? && Owned(s, s.agent.holder.res, c)
  {
    hide Inv;
    OnlyStopRemoves(s, step, t);
    RemovedIsOwned(s, step.release, t, c);
  }

  lemma RemovedIsOwned(s: State, step: ReleaseStep, t: State, c: ContainerId)
    requires Inv(s) && DoRelease(s, step) == Some(t) && (step.RunStopScript? || step.RemoveExact?)
    requires c in s.world.containers
    requires c !in t.world.containers || t.world.containers[c] != s.world.containers[c]
    ensures Owned(s, s.agent.holder.res, c)
  {
    hide Inv;
    if step.RunStopScript? { NamedAreOwned(s, c); } else { TheStop(s); }
  }

  /** While a foreign or mismatched container holds the fixed name on either node,
      no step of the agent removes anything on any node. */
  lemma MismatchProtectsBothNodes(s: State, step: Step, t: State, c: ContainerId)
    requires Inv(s) && Do(s, step) == Some(t) && !step.ByWorld?
    requires c in s.world.containers && s.world.containers[c].named
    requires s.agent.holder.StopAt? ==> !Owned(s, s.agent.holder.res, c)
    ensures t.world.containers == s.world.containers
  {
    hide Inv, Do;
    if t.world.containers != s.world.containers {
      OnlyStopRemoves(s, step, t);
      NamedAreOwned(s, c);
    }
  }

  /** The record names a container on this node that exists without the fixed name. */
  predicate Unnamed(s: State, r: Record, node: Node, c: ContainerId) {
    && RecordedCid(r, node) == Some(c) && c in s.world.containers
    && s.world.containers[c].node == node && !s.world.containers[c].named
  }

  /** No inspection of that node answers. */
  lemma UnnamedIsRefused(s: State, r: Record, node: Node, obs: Obs, c: ContainerId)
    requires Unnamed(s, r, node, c)
    ensures !Inspected(s, r, node, obs)
  { }

  /** A stop whose record names such a container on a node it has not looked at yet,
      or that has refused already. */
  predicate WillRefuse(s: State, node: Node, c: ContainerId) {
    && s.agent.holder.StopAt? && Unnamed(s, s.agent.holder.res, node, c)
    && (|| s.agent.holder.spc in {Join, Fence, Source, InspectHead, MarkFailed}
        || (node == Remote && s.agent.holder.spc.InspectWorker?))
  }

  lemma WorldKeepsRefusal(s: State, x: WorldStep, t: State, node: Node, c: ContainerId)
    requires Inv(s) && WillRefuse(s, node, c) && DoWorld(s, x) == Some(t)
    ensures c in t.world.containers && t.agent.holder.StopAt? ==> WillRefuse(t, node, c)
  {
    hide Inv, NoNamed;
    TheHistory(s);
  }

  lemma StopKeepsRefusal(s: State, x: StopStep, t: State, node: Node, c: ContainerId)
    requires WillRefuse(s, node, c) && DoStop(s, x) == Some(t)
    ensures WillRefuse(t, node, c) && t.world.containers == s.world.containers
  {
    hide SourceMatches;
    if x.LookHead? && x.obs.Some? && node == Local { UnnamedIsRefused(s, s.agent.holder.res, node, x.obs.value, c); }
    if x.LookWorker? && x.obs.Some? && node == Remote { UnnamedIsRefused(s, s.agent.holder.res, node, x.obs.value, c); }
  }

  /** While a recorded container exists without the fixed name, on either node, such a
      stop never gets to its removal: no step of the agent changes a container, and
      the stop can only go on to refuse. */
  lemma RecordedWithoutNameRemovesNothing(s: State, step: Step, t: State, node: Node, c: ContainerId)
    requires Inv(s) && WillRefuse(s, node, c) && Do(s, step) == Some(t)
    ensures step.ByWorld? || t.world.containers == s.world.containers
    ensures c in t.world.containers && t.agent.holder.StopAt? ==> WillRefuse(t, node, c)
  {
    hide Inv;
    match step {
      case ByWorld(x) => WorldKeepsRefusal(s, x, t, node, c);
      case ByStop(x) => StopKeepsRefusal(s, x, t, node, c);
      case ByRelease(x) =>
      case ByObserver(x) => ObserverKeepsContainers(s, x, t);
      case ByLaunch(x) =>
      case ByCall(x) =>
    }
  }

  /** Observers move only themselves while a stop holds the lock. */
  lemma ObserverKeepsContainers(s: State, x: ObserverStep, t: State)
    requires DoObserver(s, x) == Some(t) && !s.agent.holder.Free?
    ensures t.world == s.world && t.agent.holder == s.agent.holder
  { }

  // ---------------------------------------------------------------- join and wait

  /** The launcher process of this entry has exited. */
  function AfterExit(s: State, e: Entry): State {
    if e.pid in s.world.procs then s.(world := s.world.(procs := s.world.procs - {e.pid})) else s
  }

  /** Stop never waits for a `done` that needs the lock it holds: whenever the join
      is blocked, the waiter can close `done` as soon as the launcher is gone, and
      the join then completes, all with the lock still held by stop. */
  lemma JoinCanFinish(s: State, clean: bool)
    requires Inv(s) && StoppingAt(s, Join)
    requires var r := s.agent.holder.res;
      r.id.name in s.agent.table && s.agent.table[r.id.name].launch == r.launch && !s.agent.table[r.id.name].done
    ensures var e := s.agent.table[s.agent.holder.res.id.name];
      && (e.pid in s.world.procs ==> Do(s, ByWorld(ProcExit(e.pid))) == Some(AfterExit(s, e)))
      && Do(AfterExit(s, e), ByWorld(WaitReturns(e.waiter, clean))).Some?
      && var u := Do(AfterExit(s, e), ByWorld(WaitReturns(e.waiter, clean))).value;
         && u.agent.holder == s.agent.holder
         && Do(u, ByStop(JoinReaped(true))).Some?
         && StoppingAt(Do(u, ByStop(JoinReaped(true))).value, Fence)
  {
    hide Inv;
    TheEntry(s, s.agent.holder.res.id.name);
  }

  /** No table entry is watched by this goroutine, nor will one ever be. */
  predicate Unwatched(s: State, w: ActorId) {
    w < s.agent.nextActor && forall n :: n in s.agent.table ==> s.agent.table[n].waiter != w
  }

  /** The joiner removes the entry, even if it then reports an error, so the waiter
      can no longer find it. */
  lemma JoinerTakesEntry(s: State, ok: bool, t: State)
    requires Inv(s) && DoJoinReaped(s, ok) == Some(t)
    ensures Unwatched(t, s.agent.table[s.agent.holder.res.id.name].waiter)
  {
    hide Inv;
    var n := s.agent.holder.res.id.name;
    TheEntry(s, n);
    TheActor(s, s.agent.table[n].waiter);
    forall m | m in t.agent.table ensures t.agent.table[m].waiter != s.agent.table[n].waiter { TheEntry(s, m); }
  }

  lemma {:induction false} UnwatchedForever(s: State, steps: seq<Step>, t: State, w: ActorId)
    requires Inv(s) && Unwatched(s, w) && Run(s, steps, t, true)
    ensures Unwatched(t, w)
    decreases |steps|
  {
    hide Inv, Do, RecordsStep, ContainersStep, ProcsStep, WrappersStep, FenceStep;
    if steps != [] {
      var u := Do(s, steps[0]).value;
      StepKeeps(s, steps[0], u);
      StepOnward(s, steps[0], u);
      UnwatchedForever(u, steps[1..], t, w);
    }
  }

  /** If the joiner removed a launch's table entry, with or without an error, its waiter, however late it gets
      the lock, writes nothing and starts no cleanup: it only ends. */
  lemma JoinedWaiterWritesNothing(s: State, ok: bool, joined: State, steps: seq<Step>, t: State, wrote: bool, u: State)
    requires Inv(s) && DoJoinReaped(s, ok) == Some(joined) && Run(joined, steps, t, true)
    requires DoWaiterLock(t, s.agent.table[s.agent.holder.res.id.name].waiter, wrote) == Some(u)
    ensures u == End(t, s.agent.table[s.agent.holder.res.id.name].waiter)
  {
    hide Inv, Run;
    JoinerTakesEntry(s, ok, joined);
    StepKeeps(s, ByStop(JoinReaped(ok)), joined);
    UnwatchedForever(joined, steps, t, s.agent.table[s.agent.holder.res.id.name].waiter);
  }

  /** If the waiter gets there first, it removes the entry itself. */
  lemma WaiterTakesEntry(s: State, id: ActorId, wrote: bool, t: State)
    requires Inv(s) && DoWaiterLock(s, id, wrote) == Some(t) && Watched(s, id)
    ensures s.agent.actors[id].name !in t.agent.table && Unwatched(t, id)
  {
    hide Inv;
    TheActor(s, id);
    var n := s.agent.actors[id].name;
    forall m | m in t.agent.table ensures t.agent.table[m].waiter != id { TheEntry(s, m); }
  }
}
