/**
 Every step of the lifecycle keeps the invariant; so does every run.
 */
module LifecycleSteps {
  import opened Common
  import opened Lifecycle
  import opened LifecycleInvariant
  import opened LifecycleFrames

  // ---------------------------------------------------------------- environment

  lemma KeepProcExit(s: State, p: Pid, t: State)
    requires Inv(s) && DoProcExit(s, p) == Some(t)
    ensures Inv(t)
  { hide Inv, HistoryOk; TheHistory(s); KeepProcs(s, t); }

  lemma KeepProcFork(s: State, p: Pid, t: State)
    requires Inv(s) && DoProcFork(s, p) == Some(t)
    ensures Inv(t)
  { hide Inv, HistoryOk; TheHistory(s); KeepProcs(s, t); }

  lemma KeepContainerStep(s: State, step: WorldStep, t: State)
    requires Inv(s) && DoWorld(s, step) == Some(t)
    requires step.ContainerRun? || step.ContainerRename? || step.ContainerGone?
    ensures Inv(t)
  { hide Inv; KeepShrunk(s, t); }

  lemma KeepContainerCreate(s: State, p: Pid, node: Node, pinned: bool, rank: nat, t: State)
    requires Inv(s) && DoContainerCreate(s, p, node, pinned, rank) == Some(t)
    ensures Inv(t)
  { hide Inv, HistoryOk; TheHistory(s); KeepGrown(s, p, t); }

  // ---------------------------------------------------------------- waitForProcess

  /** The waiter of a tabled launcher marks its entry done in the same breath. */
  lemma KeepTabledReturn(s: State, id: ActorId, a: Actor, n: Name, t: State)
    requires Inv(s) && id in s.agent.actors && s.agent.actors[id].Waiting? && n == s.agent.actors[id].name
    requires n in s.agent.table && s.agent.table[n].waiter == id && a.Waited? && a.name == n
    requires a.launch == s.agent.actors[id].launch
    requires t == s.(agent := s.agent.(actors := s.agent.actors[id := a],
        table := s.agent.table[n := s.agent.table[n].(done := true)]))
    ensures Inv(t)
  {
    hide Inv;
    TheActor(s, id);
    TheEntry(s, n);
    assert s.agent.holder.Free? || s.agent.holder.owner != id by { TheHolder(s); }
    var u := s.(agent := s.agent.(table := s.agent.table - {n}));
    KeepUntabled(s, n);
    var v := u.(agent := u.agent.(actors := u.agent.actors[id := a]));
    KeepLocal(u, id, a, v);
    KeepTabled(v, n, t.agent.table[n]);
    assert t.agent.table == v.agent.table[n := t.agent.table[n]];
  }

  lemma KeepWaitReturns(s: State, id: ActorId, clean: bool, t: State)
    requires Inv(s) && DoWaitReturns(s, id, clean) == Some(t)
    ensures Inv(t)
  {
    var a := Waited(s.agent.actors[id].name, s.agent.actors[id].launch, clean);
    if s.agent.actors[id].name in s.agent.table && s.agent.table[s.agent.actors[id].name].waiter == id {
      hide Inv;
      KeepTabledReturn(s, id, a, s.agent.actors[id].name, t);
    } else {
      TheActor(s, id);
      assert s.agent.holder.Free? || s.agent.holder.owner != id by { TheHolder(s); }
      hide Inv;
      KeepLocal(s, id, a, t);
    }
  }

  lemma KeepWaiterLock(s: State, id: ActorId, wrote: bool, t: State)
    requires Inv(s) && DoWaiterLock(s, id, wrote) == Some(t)
    ensures Inv(t)
  {
    hide Inv;
    TheActor(s, id);
    var a := s.agent.actors[id];
    var n := a.name;
    if n !in s.agent.table || s.agent.table[n].waiter != id {
      KeepEnded(s, id);
    } else {
      var u := s.(agent := s.agent.(table := s.agent.table - {n}));
      KeepUntabled(s, n);
      if n in s.disk.records { TheRecord(s, n); }
      TheHistory(s);
      if n !in s.disk.records || s.disk.records[n].launch != a.launch
         || s.disk.records[n].status in {Stopping, Stopped} {
        KeepEnded(u, id);
      } else {
        var r := s.disk.records[n].(status := if a.clean then Exited else Failed);
        var v := if wrote then Write(u, r) else u;
        if wrote { KeepWrite(u, r); }
        KeepLocal(v, id, StopWanted(n, Some(r), Finish), t);
      }
    }
  }

  // ---------------------------------------------------------------- stop

  lemma KeepStopRequest(s: State, name: Name, t: State)
    requires Inv(s) && DoStopRequest(s, name) == Some(t)
    ensures Inv(t)
  {
    hide Inv, HolderOk;
    TheHolder(s);
    assert !Watched(s, s.agent.nextActor) by { Fresh(s); }
    assert s.agent.holder.Free? || s.agent.holder.owner != s.agent.nextActor by { OwnerUsed(s); }
    KeepLocal(s, s.agent.nextActor, StopWanted(name, None, Finish), t);
  }

  lemma Fresh(s: State)
    requires Inv(s)
    ensures s.agent.nextActor !in s.agent.actors
  { hide HolderOk, TableOk, RecordsOk, HistoryOk, ActorOk; }

  lemma OwnerUsed(s: State)
    requires Inv(s)
    ensures s.agent.holder.Free? || s.agent.holder.owner < s.agent.nextActor
  { hide TableOk, RecordsOk, HistoryOk, ActorsOk; }

  /** The stop critical section ends without an error and its caller goes on. */
  lemma KeepReleaseOk(s: State, owner: ActorId, n: Name, next: Next)
    requires Inv(s) && s.agent.holder.Free? && owner < s.agent.nextActor && !Watched(s, owner)
    requires NextOk(s, owner, n, next)
    requires next.ThenRestart? ==> s.disk.records[n].status == Stopped
    ensures Inv(ReleaseOk(s, owner, next))
  {
    hide Inv;
    match next {
      case Finish => KeepEnded(s, owner);
      case ThenRestart(res) => KeepLocal(s, owner, RestartWanted(res), ReleaseOk(s, owner, next));
      case ThenRemove(res) => KeepLocal(s, owner, RemoveWanted(res), ReleaseOk(s, owner, next));
    }
  }

  lemma KeepReleaseError(s: State, owner: ActorId, n: Name, next: Next)
    requires Inv(s) && s.agent.holder.Free? && !Watched(s, owner) && NextOk(s, owner, n, next)
    ensures Inv(ReleaseError(s, owner, n, next))
  {
    hide Inv;
    KeepEnded(s, owner);
    if !next.Finish? { KeepUnclaim(End(s, owner), n); }
  }

  /** stop marks the record "stopping" and holds the lock from there on. */
  lemma KeepStopTaken(s: State, id: ActorId, t: State)
    requires Inv(s) && s.agent.holder.Free? && id in s.agent.actors && s.agent.actors[id].StopWanted?
    requires s.agent.actors[id].name in s.disk.records && s.disk.records[s.agent.actors[id].name].status != Stopped
    requires
      var a := s.agent.actors[id];
      var r := s.disk.records[a.name];
      var u := End(Write(s, r.(status := Stopping)), id);
      t == Hold(u, StopAt(if r.id.role.Head? then Join else MarkStopped, id, u.disk.records[a.name], a.next))
    ensures Inv(t)
  {
    hide Inv;
    TheActor(s, id);
    var n := s.agent.actors[id].name;
    TheRecord(s, n);
    var r := s.disk.records[n].(status := Stopping);
    var u := Write(s, r);
    KeepWrite(s, r);
    KeepEnded(u, id);
    KeepHolder(End(u, id), t);
  }

  lemma KeepStopBegin(s: State, id: ActorId, wrote: bool, t: State)
    requires Inv(s) && DoStopBegin(s, id, wrote) == Some(t)
    ensures Inv(t)
  {
    hide Inv, NextOk;
    TheActor(s, id);
    var a := s.agent.actors[id];
    var n := a.name;
    if n !in s.disk.records {
      KeepReleaseError(s, id, n, a.next);
    } else {
      var r := s.disk.records[n];
      if (a.bound.Some? && !SameGeneration(a.bound.value, r)) || r.status == Stopped {
        KeepReleaseOk(s, id, n, a.next);
      } else if !wrote {
        KeepReleaseError(s, id, n, a.next);
      } else {
        KeepStopTaken(s, id, t);
      }
    }
  }

  // ---------------------------------------------------------------- stopResourceLocked

  lemma KeepJoin(s: State, step: StopStep, t: State)
    requires Inv(s) && DoStop(s, step) == Some(t)
    requires step.JoinAbsent? || step.JoinReaped? || step.JoinTimeout?
    ensures Inv(t)
  {
    hide Inv;
    if step.JoinReaped? {
      var u := s.(agent := s.agent.(table := s.agent.table - {s.agent.holder.res.id.name}));
      KeepUntabled(s, s.agent.holder.res.id.name);
      TheHolder(u);
      KeepHolder(u, t);
    } else {
      TheHolder(s);
      KeepHolder(s, t);
    }
  }

  lemma KeepFenceLaunch(s: State, ok: bool, t: State)
    requires Inv(s) && DoFenceLaunch(s, ok) == Some(t)
    ensures Inv(t)
  {
    hide Inv;
    TheHolder(s);
    TheRecord(s, s.agent.holder.res.id.name);
    if ok {
      var l := s.agent.holder.res.launch;
      var u := Fenced(s, l);
      KeepFence(s, l, u);
      TheHolder(u);
      KeepHolder(u, t);
    } else {
      KeepHolder(s, t);
    }
  }

  lemma KeepCheckSource(s: State, checkoutOk: bool, t: State)
    requires Inv(s) && DoCheckSource(s, checkoutOk) == Some(t)
    ensures Inv(t)
  {
    hide Inv;
    TheHolder(s);
    KeepHolder(s, t);
  }

  /** The absence checks move the program counter only. */
  lemma KeepAbsenceCheck(s: State, step: ReleaseStep, t: State)
    requires Inv(s) && DoRelease(s, step) == Some(t)
    requires step.NothingToRemove? || step.CheckHeadAbsent? || step.CheckWorkerAbsent?
    ensures Inv(t)
  {
    hide Inv;
    TheHolder(s);
    KeepHolder(s, t);
  }

  lemma KeepStopLook(s: State, step: StopStep, t: State)
    requires Inv(s) && DoStop(s, step) == Some(t) && (step.LookHead? || step.LookWorker?)
    ensures Inv(t)
  {
    hide Inv, HistoryOk;
    TheHolder(s);
    TheHistory(s);
    KeepHolder(s, t);
  }

  lemma KeepWriteIds(s: State, wrote: bool, t: State)
    requires Inv(s) && DoWriteIds(s, wrote) == Some(t)
    ensures Inv(t)
  {
    if !wrote {
      hide Inv, NextOk;
      FreeNextOk(s);
      KeepStopError(s, Hold(s, Free));
    } else {
      TheStop(s);
      hide Inv;
      var f := Hold(s, Free);
      KeepFree(s);
      var r := WithIds(s.agent.holder.res, s.agent.holder.spc.h, s.agent.holder.spc.w);
      KeepWrite(f, r);
      KeepHolder(Write(f, r), t);
    }
  }

  lemma KeepRemoval(s: State, step: ReleaseStep, t: State)
    requires Inv(s) && DoRelease(s, step) == Some(t) && (step.RunStopScript? || step.RemoveExact?)
    ensures Inv(t)
  {
    hide Inv;
    var u := s.(world := s.world.(containers := t.world.containers));
    KeepShrunk(s, u);
    TheHolder(u);
    KeepHolder(u, t);
  }

  lemma KeepStoppedRecord(s: State, u: State)
    requires Inv(s) && StoppingAt(s, MarkStopped)
    requires u == Write(Hold(s, Free), s.agent.holder.res.(status := Stopped))
    ensures Inv(u)
  {
    hide Inv, NextOk;
    TheStop(s);
    KeepFree(s);
    KeepWrite(Hold(s, Free), s.agent.holder.res.(status := Stopped));
  }

  lemma KeepStoppedState(s: State)
    requires Inv(s) && StoppingAt(s, MarkStopped) && s.agent.holder.res.id.name in s.disk.records
    ensures Inv(Hold(WithStopped(s), Free))
  {
    hide Inv, NextOk;
    TheStop(s);
    var u := Write(Hold(s, Free), s.agent.holder.res.(status := Stopped));
    KeepStoppedRecord(s, u);
    if s.agent.holder.res.id.role.Head? { KeepReleased(u, s.agent.holder.res.id.name, Hold(WithStopped(s), Free)); }
  }

  /** The stop critical section ends with an error after its last write, if any. */
  lemma KeepStopError(s: State, u: State)
    requires Inv(s) && s.agent.holder.StopAt? && Inv(u) && u.agent.holder.Free? && u.agent.actors == s.agent.actors
    requires u.agent.table == s.agent.table
    requires NextOk(u, s.agent.holder.owner, s.agent.holder.res.id.name, s.agent.holder.next)
    ensures Inv(ReleaseError(u, s.agent.holder.owner, s.agent.holder.res.id.name, s.agent.holder.next))
  {
    hide Inv, RecordOk, StopPcOk, NextOk;
    TheStop(s);
    KeepReleaseError(u, s.agent.holder.owner, s.agent.holder.res.id.name, s.agent.holder.next);
  }

  lemma FreeNextOk(s: State)
    requires Inv(s) && s.agent.holder.StopAt?
    ensures Inv(Hold(s, Free))
    ensures NextOk(Hold(s, Free), s.agent.holder.owner, s.agent.holder.res.id.name, s.agent.holder.next)
  {
    hide Inv, RecordOk, StopPcOk;
    TheStop(s);
    KeepFree(s);
  }

  lemma StoppedNextOk(s: State)
    requires Inv(s) && StoppingAt(s, MarkStopped) && s.agent.holder.res.id.name in s.disk.records
    ensures NextOk(Hold(WithStopped(s), Free), s.agent.holder.owner, s.agent.holder.res.id.name, s.agent.holder.next)
  {
    hide Inv, RecordOk, StopPcOk;
    TheStop(s);
  }

  lemma KeepWroteStopped(s: State, t: State)
    requires Inv(s) && DoWriteStopped(s, true) == Some(t)
    ensures Inv(t)
  {
    hide Inv, RecordOk, StopPcOk, NextOk;
    TheStop(s);
    KeepStoppedState(s);
    StoppedNextOk(s);
    KeepReleaseOk(Hold(WithStopped(s), Free), s.agent.holder.owner, s.agent.holder.res.id.name, s.agent.holder.next);
  }

  lemma KeepWriteStopped(s: State, wrote: bool, t: State)
    requires Inv(s) && DoWriteStopped(s, wrote) == Some(t)
    ensures Inv(t)
  {
    hide Inv, NextOk;
    if wrote {
      KeepWroteStopped(s, t);
    } else {
      FreeNextOk(s);
      KeepStopError(s, Hold(s, Free));
    }
  }

  lemma KeepFailedRecord(s: State, u: State)
    requires Inv(s) && StoppingAt(s, MarkFailed)
    requires u == Write(Hold(s, Free), s.agent.holder.res.(status := Failed))
    ensures Inv(u) && NextOk(u, s.agent.holder.owner, s.agent.holder.res.id.name, s.agent.holder.next)
  {
    hide Inv, StopPcOk;
    TheStop(s);
    KeepFree(s);
    KeepWrite(Hold(s, Free), s.agent.holder.res.(status := Failed));
  }

  lemma KeepWriteFailed(s: State, wrote: bool, t: State)
    requires Inv(s) && DoWriteFailed(s, wrote) == Some(t)
    ensures Inv(t)
  {
    hide Inv, NextOk;
    if wrote {
      var u := Write(Hold(s, Free), s.agent.holder.res.(status := Failed));
      KeepFailedRecord(s, u);
      KeepStopError(s, u);
    } else {
      FreeNextOk(s);
      KeepStopError(s, Hold(s, Free));
    }
  }

  // ---------------------------------------------------------------- observers

  lemma KeepObserveBegin(s: State, name: Name, t: State)
    requires Inv(s) && DoObserveBegin(s, name) == Some(t)
    ensures Inv(t)
  {
    hide Inv;
    TheRecord(s, name);
    Fresh(s);
    KeepLocal(s, s.agent.nextActor, Inspecting(Observe, s.disk.records[name], None), t);
  }

  lemma KeepReconcileBegin(s: State, name: Name, expired: bool, t: State)
    requires Inv(s) && DoReconcileBegin(s, name, expired) == Some(t)
    ensures Inv(t)
  { hide Inv; TheRecord(s, name); Fresh(s); KeepLocal(s, s.agent.nextActor, t.agent.actors[s.agent.nextActor], t); }

  lemma KeepProbeBegin(s: State, name: Name, t: State)
    requires Inv(s) && DoProbeBegin(s, name) == Some(t)
    ensures Inv(t)
  { hide Inv; TheRecord(s, name); Fresh(s); KeepLocal(s, s.agent.nextActor, ReadyWanted(s.disk.records[name]), t); }

  lemma KeepReconcileCheck(s: State, id: ActorId, t: State)
    requires Inv(s) && DoReconcileCheck(s, id) == Some(t)
    ensures Inv(t)
  { hide Inv; TheActor(s, id); KeepLocal(s, id, t.agent.actors[id], t); }

  lemma KeepInspection(s: State, id: ActorId, obs: Option<Obs>, t: State)
    requires Inv(s) && (DoInspectFirst(s, id, obs) == Some(t) || DoInspectSecond(s, id, obs) == Some(t))
    ensures Inv(t)
  {
    hide Inv, HistoryOk;
    TheActor(s, id);
    TheHistory(s);
    assert s.agent.holder.Free? || s.agent.holder.owner != id by { TheHolder(s); }
    if obs.Some? { KeepLocal(s, id, t.agent.actors[id], t); } else { KeepEnded(s, id); }
  }

  lemma KeepCompareAndWrite(s: State, id: ActorId, wrote: bool, t: State)
    requires Inv(s) && DoCompareAndWrite(s, id, wrote) == Some(t)
    ensures Inv(t)
  {
    hide Inv;
    TheActor(s, id);
    var a := s.agent.actors[id];
    if StillCurrent(s, a.seen) && wrote {
      TheRecord(s, a.seen.id.name);
      KeepWrite(s, a.updated);
      KeepEnded(Write(s, a.updated), id);
    } else {
      KeepEnded(s, id);
    }
  }

  lemma KeepFenceAndMark(s: State, id: ActorId, fenceOk: bool, wrote: bool, t: State)
    requires Inv(s) && DoFenceAndMark(s, id, fenceOk, wrote) == Some(t)
    ensures Inv(t)
  {
    hide Inv;
    TheActor(s, id);
    var e := s.agent.actors[id].seen;
    if !StillCurrent(s, e) || LauncherActive(s, e) || !fenceOk {
      KeepEnded(s, id);
    } else {
      TheRecord(s, e.id.name);
      var r := s.disk.records[e.id.name];
      var u := Fenced(s, r.launch);
      KeepFence(s, r.launch, u);
      var v := if wrote then Write(u, r.(status := Stopped)) else u;
      if wrote { KeepWrite(u, r.(status := Stopped)); }
      KeepEnded(v, id);
    }
  }

  lemma KeepMarkReady(s: State, id: ActorId, wrote: bool, t: State)
    requires Inv(s) && DoMarkReady(s, id, wrote) == Some(t)
    ensures Inv(t)
  {
    hide Inv;
    TheActor(s, id);
    var e := s.agent.actors[id].seen;
    if e.id.name !in s.disk.records || !SameGeneration(e, s.disk.records[e.id.name])
       || !s.disk.records[e.id.name].deadline || !wrote {
      KeepEnded(s, id);
    } else {
      TheRecord(s, e.id.name);
      var r := s.disk.records[e.id.name].(deadline := false);
      KeepWrite(s, r);
      KeepEnded(Write(s, r), id);
    }
  }

  // ---------------------------------------------------------------- create, restart

  /** Nobody can be restarting a name that has no record. */
  lemma NothingPending(s: State)
    requires Inv(s) && s.disk.records == map[]
    ensures forall id :: id in s.agent.actors ==> !RestartPending(s.agent.actors[id])
  {
    forall id | id in s.agent.actors ensures !RestartPending(s.agent.actors[id]) { TheActor(s, id); }
  }

  lemma KeepCreateWorker(s: State, r: Record, wrote: bool, t: State)
    requires Inv(s) && DoCreateWorker(s, r, wrote) == Some(t)
    ensures Inv(t)
  {
    hide Inv;
    assert s.disk.records == map[];
    NothingPending(s);
    if wrote { KeepWrite(s, r); }
  }

  lemma KeepCreateHead(s: State, id: Identity, topology: Topology, t: State)
    requires Inv(s) && DoCreateHead(s, id, topology) == Some(t)
    ensures Inv(t)
  {
    hide Inv;
    assert s.disk.records == map[];
    NothingPending(s);
    TheHistory(s);
    Fresh(s);
    KeepFreshLaunch(s);
    var u := s.(past := s.past.(nextLaunch := s.past.nextLaunch + 1));
    KeepBump(u);
    KeepHolder(u.(agent := u.agent.(nextActor := u.agent.nextActor + 1)), t);
  }

  lemma KeepBump(s: State)
    requires Inv(s)
    ensures Inv(s.(agent := s.agent.(nextActor := s.agent.nextActor + 1)))
  {
    hide HolderOk, Singleton, RecordsOk, HistoryOk, WorldOk, ActorsOk, TableOk;
    var t := s.(agent := s.agent.(nextActor := s.agent.nextActor + 1));
    assert ClaimsOk(t) by { TheClaims(s); }
    DiskFrame(s, t);
    WorldFrame(s, t);
    ActorsFrame(s, t, {});
    TableFrame(s, t);
    HolderFrame(s, t);
  }

  /** The first read of restart or remove: a claimed goroutine appears. */
  lemma KeepBeginClaimed(s: State, name: Name, t: State)
    requires Inv(s) && (DoRestartBegin(s, name) == Some(t) || DoRemoveBegin(s, name) == Some(t))
    requires name !in s.agent.claims
    ensures Inv(t)
  {
    hide Inv;
    TheRecord(s, name);
    Fresh(s);
    var u := s.(agent := s.agent.(claims := s.agent.claims[name := s.agent.nextActor],
        nextActor := s.agent.nextActor + 1));
    KeepClaim(s, name);
    KeepLocal(u, s.agent.nextActor, t.agent.actors[s.agent.nextActor], t);
  }

  /** Once its own goroutine is gone, a claim leaves no other restart pending. */
  lemma ClaimExcludes(s: State, n: Name)
    requires Inv(s) && n in s.agent.claims && s.agent.claims[n] !in s.agent.actors
    ensures NoRestart(s, n)
  {
    forall id | id in s.agent.actors && RestartPending(s.agent.actors[id])
      ensures NameOf(s.agent.actors[id]) != n
    {
      TheActor(s, id);
    }
  }

  lemma KeepWorkerRunning(e: State, id: ActorId, r: Record)
    requires Inv(e) && e.agent.holder.Free? && id !in e.agent.actors && r.id.role.Worker?
    requires ReadUnder(e, id, r.id.name, r)
    ensures Inv(Write(e, r.(status := Running)))
  {
    hide Inv;
    TheRecord(e, r.id.name);
    ClaimExcludes(e, r.id.name);
    KeepWrite(e, r.(status := Running));
  }

  lemma KeepRestartWorker(s: State, id: ActorId, ok: bool, t: State)
    requires Inv(s) && DoRestartLock(s, id, ok) == Some(t) && s.agent.actors[id].res.id.role.Worker?
    ensures Inv(t)
  {
    hide Inv;
    TheActor(s, id);
    var r := s.agent.actors[id].res;
    var e := End(s, id);
    KeepEnded(s, id);
    if ok { KeepWorkerRunning(e, id, r); }
    KeepUnclaim(if ok then Write(e, r.(status := Running)) else e, r.id.name);
  }

  lemma KeepRestartHead(s: State, id: ActorId, ok: bool, t: State)
    requires Inv(s) && DoRestartLock(s, id, ok) == Some(t) && s.agent.actors[id].res.id.role.Head?
    ensures Inv(t)
  {
    TheActor(s, id);
    var n := s.agent.actors[id].res.id.name;
    TheRecord(s, n);
    hide Inv;
    var e := End(s, id);
    KeepEnded(s, id);
    if !ok || !NoNamed(s, Local) || !NoNamed(s, Remote) {
      hide ActorOk, RecordOk;
      KeepUnclaim(e, n);
    } else {
      KeepFreshLaunch(e);
      TheHistory(s);
      KeepHolder(e.(past := e.past.(nextLaunch := e.past.nextLaunch + 1)), t);
    }
  }

  lemma KeepRestartLock(s: State, id: ActorId, ok: bool, t: State)
    requires Inv(s) && DoRestartLock(s, id, ok) == Some(t)
    ensures Inv(t)
  {
    hide Inv;
    if s.agent.actors[id].res.id.role.Worker? {
      KeepRestartWorker(s, id, ok, t);
    } else {
      KeepRestartHead(s, id, ok, t);
    }
  }

  lemma KeepEndLaunch(s: State)
    requires Inv(s) && s.agent.holder.LaunchAt?
    ensures Inv(EndLaunch(s))
  {
    hide Inv;
    TheLaunch(s);
    KeepFree(s);
    if s.agent.holder.kind.Restart? { KeepUnclaim(Hold(s, Free), s.agent.holder.res.id.name); }
  }

  /** Before its record is written, a launch meets no head record that is not stopped. */
  lemma NoHeadLive(s: State)
    requires Inv(s) && s.agent.holder.LaunchAt? && !RecordWritten(s.agent.holder.lpc, s.agent.holder.kind)
    ensures forall n :: n in s.disk.records ==> !HeadLive(s.disk.records[n]) && n == s.agent.holder.res.id.name
  {
    hide Inv, HolderOk;
    TheHolder(s);
    forall n | n in s.disk.records
      ensures !HeadLive(s.disk.records[n]) && n == s.agent.holder.res.id.name
    {
      TheRecord(s, n);
      assert HolderOk(s);
      UnfoldHolder(s);
    }
  }

  lemma UnfoldHolder(s: State)
    requires HolderOk(s) && s.agent.holder.LaunchAt? && !RecordWritten(s.agent.holder.lpc, s.agent.holder.kind)
    ensures s.agent.holder.kind.Create? ==> s.disk.records == map[]
    ensures s.agent.holder.kind.Restart? ==>
          s.agent.holder.res.id.name in s.disk.records && s.disk.records[s.agent.holder.res.id.name].status == Stopped
  { }

  /** A file was written: the next program counter finds it in place. */
  lemma KeepWroteFile(s: State, u: State, pc: LaunchPc)
    requires Inv(s) && s.agent.holder.LaunchAt? && !RecordWritten(s.agent.holder.lpc, s.agent.holder.kind)
    requires !RecordWritten(pc, s.agent.holder.kind)
    requires u == s.(agent := s.agent.(holder := Free),
        disk := s.disk.(env := u.disk.env, transports := u.disk.transports))
    requires LaunchFilesOk(u, pc, s.agent.holder.res)
    ensures Inv(Hold(u, s.agent.holder.(lpc := pc)))
  {
    hide Inv, LaunchFilesOk;
    NoHeadLive(s);
    KeepFree(s);
    KeepFiles(Hold(s, Free), u);
    TheHolder(s);
    assert LaunchFilesOk(Hold(u, s.agent.holder.(lpc := pc)), pc, s.agent.holder.res) by {
      SameFiles(u, s.agent.holder.(lpc := pc));
    }
    KeepHolder(u, Hold(u, s.agent.holder.(lpc := pc)));
  }

  lemma SameFiles(u: State, h: Holder)
    requires h.LaunchAt? && LaunchFilesOk(u, h.lpc, h.res)
    ensures LaunchFilesOk(Hold(u, h), h.lpc, h.res)
  { }

  lemma KeepWriteFile(s: State, step: LaunchStep, t: State)
    requires Inv(s) && DoLaunch(s, step) == Some(t) && (step.WriteEnv? || step.WriteConfig? || step.WriteWrapper?)
    ensures Inv(t)
  {
    hide Inv;
    if step.ok {
      TheFiles(s);
      KeepWroteFile(s, Hold(t, Free), t.agent.holder.lpc);
    } else {
      KeepEndLaunch(s);
    }
  }

  lemma TheFiles(s: State)
    requires Inv(s) && s.agent.holder.LaunchAt?
    ensures LaunchFilesOk(s, s.agent.holder.lpc, s.agent.holder.res)
  { hide Inv, LaunchFilesOk; TheHolder(s); }

  /** While a launch is under way, nobody else is restarting its name. */
  lemma LaunchExcludes(s: State)
    requires Inv(s) && s.agent.holder.LaunchAt?
    ensures NoRestart(s, s.agent.holder.res.id.name)
  {
    hide Inv;
    TheLaunch(s);
    TheHolder(s);
    if s.agent.holder.kind.Restart? { ClaimExcludes(s, s.agent.holder.res.id.name); }
  }

  lemma KeepOpenLog(s: State, ok: bool, undone: bool, t: State)
    requires Inv(s) && DoOpenLog(s, ok, undone) == Some(t)
    ensures Inv(t)
  {
    hide Inv;
    TheHolder(s);
    if ok {
      KeepHolder(s, t);
    } else if s.agent.holder.kind.Create? && undone {
      LaunchExcludes(s);
      KeepFree(s);
      KeepDeleted(Hold(s, Free), s.agent.holder.res.id.name);
    } else {
      KeepEndLaunch(s);
    }
  }

  lemma KeepWriteStarting(s: State, wrote: bool, t: State)
    requires Inv(s) && DoWriteStarting(s, wrote) == Some(t)
    ensures Inv(t)
  {
    hide Inv;
    TheHolder(s);
    if !wrote {
      KeepEndLaunch(s);
    } else {
      NoHeadLive(s);
      LaunchExcludes(s);
      assert s.agent.holder.res.launch !in s.past.released by { TheHistory(s); }
      var f := Hold(s, Free);
      KeepFree(s);
      KeepWrite(f, s.agent.holder.res);
      KeepHolder(Write(f, s.agent.holder.res), t);
    }
  }

  lemma KeepStartedProcess(s: State, b: State)
    requires Inv(s) && LaunchingAt(s, NeedStart)
    requires b == s.(agent := s.agent.(holder := Free),
                     past := s.past.(started := s.past.started + {s.agent.holder.res.launch}),
                     world := WithProcess(s, s.agent.holder.res.launch).world)
    ensures Inv(b)
  {
    hide Inv, HistoryOk;
    TheLaunch(s);
    TheHistory(s);
    var f := Hold(s, Free);
    KeepFree(s);
    var a := f.(past := f.past.(started := f.past.started + {s.agent.holder.res.launch}));
    KeepStarted(f, s.agent.holder.res.id.name, a);
    KeepProcs(a, b);
  }

  lemma KeepWaiterStarted(b: State, n: Name, l: LaunchId, p: Pid)
    requires Inv(b) && b.agent.holder.Free? && l in b.past.started && p < b.world.nextPid
    requires p in b.world.procs ==> b.world.procs[p] == l
    ensures var w := Spawn(b, Waiting(n, l, p));
      Inv(w.(agent := w.agent.(table := w.agent.table[n := Entry(l, p, false, b.agent.nextActor)])))
  {
    hide Inv;
    Fresh(b);
    var w := Spawn(b, Waiting(n, l, p));
    KeepLocal(b, b.agent.nextActor, Waiting(n, l, p), w);
    KeepTabled(w, n, Entry(l, p, false, b.agent.nextActor));
  }

  /** The state in which the launcher runs, its waiter waits and the lock is free. */
  function LauncherStarted(s: State): State
    requires s.agent.holder.LaunchAt?
  {
    var r := s.agent.holder.res;
    s.(agent := s.agent.(
         holder := Free,
         table := s.agent.table[r.id.name := Entry(r.launch, s.world.nextPid, false, s.agent.nextActor)],
         actors := s.agent.actors[s.agent.nextActor := Waiting(r.id.name, r.launch, s.world.nextPid)],
         nextActor := s.agent.nextActor + 1),
       world := WithProcess(s, r.launch).world,
       past := s.past.(started := s.past.started + {r.launch}))
  }

  lemma KeepStarting(s: State)
    requires Inv(s) && LaunchingAt(s, NeedStart)
    ensures Inv(LauncherStarted(s))
  {
    hide Inv;
    var r := s.agent.holder.res;
    var b := s.(agent := s.agent.(holder := Free), past := s.past.(started := s.past.started + {r.launch}),
                world := WithProcess(s, r.launch).world);
    KeepStartedProcess(s, b);
    KeepWaiterStarted(b, r.id.name, r.launch, s.world.nextPid);
  }

  lemma KeepStartFailed(s: State, u: State)
    requires Inv(s) && LaunchingAt(s, NeedStart) && u == Write(Hold(s, Free), s.agent.holder.res.(status := Failed))
    ensures Inv(u)
  {
    hide Inv;
    TheLaunch(s);
    TheRecord(s, s.agent.holder.res.id.name);
    KeepFree(s);
    KeepWrite(Hold(s, Free), s.agent.holder.res.(status := Failed));
  }

  /** A launch ends: unlock and, for a restart, give up the claim. */
  lemma KeepLaunchOver(s: State, u: State)
    requires Inv(s) && s.agent.holder.LaunchAt? && Inv(u) && u.agent.holder.Free? && u.agent.claims == s.agent.claims
    requires forall id :: id in u.agent.actors ==> id in s.agent.actors || s.agent.nextActor <= id
    ensures Inv(if s.agent.holder.kind.Restart? then Unclaim(u, s.agent.holder.res.id.name) else u)
  {
    hide Inv;
    TheLaunch(s);
    if s.agent.holder.kind.Restart? { KeepUnclaim(u, s.agent.holder.res.id.name); }
  }

  lemma KeepStartLauncher(s: State, ok: bool, wrote: bool, t: State)
    requires Inv(s) && DoStartLauncher(s, ok, wrote) == Some(t)
    ensures Inv(t)
  {
    hide Inv;
    if ok {
      KeepStarting(s);
      KeepLaunchOver(s, LauncherStarted(s));
    } else if wrote {
      var u := Write(Hold(s, Free), s.agent.holder.res.(status := Failed));
      KeepStartFailed(s, u);
      KeepLaunchOver(s, u);
    } else {
      KeepEndLaunch(s);
    }
  }

  // ---------------------------------------------------------------- remove

  lemma KeepRemoveLock(s: State, id: ActorId, ok: bool, t: State)
    requires Inv(s) && DoRemoveLock(s, id, ok) == Some(t)
    ensures Inv(t)
  {
    hide Inv;
    TheActor(s, id);
    var r := s.agent.actors[id].res;
    var n := r.id.name;
    var e := End(s, id);
    KeepEnded(s, id);
    if n !in s.disk.records || !SameGeneration(r, s.disk.records[n]) || s.disk.records[n].status != Stopped || !ok {
      KeepUnclaim(e, n);
    } else {
      ClaimExcludes(e, n);
      KeepDeleted(e, n);
      var u := e.(disk := e.disk.(records := e.disk.records - {n}));
      if r.id.role.Head? { KeepHolder(u, t); } else { KeepUnclaim(u, n); }
    }
  }

  lemma KeepRemoveTransport(s: State, left: Option<Transport>, t: State)
    requires Inv(s) && DoRemoveTransport(s, left) == Some(t)
    ensures Inv(t)
  {
    hide Inv;
    TheHolder(s);
    var h := s.agent.holder;
    NothingPending(s);
    var f := Hold(s, Free);
    KeepFree(s);
    var u := f.(disk := f.disk.(transports := t.disk.transports));
    KeepFiles(f, u);
    assert t == Unclaim(u, h.name);
    KeepUnclaim(u, h.name);
  }

  // ---------------------------------------------------------------- every step

  lemma WorldStepKeeps(s: State, step: WorldStep, t: State)
    requires Inv(s) && DoWorld(s, step) == Some(t)
    ensures Inv(t)
  {
    hide Inv;
    match step {
      case ProcExit(p) => KeepProcExit(s, p, t);
      case ProcFork(p) => KeepProcFork(s, p, t);
      case ContainerCreate(p, node, pinned, rank) => KeepContainerCreate(s, p, node, pinned, rank, t);
      case ContainerRun(c, running) => KeepContainerStep(s, step, t);
      case ContainerRename(c) => KeepContainerStep(s, step, t);
      case ContainerGone(c) => KeepContainerStep(s, step, t);
      case Crash(ssh) => KeepCrashed(s, ssh);
      case WaitReturns(id, clean) => KeepWaitReturns(s, id, clean, t);
      case WaiterLock(id, wrote) => KeepWaiterLock(s, id, wrote, t);
      case StopRequest(name) => KeepStopRequest(s, name, t);
      case StopBegin(id, wrote) => KeepStopBegin(s, id, wrote, t);
    }
  }

  lemma StopStepKeeps(s: State, step: StopStep, t: State)
    requires Inv(s) && DoStop(s, step) == Some(t)
    ensures Inv(t)
  {
    hide Inv;
    match step {
      case JoinAbsent => KeepJoin(s, step, t);
      case JoinReaped(ok) => KeepJoin(s, step, t);
      case JoinTimeout => KeepJoin(s, step, t);
      case FenceLaunch(ok) => KeepFenceLaunch(s, ok, t);
      case CheckSource(checkoutOk) => KeepCheckSource(s, checkoutOk, t);
      case LookHead(obs) => KeepStopLook(s, step, t);
      case LookWorker(obs) => KeepStopLook(s, step, t);
      case WriteIds(wrote) => KeepWriteIds(s, wrote, t);
    }
  }

  lemma ReleaseStepKeeps(s: State, step: ReleaseStep, t: State)
    requires Inv(s) && DoRelease(s, step) == Some(t)
    ensures Inv(t)
  {
    hide Inv;
    match step {
      case RunStopScript(gone, ok) => KeepRemoval(s, step, t);
      case RemoveExact(effect, ok) => KeepRemoval(s, step, t);
      case NothingToRemove => KeepAbsenceCheck(s, step, t);
      case CheckHeadAbsent(ok) => KeepAbsenceCheck(s, step, t);
      case CheckWorkerAbsent(ok) => KeepAbsenceCheck(s, step, t);
      case WriteStopped(wrote) => KeepWriteStopped(s, wrote, t);
      case WriteFailed(wrote) => KeepWriteFailed(s, wrote, t);
    }
  }

  lemma ObserverStepKeeps(s: State, step: ObserverStep, t: State)
    requires Inv(s) && DoObserver(s, step) == Some(t)
    ensures Inv(t)
  {
    hide Inv;
    match step {
      case ObserveBegin(name) => KeepObserveBegin(s, name, t);
      case ReconcileBegin(name, expired) => KeepReconcileBegin(s, name, expired, t);
      case ReconcileCheck(id) => KeepReconcileCheck(s, id, t);
      case InspectFirst(id, obs) => KeepInspection(s, id, obs, t);
      case InspectSecond(id, obs) => KeepInspection(s, id, obs, t);
      case CompareAndWrite(id, wrote) => KeepCompareAndWrite(s, id, wrote, t);
      case FenceAndMark(id, fenceOk, wrote) => KeepFenceAndMark(s, id, fenceOk, wrote, t);
      case ProbeBegin(name) => KeepProbeBegin(s, name, t);
      case MarkReady(id, wrote) => KeepMarkReady(s, id, wrote, t);
    }
  }

  lemma LaunchStepKeeps(s: State, step: LaunchStep, t: State)
    requires Inv(s) && DoLaunch(s, step) == Some(t)
    ensures Inv(t)
  {
    hide Inv;
    match step {
      case CreateWorker(record, wrote) => KeepCreateWorker(s, record, wrote, t);
      case CreateHead(identity, topology) => KeepCreateHead(s, identity, topology, t);
      case WriteEnv(ok) => KeepWriteFile(s, step, t);
      case WriteConfig(ok) => KeepWriteFile(s, step, t);
      case WriteWrapper(ok) => KeepWriteFile(s, step, t);
      case OpenLog(ok, undone) => KeepOpenLog(s, ok, undone, t);
      case WriteStarting(wrote) => KeepWriteStarting(s, wrote, t);
      case StartLauncher(ok, wrote) => KeepStartLauncher(s, ok, wrote, t);
    }
  }

  lemma CallStepKeeps(s: State, step: CallStep, t: State)
    requires Inv(s) && DoCall(s, step) == Some(t) && Disciplined(s, ByCall(step))
    ensures Inv(t)
  {
    hide Inv;
    match step {
      case RestartBegin(name) => KeepBeginClaimed(s, name, t);
      case RestartLock(id, ok) => KeepRestartLock(s, id, ok, t);
      case RemoveBegin(name) => KeepBeginClaimed(s, name, t);
      case RemoveLock(id, ok) => KeepRemoveLock(s, id, ok, t);
      case RemoveTransport(left) => KeepRemoveTransport(s, left, t);
    }
  }

  lemma StepKeeps(s: State, step: Step, t: State)
    requires Inv(s) && Do(s, step) == Some(t) && Disciplined(s, step)
    ensures Inv(t)
  {
    hide Inv;
    match step {
      case ByWorld(x) => WorldStepKeeps(s, x, t);
      case ByStop(x) => StopStepKeeps(s, x, t);
      case ByRelease(x) => ReleaseStepKeeps(s, x, t);
      case ByObserver(x) => ObserverStepKeeps(s, x, t);
      case ByLaunch(x) => LaunchStepKeeps(s, x, t);
      case ByCall(x) => CallStepKeeps(s, x, t);
    }
  }

  /** The invariant holds along every run in which restart and remove calls for
      one name do not overlap, whatever else interleaves and wherever it crashes. */
  lemma {:induction false} RunKeeps(s: State, steps: seq<Step>, t: State)
    requires Inv(s) && Run(s, steps, t, true)
    ensures Inv(t)
    decreases |steps|
  {
    hide Inv;
    if steps != [] {
      StepKeeps(s, steps[0], Do(s, steps[0]).value);
      RunKeeps(Do(s, steps[0]).value, steps[1..], t);
    }
  }

  // ---------------------------------------------------------------- building runs

  lemma {:induction false} RunTwice(s: State, a: seq<Step>, m: State, b: seq<Step>, t: State, strict: bool)
    requires Run(s, a, m, strict) && Run(m, b, t, strict)
    ensures Run(s, a + b, t, strict)
    decreases |a|
  {
    hide Do;
    if a == [] {
      assert a + b == b;
    } else {
      RunTwice(Do(s, a[0]).value, a[1..], m, b, t, strict);
      assert (a + b)[1..] == a[1..] + b;
    }
  }

  lemma RunOne(s: State, step: Step, t: State, strict: bool)
    requires Do(s, step) == Some(t) && (strict ==> Disciplined(s, step))
    ensures Run(s, [step], t, strict)
  {
    hide Do;
    assert [step][1..] == [];
    assert Run(t, [], t, strict);
  }

  lemma RunSnoc(s: State, steps: seq<Step>, t: State, step: Step, u: State, strict: bool)
    requires Run(s, steps, t, strict) && Do(t, step) == Some(u) && (strict ==> Disciplined(t, step))
    ensures Run(s, steps + [step], u, strict)
  {
    hide Do, Run;
    RunOne(t, step, u, strict);
    RunTwice(s, steps, t, [step], u, strict);
  }

  /** Whatever is possible without the discipline is a superset. */
  lemma {:induction false} StrictIsRun(s: State, steps: seq<Step>, t: State)
    requires Run(s, steps, t, true)
    ensures Run(s, steps, t, false)
    decreases |steps|
  {
    hide Do;
    if steps != [] { StrictIsRun(Do(s, steps[0]).value, steps[1..], t); }
  }
}
