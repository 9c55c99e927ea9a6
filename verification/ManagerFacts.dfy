/**
 Facts about states that the manager's methods rely on.
 */
module ManagerFacts {
  import opened Common
  import opened Lifecycle
  import opened LifecycleInvariant
  import opened LifecycleFrames
  import opened LifecycleSteps

  lemma TheRecordName(s: State, n: Name)
    requires Inv(s) && n in s.disk.records
    ensures s.disk.records[n].id.name == n
  {
    hide Inv;
    TheRecord(s, n);
  }

  /** A goroutine about to compare and write holds a record it read whole. */
  lemma CasReads(s: State, id: ActorId)
    requires Inv(s) && id in s.agent.actors && s.agent.actors[id].CasWanted?
    ensures var e := s.agent.actors[id].seen;
      && s.agent.actors[id].updated.id == e.id
      && (e.id.name in s.disk.records && s.disk.records[e.id.name].stamp == e.stamp ==> s.disk.records[e.id.name] == e)
  {
    hide Inv;
    TheActor(s, id);
  }

  lemma FenceReads(s: State, id: ActorId)
    requires Inv(s) && id in s.agent.actors && s.agent.actors[id].FenceWanted?
    ensures var e := s.agent.actors[id].seen;
      e.id.name in s.disk.records && s.disk.records[e.id.name].stamp == e.stamp ==> s.disk.records[e.id.name] == e
  {
    hide Inv;
    TheActor(s, id);
  }

  /** The operation that holds the lock is no longer in the table of goroutines. */
  lemma TheOwner(s: State)
    requires Inv(s) && !s.agent.holder.Free?
    ensures s.agent.holder.owner !in s.agent.actors
  {
    hide Inv;
    TheHolder(s);
  }

  lemma TheLaunchFiles(s: State)
    requires Inv(s) && s.agent.holder.LaunchAt? && s.agent.holder.lpc in {NeedRecord, NeedLog, NeedStart}
    ensures FilesPresent(s, s.agent.holder.res)
  {
    hide Inv;
    TheHolder(s);
  }

  /** Both inspections still describe their nodes when the second one is over. */
  lemma SeenBoth(s: State)
    requires Inv(s) && s.agent.holder.StopAt? && s.agent.holder.spc.RecordIds?
    ensures ObsOk(s, s.agent.holder.res, Local, s.agent.holder.spc.h)
    ensures ObsOk(s, s.agent.holder.res, Remote, s.agent.holder.spc.w)
  {
    hide Inv, ObsOk, RecordOk;
    TheStop(s);
  }

  lemma StoppedHead(s: State)
    requires Inv(s) && StoppingAt(s, VerifyWorker)
    ensures s.agent.holder.res.id.role.Head?
  {
    hide Inv, RecordOk;
    TheStop(s);
  }

  lemma SeenGone(s: State)
    requires Inv(s) && StoppingAt(s, MarkStopped) && s.agent.holder.res.id.role.Head?
    ensures s.agent.holder.res.launch in s.past.fenced && Clean(s, s.agent.holder.res)
  {
    hide Inv, Clean, RecordOk;
    TheStop(s);
  }

  lemma LaunchLeaves(s: State, n: Name)
    requires Inv(s) && n in s.disk.records && HeadLive(s.disk.records[n])
    ensures s.disk.records.Keys == {n} && FilesPresent(s, s.disk.records[n])
  {
    hide Inv, FilesPresent;
    TheRecord(s, n);
  }

  lemma NoLauncher(s: State, l: LaunchId)
    requires Inv(s) && l !in s.past.started
    ensures forall p :: p in s.world.procs ==> s.world.procs[p] != l
  {
    hide Inv;
    TheHistory(s);
  }

  /** A stop that finds no record, another generation or a stopped record changes nothing. */
  lemma NothingToStop(s: State, id: ActorId)
    requires s.agent.holder.Free? && id in s.agent.actors && s.agent.actors[id].StopWanted?
    requires var a := s.agent.actors[id];
      || a.name !in s.disk.records
      || (a.bound.Some? && !SameGeneration(a.bound.value, s.disk.records[a.name]))
      || s.disk.records[a.name].status == Stopped
    ensures var a := s.agent.actors[id];
      Do(s, ByWorld(StopBegin(id, false))) ==
      Some(if a.name !in s.disk.records then ReleaseError(s, id, a.name, a.next) else ReleaseOk(s, id, a.next))
  { }

  /** A waiter whose table entry is gone only ends. */
  lemma WaiterIsLate(s: State, id: ActorId)
    requires s.agent.holder.Free? && id in s.agent.actors && s.agent.actors[id].Waited?
    requires var n := s.agent.actors[id].name; n !in s.agent.table || s.agent.table[n].waiter != id
    ensures Do(s, ByWorld(WaiterLock(id, false))) == Some(End(s, id))
  { }

  /** A waiter that finds its entry, but no record to settle, removes the entry and ends. */
  lemma WaiterHasNothing(s: State, id: ActorId)
    requires s.agent.holder.Free? && id in s.agent.actors && s.agent.actors[id].Waited?
    requires var n := s.agent.actors[id].name; n in s.agent.table && s.agent.table[n].waiter == id
    requires var a := s.agent.actors[id];
      a.name !in s.disk.records || s.disk.records[a.name].launch != a.launch
      || s.disk.records[a.name].status in {Status.Stopping, Stopped}
    ensures Do(s, ByWorld(WaiterLock(id, false))) ==
            Some(End(s.(agent := s.agent.(table := s.agent.table - {s.agent.actors[id].name})), id))
  { }

  /** A waiter that finds its entry and an unsettled record says how the launcher ended
      and goes on to stop that generation. */
  lemma WaiterSettles(s: State, id: ActorId, wrote: bool)
    requires s.agent.holder.Free? && id in s.agent.actors && s.agent.actors[id].Waited?
    requires var n := s.agent.actors[id].name; n in s.agent.table && s.agent.table[n].waiter == id
    requires var a := s.agent.actors[id];
      && a.name in s.disk.records && s.disk.records[a.name].launch == a.launch
      && s.disk.records[a.name].status !in {Status.Stopping, Stopped}
    ensures var a := s.agent.actors[id];
      var r := s.disk.records[a.name].(status := if a.clean then Exited else Status.Failed);
      var u := s.(agent := s.agent.(table := s.agent.table - {a.name}));
      Do(s, ByWorld(WaiterLock(id, wrote))) ==
      Some(Become(if wrote then Write(u, r) else u, id, StopWanted(a.name, Some(r), Finish)))
  { }

  /** The last write of a stop. */
  lemma AfterStopped(s: State, wrote: bool)
    requires StoppingAt(s, MarkStopped) && s.agent.holder.res.id.name in s.disk.records
    requires s.disk.records[s.agent.holder.res.id.name] == s.agent.holder.res
    ensures var h := s.agent.holder;
      Do(s, ByRelease(WriteStopped(wrote))) ==
      Some(if wrote then ReleaseOk(WithStopped(s), h.owner, h.next)
           else ReleaseError(s, h.owner, h.res.id.name, h.next))
    ensures DoWriteStopped(s, wrote) == Do(s, ByRelease(WriteStopped(wrote)))
  { }

  /** What a started launcher changes. */
  lemma AfterStart(s: State)
    requires LaunchingAt(s, NeedStart)
    ensures Do(s, ByLaunch(StartLauncher(true, false))).Some?
    ensures var t, r := Do(s, ByLaunch(StartLauncher(true, false))).value, s.agent.holder.res;
      && t.disk == s.disk && t.agent.ssh == s.agent.ssh && t.agent.holder.Free? && r.launch in t.past.started
      && t.world == s.world.(procs := s.world.procs[s.world.nextPid := r.launch], nextPid := s.world.nextPid + 1)
      && t.agent.table == s.agent.table[r.id.name := Entry(r.launch, s.world.nextPid, false, s.agent.nextActor)]
      && t.agent.nextActor == s.agent.nextActor + 1
      && s.agent.nextActor in t.agent.actors
      && t.agent.actors[s.agent.nextActor] == Waiting(r.id.name, r.launch, s.world.nextPid)
  { }

  // ---------------------------------------------------------------- what a stop needs

  /** An inspection of this node that docker lets through has an answer. */
  ghost predicate Answerable(s: State, r: Record, node: Node) {
    exists o :: Inspected(s, r, node, o)
  }

  /** The files match this launch, and each node holds nothing of the record or one
      container that is wholly its own. */
  ghost predicate Stoppable(s: State, r: Record) {
    SourceMatches(s, r) && Answerable(s, r, Local) && Answerable(s, r, Remote)
  }

  /** The same launch under the same container IDs, whatever else the record says. */
  predicate SameOwner(r: Record, q: Record) {
    q.launch == r.launch && q.topology == r.topology && q.headCid == r.headCid && q.workerCid == r.workerCid
  }

  lemma InspectedKept(s: State, t: State, r: Record, q: Record, node: Node, o: Obs)
    requires t.world.containers == s.world.containers && SameOwner(r, q)
    ensures Inspected(s, r, node, o) <==> Inspected(t, q, node, o)
  { }

  lemma AnswerableKept(s: State, t: State, r: Record, q: Record, node: Node)
    requires t.world.containers == s.world.containers && SameOwner(r, q)
    ensures Answerable(s, r, node) <==> Answerable(t, q, node)
  {
    hide Inspected;
    forall o ensures Inspected(s, r, node, o) <==> Inspected(t, q, node, o) { InspectedKept(s, t, r, q, node, o); }
  }

  lemma StoppableKept(s: State, t: State, r: Record, q: Record)
    requires t.world.containers == s.world.containers && SameOwner(r, q)
    requires t.disk.env == s.disk.env && t.disk.transports == s.disk.transports && t.agent.ssh == s.agent.ssh
    ensures Stoppable(s, r) <==> Stoppable(t, q)
  {
    hide Answerable;
    AnswerableKept(s, t, r, q, Local);
    AnswerableKept(s, t, r, q, Remote);
  }

  lemma AbsentKept(s: State, t: State, r: Record)
    requires t.world.containers == s.world.containers
    ensures VerifiedAbsent(s, r, Local) <==> VerifiedAbsent(t, r, Local)
    ensures VerifiedAbsent(s, r, Remote) <==> VerifiedAbsent(t, r, Remote)
  { }

  // ---------------------------------------------------------------- removal

  /** The node holds exactly what was observed, under an ID the record names. */
  predicate Held(s: State, r: Record, node: Node, o: Obs) {
    match o
    case Absent => VerifiedAbsent(s, r, node)
    case Present(c, running) =>
      && RecordedCid(r, node) == Some(c) && c in s.world.containers && s.world.containers[c].running == running
      && s.world.containers[c].named && s.world.containers[c].node == node && OnlyNamed(s, node, c)
  }

  /** What is held was seen in the state it is in. */
  lemma HeldRuns(s: State, r: Record, h: Obs, w: Obs)
    ensures Held(s, r, Local, h) && h.Present? ==>
              h.cid in s.world.containers && s.world.containers[h.cid].running == h.running
    ensures Held(s, r, Remote, w) && w.Present? ==>
              w.cid in s.world.containers && s.world.containers[w.cid].running == w.running
  { }

  lemma RecordedIsHeld(s: State, t: State, r: Record, h: Obs, w: Obs, q: Record)
    requires Inspected(s, r, Local, h) && Inspected(s, r, Remote, w) && t.world.containers == s.world.containers
    requires SameOwner(WithIds(r, h, w), q)
    ensures Held(t, q, Local, h) && Held(t, q, Remote, w)
  { }

  function Observed(h: Obs, w: Obs): set<ContainerId> {
    (if h.Present? then {h.cid} else {}) + (if w.Present? then {w.cid} else {})
  }

  /** Without the observed containers both nodes are clean. */
  lemma RemovedIsClean(s: State, t: State, r: Record, h: Obs, w: Obs)
    requires Held(s, r, Local, h) && Held(s, r, Remote, w)
    requires t.world.containers == s.world.containers - Observed(h, w)
    ensures Clean(t, r)
  { }

  /** When both nodes hold one, the observed containers are all that have the fixed name. */
  lemma NamedAreObserved(s: State, r: Record, h: Obs, w: Obs)
    requires Held(s, r, Local, h) && Held(s, r, Remote, w) && h.Present? && w.Present?
    ensures (set c | c in s.world.containers && s.world.containers[c].named) == Observed(h, w)
  { }
}
