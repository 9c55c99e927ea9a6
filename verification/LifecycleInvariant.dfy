/**
 The inductive invariant of the lifecycle and its preservation, one lemma per step.
 */
module LifecycleInvariant {
  import opened Common
  import opened Lifecycle

  predicate CidOn(s: State, c: ContainerId, node: Node) {
    c < s.world.nextCid && (c in s.world.containers ==> s.world.containers[c].node == node)
  }

  predicate CidsOk(s: State, r: Record) {
    && (r.headCid.Some? ==> CidOn(s, r.headCid.value, Local))
    && (r.workerCid.Some? ==> CidOn(s, r.workerCid.value, Remote))
  }

  predicate LaunchOk(s: State, r: Record) {
    if r.id.role.Head? then 0 < r.launch < s.past.nextLaunch
    else r.launch == 0 && r.headCid.None? && r.workerCid.None?
  }

  predicate HeadLive(r: Record) { r.id.role.Head? && r.status != Stopped }

  predicate HeadStopped(r: Record) { r.id.role.Head? && r.status == Stopped }

  /** The files a later stop needs; the wrapper was written for some ssh executable. */
  predicate FilesPresent(s: State, r: Record) {
    && s.disk.env == Some(EnvFile(r.topology, r.launch))
    && r.launch in s.disk.transports
    && s.disk.transports[r.launch].config
    && s.disk.transports[r.launch].wrapper.Some?
  }

  /** A container-free release: what the stop path verified. */
  predicate Clean(s: State, r: Record) {
    VerifiedAbsent(s, r, Local) && VerifiedAbsent(s, r, Remote)
  }

  ghost predicate Singleton(s: State) {
    forall m, n :: m in s.disk.records && n in s.disk.records ==> m == n
  }

  predicate RecordOk(s: State, n: Name, r: Record) {
    && r.id.name == n && r.stamp < s.disk.clock && CidsOk(s, r) && LaunchOk(s, r)
    && (HeadLive(r) ==> r.launch == s.past.nextLaunch - 1 && FilesPresent(s, r) && r.launch !in s.past.released)
    && (HeadStopped(r) ==> r.launch in s.past.fenced && (r.launch in s.past.released ==> Clean(s, r)))
  }

  ghost predicate RecordsOk(s: State) {
    forall n :: n in s.disk.records ==> RecordOk(s, n, s.disk.records[n])
  }

  /** Some head record that is not stopped still answers for this launch. */
  ghost predicate Owned(s: State, l: LaunchId) {
    exists n :: n in s.disk.records && HeadLive(s.disk.records[n]) && s.disk.records[n].launch == l
  }

  ghost predicate HistoryOk(s: State) {
    && 0 < s.past.nextLaunch
    && (forall l :: l in s.past.started ==> 0 < l < s.past.nextLaunch)
    && (forall l :: l in s.past.fenced ==> l < s.past.nextLaunch)
    && s.past.released <= s.past.fenced
    && (forall l :: l in s.past.started && l !in s.past.fenced ==> Owned(s, l))
  }

  ghost predicate WorldOk(s: State) {
    && (forall p :: p in s.world.procs ==>
          p < s.world.nextPid && s.world.procs[p] in s.past.started && s.world.procs[p] !in s.past.fenced)
    && (forall c :: c in s.world.containers ==> c < s.world.nextCid)
  }

  /** A head record as it was read at some earlier moment. */
  predicate Snapshot(s: State, e: Record) {
    && e.id.role.Head? && 0 < e.launch < s.past.nextLaunch && e.stamp < s.disk.clock && CidsOk(s, e)
    && (e.id.name in s.disk.records && s.disk.records[e.id.name].stamp == e.stamp ==> s.disk.records[e.id.name] == e)
  }

  /** `r` was read from the record that is still in force under this claim. */
  predicate ReadUnder(s: State, id: ActorId, name: Name, r: Record) {
    && r.id.name == name && name in s.agent.claims && s.agent.claims[name] == id
    && name in s.disk.records && SameGeneration(r, s.disk.records[name]) && r.topology == s.disk.records[name].topology
    && CidsOk(s, r) && LaunchOk(s, r)
  }

  predicate NextOk(s: State, id: ActorId, name: Name, next: Next) {
    match next
    case Finish => true
    case ThenRestart(r) => ReadUnder(s, id, name, r)
    case ThenRemove(r) => r.id.name == name && name in s.agent.claims && s.agent.claims[name] == id
  }

  predicate ObsCidOk(s: State, node: Node, obs: Obs) {
    obs.Present? ==> CidOn(s, obs.cid, node)
  }

  predicate ActorOk(s: State, id: ActorId, a: Actor) {
    match a
    case Waiting(n, l, pid) =>
      l in s.past.started && pid < s.world.nextPid && (pid in s.world.procs ==> s.world.procs[pid] == l)
    case Waited(n, l, clean) => l in s.past.started
    case StopWanted(n, bound, next) => NextOk(s, id, n, next) && (bound.Some? ==> next.Finish?)
    case Reconciling(e) => Snapshot(s, e) && e.status != Stopped
    case Inspecting(pass, e, h) =>
      && Snapshot(s, e) && e.status != Stopped
      && (h.Some? ==> ObsCidOk(s, Local, h.value))
    case CasWanted(e, u) =>
      && Snapshot(s, e) && e.status != Stopped
      && u.id == e.id && u.topology == e.topology && u.launch == e.launch && u.status != Stopped && CidsOk(s, u)
    case FenceWanted(e) => Snapshot(s, e) && e.status != Stopped
    case ReadyWanted(e) => Snapshot(s, e)
    case RestartWanted(r) => ReadUnder(s, id, r.id.name, r) && s.disk.records[r.id.name].status == Stopped
    case RemoveWanted(r) => r.id.name in s.agent.claims && s.agent.claims[r.id.name] == id
  }

  ghost predicate ActorsOk(s: State) {
    forall id :: id in s.agent.actors ==> id < s.agent.nextActor && ActorOk(s, id, s.agent.actors[id])
  }

  predicate EntryOk(s: State, n: Name, e: Entry) {
    && e.launch in s.past.started && e.waiter in s.agent.actors
    && (if e.done
        then var a := s.agent.actors[e.waiter]; a.Waited? && a.name == n && a.launch == e.launch
        else s.agent.actors[e.waiter] == Waiting(n, e.launch, e.pid))
  }

  ghost predicate TableOk(s: State) {
    forall n :: n in s.agent.table ==> EntryOk(s, n, s.agent.table[n])
  }

  predicate ObsOk(s: State, r: Record, node: Node, obs: Obs) {
    match obs
    case Absent => VerifiedAbsent(s, r, node)
    case Present(c, running) =>
      && CidOn(s, c, node)
      && (c in s.world.containers ==> Conforms(s.world.containers[c], r, node))
      && OnlyNamed(s, node, c)
      && (RecordedCid(r, node).Some? ==> RecordedCid(r, node).value == c)
  }

  /** What the stop path has established when it reaches `pc`. */
  predicate StopPcOk(s: State, pc: StopPc, r: Record) {
    match pc
    case Join => r.id.role.Head?
    case Fence => r.id.role.Head?
    case Source => IsFenced(s, r)
    case InspectHead => IsFenced(s, r)
    case InspectWorker(h) => IsFenced(s, r) && ObsOk(s, r, Local, h)
    case RecordIds(h, w) => IsFenced(s, r) && ObsOk(s, r, Local, h) && ObsOk(s, r, Remote, w)
    case RemoveContainers(h, w) =>
      && IsFenced(s, r) && ObsOk(s, r, Local, h) && ObsOk(s, r, Remote, w)
      && (h.Present? ==> r.headCid == Some(h.cid)) && (w.Present? ==> r.workerCid == Some(w.cid))
    case VerifyHead => IsFenced(s, r)
    case VerifyWorker => IsFenced(s, r) && VerifiedAbsent(s, r, Local)
    case MarkStopped => r.id.role.Head? ==> IsFenced(s, r) && Clean(s, r)
    case MarkFailed => true
  }

  predicate IsFenced(s: State, r: Record) { r.id.role.Head? && r.launch in s.past.fenced }

  /** `.env` and the transport are written in this order, before the record. */
  predicate LaunchFilesOk(s: State, pc: LaunchPc, r: Record) {
    match pc
    case NeedEnv => true
    case NeedConfig => s.disk.env == Some(EnvFile(r.topology, r.launch))
    case NeedWrapper =>
      && s.disk.env == Some(EnvFile(r.topology, r.launch)) && r.launch in s.disk.transports
      && s.disk.transports[r.launch].config
    case _ => FilesPresent(s, r)
  }

  predicate RecordWritten(pc: LaunchPc, kind: LaunchKind) {
    pc.NeedStart? || (pc.NeedLog? && kind.Create?)
  }

  /** A restart between its first read and its launch. */
  predicate RestartPending(a: Actor) {
    a.RestartWanted? || (a.StopWanted? && a.next.ThenRestart?)
  }

  ghost predicate HolderOk(s: State) {
    match s.agent.holder
    case Free => true
    case StopAt(pc, owner, r, next) =>
      && owner !in s.agent.actors && owner < s.agent.nextActor
      && r.id.name in s.disk.records && s.disk.records[r.id.name] == r && r.status == Stopping
      && NextOk(s, owner, r.id.name, next)
      && StopPcOk(s, pc, r)
    case LaunchAt(pc, kind, owner, r) =>
      && owner !in s.agent.actors && owner < s.agent.nextActor
      && r.id.role.Head? && r.launch == s.past.nextLaunch - 1 && 0 < r.launch && r.launch !in s.past.started
      && r.launch !in s.past.fenced
      && r.status == Starting && r.headCid.None? && r.workerCid.None?
      && NoNamed(s, Local) && NoNamed(s, Remote)
      && (kind.Restart? ==> r.id.name in s.agent.claims && s.agent.claims[r.id.name] == owner)
      && (kind.Create? ==> forall id :: id in s.agent.actors ==> !RestartPending(s.agent.actors[id]))
      && LaunchFilesOk(s, pc, r)
      && (if RecordWritten(pc, kind) then r.id.name in s.disk.records && s.disk.records[r.id.name] == r
          else if kind.Create? then s.disk.records == map[]
          else
            && r.id.name in s.disk.records && s.disk.records[r.id.name].id == r.id
            && s.disk.records[r.id.name].topology == r.topology
            && s.disk.records[r.id.name].status == Stopped && s.disk.records[r.id.name].launch < r.launch)
    case RemoveAt(owner, n, l) =>
      && owner !in s.agent.actors && owner < s.agent.nextActor && s.disk.records == map[]
      && n in s.agent.claims && s.agent.claims[n] == owner
  }

  ghost predicate ClaimsOk(s: State) {
    forall n :: n in s.agent.claims ==> s.agent.claims[n] < s.agent.nextActor
  }

  ghost predicate Inv(s: State) {
    && Singleton(s) && RecordsOk(s) && HistoryOk(s) && WorldOk(s)
    && ActorsOk(s) && TableOk(s) && HolderOk(s) && ClaimsOk(s)
  }

  lemma InitInv(s: State)
    requires Init(s)
    ensures Inv(s)
  {
  }
}
