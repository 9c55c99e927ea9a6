/**
 The TensorFold launch lifecycle of one agent as a transition system.

 A state holds what survives an agent restart (resource records, the rendered
 `.env`, per-launch SSH transports), the outside world (processes that carry a
 launch marker, containers on the two nodes) and what the running agent keeps in
 memory (process table, goroutines, the manager lock). `Do` executes one step:
 one durable write, one observation or one short critical section, with the
 outcome of every external command carried by the step itself.

 Names, launch identities, container IDs and the like are only ever compared for
 equality or freshness, so they are numbers here; launch 0 is the empty launch ID.
 */
module Lifecycle {
  import opened Common

  type Name = nat
  type LaunchId = nat
  type ContainerId = nat
  type Pid = nat
  type ActorId = nat
  type SshPath = nat
  type Topology = nat

  datatype Role = Head | Worker
  datatype Node = Local | Remote
  datatype Status = Starting | Running | Stopping | Stopped | Failed | Exited

  datatype Identity = Identity(name: Name, deployment: nat, generation: nat, role: Role)

  datatype Record = Record(
    id: Identity, topology: Topology, status: Status, launch: LaunchId,
    headCid: Option<ContainerId>, workerCid: Option<ContainerId>,
    deadline: bool,   // a readiness deadline is recorded
    stamp: nat        // UpdatedAt
  )

  /** The text of `.env`: a function of the topology and the launch ID. */
  datatype EnvFile = EnvFile(topology: Topology, launch: LaunchId)

  /** The two files under transports/<launch>; the wrapper names the ssh executable. */
  datatype Transport = Transport(config: bool, wrapper: Option<SshPath>)

  datatype Container = Container(
    node: Node,
    named: bool,                // holds the fixed container name
    running: bool,
    marker: Option<LaunchId>,   // launch identity in the container environment
    pinned: bool,               // image, environment and argv match the pinned policy
    rank: nat
  )

  /** An entry of the in-memory process table. */
  datatype Entry = Entry(launch: LaunchId, pid: Pid, done: bool, waiter: ActorId)

  /** A completed container inspection that found no ownership conflict. */
  datatype Obs = Absent | Present(cid: ContainerId, running: bool)

  datatype Pass = Observe | ActivePass | OrphanPass
  datatype Next = Finish | ThenRestart(res: Record) | ThenRemove(res: Record)
  datatype LaunchKind = Create | Restart

  /** A goroutine that does not hold the manager lock. */
  datatype Actor =
    | Waiting(name: Name, launch: LaunchId, pid: Pid)
    | Waited(name: Name, launch: LaunchId, clean: bool)
    | StopWanted(name: Name, bound: Option<Record>, next: Next)
    | Reconciling(seen: Record)
    | Inspecting(pass: Pass, seen: Record, head: Option<Obs>)
    | CasWanted(seen: Record, updated: Record)
    | FenceWanted(seen: Record)
    | ReadyWanted(seen: Record)
    | RestartWanted(res: Record)
    | RemoveWanted(res: Record)

  datatype StopPc =
    | Join | Fence | Source | InspectHead
    | InspectWorker(h: Obs)
    | RecordIds(h: Obs, w: Obs)
    | RemoveContainers(h: Obs, w: Obs)
    | VerifyHead | VerifyWorker | MarkStopped | MarkFailed

  datatype LaunchPc = NeedEnv | NeedConfig | NeedWrapper | NeedLog | NeedRecord | NeedStart

  /** The operation that holds the manager lock between two of its own steps. */
  datatype Holder =
    | Free
    | StopAt(spc: StopPc, owner: ActorId, res: Record, next: Next)
    | LaunchAt(lpc: LaunchPc, kind: LaunchKind, owner: ActorId, res: Record)
    | RemoveAt(owner: ActorId, name: Name, launch: LaunchId)

  /** What an agent restart finds again. */
  datatype Disk = Disk(
    records: map<Name, Record>, env: Option<EnvFile>, transports: map<LaunchId, Transport>, clock: nat
  )

  /** Processes that carry a launch marker, and containers on both nodes. */
  datatype World = World(
    procs: map<Pid, LaunchId>, containers: map<ContainerId, Container>, nextPid: Pid, nextCid: ContainerId
  )

  /** What an agent restart loses. */
  datatype Agent = Agent(
    ssh: SshPath,                 // the ssh executable this agent resolved
    table: map<Name, Entry>, actors: map<ActorId, Actor>, holder: Holder,
    claims: map<Name, ActorId>,   // which restart or remove call is under way for a name
    nextActor: ActorId
  )

  datatype Past = Past(
    nextLaunch: LaunchId,
    started: set<LaunchId>,       // a launcher was started with this marker
    fenced: set<LaunchId>,        // a fence of this marker succeeded
    released: set<LaunchId>       // the stop path wrote "stopped"
  )

  datatype State = State(disk: Disk, world: World, agent: Agent, past: Past)

  // ---------------------------------------------------------------- observations

  predicate NoNamed(s: State, node: Node) {
    forall c :: c in s.world.containers ==> !(s.world.containers[c].named && s.world.containers[c].node == node)
  }

  /** No other container holds the fixed name on this node. */
  predicate OnlyNamed(s: State, node: Node, cid: ContainerId) {
    forall c ::
      c in s.world.containers && s.world.containers[c].named && s.world.containers[c].node == node ==> c == cid
  }

  predicate IdAbsent(s: State, node: Node, cid: Option<ContainerId>) {
    cid.Some? && cid.value in s.world.containers ==> s.world.containers[cid.value].node != node
  }

  function RecordedCid(r: Record, node: Node): Option<ContainerId> {
    if node == Local then r.headCid else r.workerCid
  }

  function RankOf(node: Node): nat { if node == Local then 0 else 1 }

  predicate Conforms(c: Container, r: Record, node: Node) {
    c.node == node && c.marker == Some(r.launch) && c.pinned && c.rank == RankOf(node)
  }

  /** inspectRecipeContainerIdentity answers `obs` without an error. */
  predicate Inspected(s: State, r: Record, node: Node, obs: Obs) {
    match obs
    case Absent => NoNamed(s, node) && IdAbsent(s, node, RecordedCid(r, node))
    case Present(cid, running) =>
      && cid in s.world.containers
      && s.world.containers[cid].named
      && s.world.containers[cid].running == running
      && Conforms(s.world.containers[cid], r, node)
      && OnlyNamed(s, node, cid)
      && (RecordedCid(r, node).Some? ==> RecordedCid(r, node).value == cid)
  }

  predicate VerifiedAbsent(s: State, r: Record, node: Node) {
    NoNamed(s, node) && IdAbsent(s, node, RecordedCid(r, node))
  }

  predicate SameGeneration(a: Record, b: Record) {
    a.id == b.id && a.launch == b.launch
  }

  /** verifyPinnedRecipeForExecution, apart from the pinned checkout itself. */
  predicate SourceMatches(s: State, r: Record) {
    && s.disk.env == Some(EnvFile(r.topology, r.launch))
    && r.launch in s.disk.transports
    && s.disk.transports[r.launch].config
    && s.disk.transports[r.launch].wrapper == Some(s.agent.ssh)
  }

  function WithIds(r: Record, h: Obs, w: Obs): Record {
    r.(headCid := if h.Present? then Some(h.cid) else r.headCid,
       workerCid := if w.Present? then Some(w.cid) else r.workerCid)
  }

  predicate BothRunning(h: Obs, w: Obs) {
    h.Present? && w.Present? && h.running && w.running
  }

  // ---------------------------------------------------------------- effects

  /** writeResource: stamps the record and replaces it by rename. */
  function Write(s: State, r: Record): State {
    s.(disk := s.disk.(records := s.disk.records[r.id.name := r.(stamp := s.disk.clock)], clock := s.disk.clock + 1))
  }

  function Spawn(s: State, a: Actor): State {
    s.(agent := s.agent.(actors := s.agent.actors[s.agent.nextActor := a], nextActor := s.agent.nextActor + 1))
  }

  function Become(s: State, id: ActorId, a: Actor): State {
    s.(agent := s.agent.(actors := s.agent.actors[id := a]))
  }

  function End(s: State, id: ActorId): State {
    s.(agent := s.agent.(actors := s.agent.actors - {id}))
  }

  /** newTensorFoldLaunchID: a launch identity never used before. */
  function DrawLaunch(s: State): State {
    s.(past := s.past.(nextLaunch := s.past.nextLaunch + 1))
  }

  function Drop(s: State, n: Name): State {
    s.(disk := s.disk.(records := s.disk.records - {n}))
  }

  function Hold(s: State, h: Holder): State {
    s.(agent := s.agent.(holder := h))
  }

  function Unclaim(s: State, name: Name): State {
    s.(agent := s.agent.(claims := s.agent.claims - {name}))
  }

  function WithoutMarker(procs: map<Pid, LaunchId>, launch: LaunchId): map<Pid, LaunchId> {
    procs - set p | p in procs && procs[p] == launch
  }

  /** A successful fence: no process of this launch is left. */
  function Fenced(s: State, l: LaunchId): State {
    s.(world := s.world.(procs := WithoutMarker(s.world.procs, l)),
       past := s.past.(fenced := s.past.fenced + {l}))
  }

  /** The stop critical section returned nil: unlock and let its caller go on. */
  function ReleaseOk(s: State, owner: ActorId, next: Next): State {
    var u := Hold(s, Free);
    match next
    case Finish => End(u, owner)
    case ThenRestart(res) => Become(u, owner, RestartWanted(res))
    case ThenRemove(res) => Become(u, owner, RemoveWanted(res))
  }

  /** The stop critical section returned an error: its caller returns it too. */
  function ReleaseError(s: State, owner: ActorId, name: Name, next: Next): State {
    var u := End(Hold(s, Free), owner);
    if next.Finish? then u else Unclaim(u, name)
  }

  // ---------------------------------------------------------------- steps

  datatype Removal = Untouched | StoppedOnly | Removed

  /** The environment, waitForProcess, and the way into the stop critical section. */
  datatype WorldStep =
    | ProcExit(p: Pid)
    | ProcFork(p: Pid)
    | ContainerCreate(p: Pid, node: Node, pinned: bool, rank: nat)
    | ContainerRun(c: ContainerId, running: bool)
    | ContainerRename(c: ContainerId)
    | ContainerGone(c: ContainerId)
    | Crash(ssh: SshPath)
    | WaitReturns(id: ActorId, clean: bool)
    | WaiterLock(id: ActorId, wrote: bool)
    | StopRequest(name: Name)
    | StopBegin(id: ActorId, wrote: bool)

  /** stopResourceLocked up to the durable container IDs. */
  datatype StopStep =
    | JoinAbsent
    | JoinReaped(ok: bool)
    | JoinTimeout
    | FenceLaunch(ok: bool)
    | CheckSource(checkoutOk: bool)
    | LookHead(obs: Option<Obs>)
    | LookWorker(obs: Option<Obs>)
    | WriteIds(wrote: bool)

  /** stopResourceLocked from the removal on. */
  datatype ReleaseStep =
    | RunStopScript(gone: set<ContainerId>, ok: bool)
    | RemoveExact(effect: Removal, ok: bool)
    | NothingToRemove
    | CheckHeadAbsent(ok: bool)
    | CheckWorkerAbsent(ok: bool)
    | WriteStopped(wrote: bool)
    | WriteFailed(wrote: bool)

  /** observe, reconcile and testResource. */
  datatype ObserverStep =
    | ObserveBegin(name: Name)
    | ReconcileBegin(name: Name, expired: bool)
    | ReconcileCheck(id: ActorId)
    | InspectFirst(id: ActorId, obs: Option<Obs>)
    | InspectSecond(id: ActorId, obs: Option<Obs>)
    | CompareAndWrite(id: ActorId, wrote: bool)
    | FenceAndMark(id: ActorId, fenceOk: bool, wrote: bool)
    | ProbeBegin(name: Name)
    | MarkReady(id: ActorId, wrote: bool)

  /** create, and the launch it shares with restart. */
  datatype LaunchStep =
    | CreateWorker(record: Record, wrote: bool)
    | CreateHead(identity: Identity, topology: Topology)
    | WriteEnv(ok: bool)
    | WriteConfig(ok: bool)
    | WriteWrapper(ok: bool)
    | OpenLog(ok: bool, undone: bool)
    | WriteStarting(wrote: bool)
    | StartLauncher(ok: bool, wrote: bool)

  /** The critical sections of restart and remove. */
  datatype CallStep =
    | RestartBegin(name: Name)
    | RestartLock(id: ActorId, ok: bool)
    | RemoveBegin(name: Name)
    | RemoveLock(id: ActorId, ok: bool)
    | RemoveTransport(left: Option<Transport>)

  datatype Step =
    | ByWorld(world: WorldStep)
    | ByStop(stop: StopStep)
    | ByRelease(release: ReleaseStep)
    | ByObserver(observer: ObserverStep)
    | ByLaunch(launch: LaunchStep)
    | ByCall(call: CallStep)

  function Do(s: State, step: Step): Option<State> {
    match step
    case ByWorld(x) => DoWorld(s, x)
    case ByStop(x) => DoStop(s, x)
    case ByRelease(x) => DoRelease(s, x)
    case ByObserver(x) => DoObserver(s, x)
    case ByLaunch(x) => DoLaunch(s, x)
    case ByCall(x) => DoCall(s, x)
  }

  function DoWorld(s: State, step: WorldStep): Option<State> {
    match step
    case ProcExit(p) => DoProcExit(s, p)
    case ProcFork(p) => DoProcFork(s, p)
    case ContainerCreate(p, node, pinned, rank) => DoContainerCreate(s, p, node, pinned, rank)
    case ContainerRun(c, running) => DoContainerRun(s, c, running)
    case ContainerRename(c) => DoContainerRename(s, c)
    case ContainerGone(c) => DoContainerGone(s, c)
    case Crash(ssh) => DoCrash(s, ssh)
    case WaitReturns(id, clean) => DoWaitReturns(s, id, clean)
    case WaiterLock(id, wrote) => DoWaiterLock(s, id, wrote)
    case StopRequest(name) => DoStopRequest(s, name)
    case StopBegin(id, wrote) => DoStopBegin(s, id, wrote)
  }

  function DoStop(s: State, step: StopStep): Option<State> {
    match step
    case JoinAbsent => DoJoinAbsent(s)
    case JoinReaped(ok) => DoJoinReaped(s, ok)
    case JoinTimeout => DoJoinTimeout(s)
    case FenceLaunch(ok) => DoFenceLaunch(s, ok)
    case CheckSource(checkoutOk) => DoCheckSource(s, checkoutOk)
    case LookHead(obs) => DoLookHead(s, obs)
    case LookWorker(obs) => DoLookWorker(s, obs)
    case WriteIds(wrote) => DoWriteIds(s, wrote)
  }

  function DoRelease(s: State, step: ReleaseStep): Option<State> {
    match step
    case RunStopScript(gone, ok) => DoRunStopScript(s, gone, ok)
    case RemoveExact(effect, ok) => DoRemoveExact(s, effect, ok)
    case NothingToRemove => DoNothingToRemove(s)
    case CheckHeadAbsent(ok) => DoCheckHeadAbsent(s, ok)
    case CheckWorkerAbsent(ok) => DoCheckWorkerAbsent(s, ok)
    case WriteStopped(wrote) => DoWriteStopped(s, wrote)
    case WriteFailed(wrote) => DoWriteFailed(s, wrote)
  }

  function DoObserver(s: State, step: ObserverStep): Option<State> {
    match step
    case ObserveBegin(name) => DoObserveBegin(s, name)
    case ReconcileBegin(name, expired) => DoReconcileBegin(s, name, expired)
    case ReconcileCheck(id) => DoReconcileCheck(s, id)
    case InspectFirst(id, obs) => DoInspectFirst(s, id, obs)
    case InspectSecond(id, obs) => DoInspectSecond(s, id, obs)
    case CompareAndWrite(id, wrote) => DoCompareAndWrite(s, id, wrote)
    case FenceAndMark(id, fenceOk, wrote) => DoFenceAndMark(s, id, fenceOk, wrote)
    case ProbeBegin(name) => DoProbeBegin(s, name)
    case MarkReady(id, wrote) => DoMarkReady(s, id, wrote)
  }

  function DoLaunch(s: State, step: LaunchStep): Option<State> {
    match step
    case CreateWorker(record, wrote) => DoCreateWorker(s, record, wrote)
    case CreateHead(identity, topology) => DoCreateHead(s, identity, topology)
    case WriteEnv(ok) => DoWriteEnv(s, ok)
    case WriteConfig(ok) => DoWriteConfig(s, ok)
    case WriteWrapper(ok) => DoWriteWrapper(s, ok)
    case OpenLog(ok, undone) => DoOpenLog(s, ok, undone)
    case WriteStarting(wrote) => DoWriteStarting(s, wrote)
    case StartLauncher(ok, wrote) => DoStartLauncher(s, ok, wrote)
  }

  function DoCall(s: State, step: CallStep): Option<State> {
    match step
    case RestartBegin(name) => DoRestartBegin(s, name)
    case RestartLock(id, ok) => DoRestartLock(s, id, ok)
    case RemoveBegin(name) => DoRemoveBegin(s, name)
    case RemoveLock(id, ok) => DoRemoveLock(s, id, ok)
    case RemoveTransport(left) => DoRemoveTransport(s, left)
  }

  // ------------------------------------------------ environment

  function DoProcExit(s: State, p: Pid): Option<State> {
    if p in s.world.procs then Some(s.(world := s.world.(procs := s.world.procs - {p}))) else None
  }

  function WithProcess(s: State, marker: LaunchId): State {
    s.(world := s.world.(procs := s.world.procs[s.world.nextPid := marker], nextPid := s.world.nextPid + 1))
  }

  function WithContainer(s: State, id: ContainerId, c: Container): State {
    s.(world := s.world.(containers := s.world.containers[id := c]))
  }

  function DoProcFork(s: State, p: Pid): Option<State> {
    if p in s.world.procs
    then Some(WithProcess(s, s.world.procs[p])) else None
  }

  /** Only a live launcher process creates a container under the fixed name, and
      Docker refuses a second one on the same node. */
  function DoContainerCreate(s: State, p: Pid, node: Node, pinned: bool, rank: nat): Option<State> {
    if p in s.world.procs && NoNamed(s, node) then
      var u := WithContainer(s, s.world.nextCid, Container(node, true, true, Some(s.world.procs[p]), pinned, rank));
      Some(u.(world := u.world.(nextCid := s.world.nextCid + 1)))
    else None
  }

  function DoContainerRun(s: State, c: ContainerId, running: bool): Option<State> {
    if c in s.world.containers
    then Some(WithContainer(s, c, s.world.containers[c].(running := running))) else None
  }

  function DoContainerRename(s: State, c: ContainerId): Option<State> {
    if c in s.world.containers
    then Some(WithContainer(s, c, s.world.containers[c].(named := false))) else None
  }

  function DoContainerGone(s: State, c: ContainerId): Option<State> {
    if c in s.world.containers then Some(s.(world := s.world.(containers := s.world.containers - {c}))) else None
  }

  /** The agent dies and comes back: memory is lost, launchers may survive, and
      the new process may resolve another ssh executable. */
  function DoCrash(s: State, ssh: SshPath): Option<State> {
    Some(s.(agent := s.agent.(ssh := ssh, table := map[], actors := map[], holder := Free, claims := map[])))
  }

  // ------------------------------------------------ waitForProcess

  /** Wait returned and `done` is closed; the lock is not needed for either. */
  function DoWaitReturns(s: State, id: ActorId, clean: bool): Option<State> {
    if id in s.agent.actors && s.agent.actors[id].Waiting? && s.agent.actors[id].pid !in s.world.procs then
      var a := s.agent.actors[id];
      var u := Become(s, id, Waited(a.name, a.launch, clean));
      if a.name in s.agent.table && s.agent.table[a.name].waiter == id
      then Some(u.(agent := u.agent.(table := s.agent.table[a.name := s.agent.table[a.name].(done := true)])))
      else Some(u)
    else None
  }

  function DoWaiterLock(s: State, id: ActorId, wrote: bool): Option<State> {
    if s.agent.holder.Free? && id in s.agent.actors && s.agent.actors[id].Waited? then
      var a := s.agent.actors[id];
      if a.name !in s.agent.table || s.agent.table[a.name].waiter != id then Some(End(s, id))
      else
        var u := s.(agent := s.agent.(table := s.agent.table - {a.name}));
        if a.name !in s.disk.records || s.disk.records[a.name].launch != a.launch
           || s.disk.records[a.name].status in {Stopping, Stopped}
        then Some(End(u, id))
        else
          var r := s.disk.records[a.name].(status := if a.clean then Exited else Failed);
          Some(Become(if wrote then Write(u, r) else u, id, StopWanted(a.name, Some(r), Finish)))
    else None
  }

  // ------------------------------------------------ stop, stopGeneration

  function DoStopRequest(s: State, name: Name): Option<State> {
    Some(Spawn(s, StopWanted(name, None, Finish)))
  }

  function DoStopBegin(s: State, id: ActorId, wrote: bool): Option<State> {
    if s.agent.holder.Free? && id in s.agent.actors && s.agent.actors[id].StopWanted? then
      var a := s.agent.actors[id];
      if a.name !in s.disk.records then Some(ReleaseError(s, id, a.name, a.next))
      else
        var r := s.disk.records[a.name];
        if a.bound.Some? && !SameGeneration(a.bound.value, r) then Some(ReleaseOk(s, id, a.next))
        else if r.status == Stopped then Some(ReleaseOk(s, id, a.next))
        else if !wrote then Some(ReleaseError(s, id, a.name, a.next))
        else
          var u := End(Write(s, r.(status := Stopping)), id);
          Some(Hold(u, StopAt(if r.id.role.Head? then Join else MarkStopped, id, u.disk.records[a.name], a.next)))
    else None
  }

  // ------------------------------------------------ stopResourceLocked

  function At(s: State, pc: StopPc): State
    requires s.agent.holder.StopAt?
  {
    Hold(s, s.agent.holder.(spc := pc))
  }

  predicate StoppingAt(s: State, pc: StopPc) {
    s.agent.holder.StopAt? && s.agent.holder.spc == pc
  }

  /** The process table holds an entry for this record's launch. */
  predicate Tabled(s: State, r: Record) {
    r.id.name in s.agent.table && s.agent.table[r.id.name].launch == r.launch
  }

  /** joinInMemoryLaunchLocked found no table entry for this launch. */
  function DoJoinAbsent(s: State): Option<State> {
    if StoppingAt(s, Join)
       && !Tabled(s, s.agent.holder.res)
    then Some(At(s, Fence)) else None
  }

  /** The launcher was killed and its `done` channel is closed. */
  function DoJoinReaped(s: State, ok: bool): Option<State> {
    if StoppingAt(s, Join)
       && Tabled(s, s.agent.holder.res)
       && s.agent.table[s.agent.holder.res.id.name].done
    then
      var u := s.(agent := s.agent.(table := s.agent.table - {s.agent.holder.res.id.name}));
      Some(At(u, if ok then Fence else MarkFailed))
    else None
  }

  function DoJoinTimeout(s: State): Option<State> {
    if StoppingAt(s, Join)
       && Tabled(s, s.agent.holder.res)
    then Some(At(s, MarkFailed)) else None
  }

  function DoFenceLaunch(s: State, ok: bool): Option<State> {
    if StoppingAt(s, Fence) then
      var l := s.agent.holder.res.launch;
      if ok then Some(At(Fenced(s, l), Source))
      else Some(At(s, MarkFailed))
    else None
  }

  function DoCheckSource(s: State, checkoutOk: bool): Option<State> {
    if StoppingAt(s, Source)
    then Some(At(s, if checkoutOk && SourceMatches(s, s.agent.holder.res) then InspectHead else MarkFailed))
    else None
  }

  function DoLookHead(s: State, obs: Option<Obs>): Option<State> {
    if StoppingAt(s, InspectHead) && (obs.Some? ==> Inspected(s, s.agent.holder.res, Local, obs.value))
    then Some(At(s, if obs.Some? then InspectWorker(obs.value) else MarkFailed)) else None
  }

  function DoLookWorker(s: State, obs: Option<Obs>): Option<State> {
    if s.agent.holder.StopAt? && s.agent.holder.spc.InspectWorker?
       && (obs.Some? ==> Inspected(s, s.agent.holder.res, Remote, obs.value))
    then Some(At(s, if obs.Some? then RecordIds(s.agent.holder.spc.h, obs.value) else MarkFailed)) else None
  }

  function DoWriteIds(s: State, wrote: bool): Option<State> {
    if s.agent.holder.StopAt? && s.agent.holder.spc.RecordIds? then
      var h := s.agent.holder;
      if !wrote then Some(ReleaseError(s, h.owner, h.res.id.name, h.next))
      else
        var u := Write(s, WithIds(h.res, h.spc.h, h.spc.w));
        Some(Hold(u, h.(spc := RemoveContainers(h.spc.h, h.spc.w), res := u.disk.records[h.res.id.name])))
    else None
  }

  /** ./stop.sh: an external script that removes containers it finds under the
      fixed name, possibly not all of them. */
  function DoRunStopScript(s: State, gone: set<ContainerId>, ok: bool): Option<State> {
    if s.agent.holder.StopAt? && s.agent.holder.spc.RemoveContainers?
       && s.agent.holder.spc.h.Present? && s.agent.holder.spc.w.Present?
       && (forall c :: c in gone ==> c in s.world.containers && s.world.containers[c].named)
    then Some(At(s.(world := s.world.(containers := s.world.containers - gone)), if ok then VerifyHead else MarkFailed))
    else None
  }

  /** The only inspected container, when exactly one node has one. */
  function SolePresent(h: Obs, w: Obs): Option<ContainerId> {
    if h.Present? && w.Absent? then Some(h.cid)
    else if h.Absent? && w.Present? then Some(w.cid)
    else None
  }

  /** removeExactRecipeContainer: docker stop, then docker rm, by container ID. */
  function DoRemoveExact(s: State, effect: Removal, ok: bool): Option<State> {
    if s.agent.holder.StopAt? && s.agent.holder.spc.RemoveContainers?
       && SolePresent(s.agent.holder.spc.h, s.agent.holder.spc.w).Some? && (ok ==> effect.Removed?)
    then
      var c := SolePresent(s.agent.holder.spc.h, s.agent.holder.spc.w).value;
      var cs := if effect.Removed? then s.world.containers - {c}
                else if effect.StoppedOnly? && c in s.world.containers
                then s.world.containers[c := s.world.containers[c].(running := false)]
                else s.world.containers;
      Some(At(s.(world := s.world.(containers := cs)), if ok then VerifyHead else MarkFailed))
    else None
  }

  function DoNothingToRemove(s: State): Option<State> {
    if s.agent.holder.StopAt? && s.agent.holder.spc == RemoveContainers(Absent, Absent)
    then Some(At(s, VerifyHead)) else None
  }

  function DoCheckHeadAbsent(s: State, ok: bool): Option<State> {
    if StoppingAt(s, VerifyHead) && (ok ==> VerifiedAbsent(s, s.agent.holder.res, Local))
    then Some(At(s, if ok then VerifyWorker else MarkFailed)) else None
  }

  function DoCheckWorkerAbsent(s: State, ok: bool): Option<State> {
    if StoppingAt(s, VerifyWorker) && (ok ==> VerifiedAbsent(s, s.agent.holder.res, Remote))
    then Some(At(s, if ok then MarkStopped else MarkFailed)) else None
  }

  /** The re-read record now reads "stopped"; the lock is still held. */
  function WithStopped(s: State): State
    requires s.agent.holder.StopAt? && s.agent.holder.res.id.name in s.disk.records
  {
    var u := Write(s, s.disk.records[s.agent.holder.res.id.name].(status := Stopped));
    if s.agent.holder.res.id.role.Head?
    then u.(past := u.past.(released := u.past.released + {s.agent.holder.res.launch}))
    else u
  }

  function DoWriteStopped(s: State, wrote: bool): Option<State> {
    if StoppingAt(s, MarkStopped) then
      var h := s.agent.holder;
      var n := h.res.id.name;
      if n !in s.disk.records || !SameGeneration(h.res, s.disk.records[n]) || !wrote
      then Some(ReleaseError(s, h.owner, n, h.next))
      else Some(ReleaseOk(WithStopped(s), h.owner, h.next))
    else None
  }

  /** Every refusal ends by trying to write "failed" and ignoring the outcome. */
  function DoWriteFailed(s: State, wrote: bool): Option<State> {
    if StoppingAt(s, MarkFailed) then
      var h := s.agent.holder;
      Some(ReleaseError(if wrote then Write(s, h.res.(status := Failed)) else s, h.owner, h.res.id.name, h.next))
    else None
  }

  // ------------------------------------------------ observe, reconcile, readiness

  function DoObserveBegin(s: State, name: Name): Option<State> {
    if s.agent.holder.Free? && name in s.disk.records && s.disk.records[name].id.role.Head?
       && s.disk.records[name].status in {Starting, Running}
    then Some(Spawn(s, Inspecting(Observe, s.disk.records[name], None))) else None
  }

  function DoReconcileBegin(s: State, name: Name, expired: bool): Option<State> {
    if s.agent.holder.Free? && name in s.disk.records && s.disk.records[name].id.role.Head?
       && s.disk.records[name].status != Stopped
       && (expired ==> s.disk.records[name].deadline)
    then
      var r := s.disk.records[name];
      Some(Spawn(s, if expired then StopWanted(name, Some(r), Finish) else Reconciling(r)))
    else None
  }

  predicate LauncherActive(s: State, r: Record) {
    r.id.name in s.agent.table && s.agent.table[r.id.name].launch == r.launch && !s.agent.table[r.id.name].done
  }

  function DoReconcileCheck(s: State, id: ActorId): Option<State> {
    if s.agent.holder.Free? && id in s.agent.actors && s.agent.actors[id].Reconciling? then
      var r := s.agent.actors[id].seen;
      Some(Become(s, id, Inspecting(if LauncherActive(s, r) then ActivePass else OrphanPass, r, None)))
    else None
  }

  function DoInspectFirst(s: State, id: ActorId, obs: Option<Obs>): Option<State> {
    if id in s.agent.actors && s.agent.actors[id].Inspecting? && s.agent.actors[id].head.None?
       && (obs.Some? ==> Inspected(s, s.agent.actors[id].seen, Local, obs.value))
    then Some(if obs.Some? then Become(s, id, s.agent.actors[id].(head := obs)) else End(s, id))
    else None
  }

  /** What each pass does once both nodes have been inspected. */
  function Conclude(pass: Pass, r: Record, h: Obs, w: Obs): Actor {
    match pass
    case Observe =>
      var status := if BothRunning(h, w) then Running else if r.status == Running then Failed else r.status;
      CasWanted(r, WithIds(r, h, w).(status := status))
    case ActivePass =>
      CasWanted(r, WithIds(r, h, w).(status := if BothRunning(h, w) then Running else r.status))
    case OrphanPass =>
      if BothRunning(h, w) then CasWanted(r, r.(status := Running))
      else if h.Present? || w.Present? then StopWanted(r.id.name, Some(r), Finish)
      else FenceWanted(r)
  }

  function DoInspectSecond(s: State, id: ActorId, obs: Option<Obs>): Option<State> {
    if id in s.agent.actors && s.agent.actors[id].Inspecting? && s.agent.actors[id].head.Some?
       && (obs.Some? ==> Inspected(s, s.agent.actors[id].seen, Remote, obs.value))
    then
      var a := s.agent.actors[id];
      Some(if obs.Some? then Become(s, id, Conclude(a.pass, a.seen, a.head.value, obs.value)) else End(s, id))
    else None
  }

  /** The read both compare-and-write and the fence path require to be current. */
  predicate StillCurrent(s: State, e: Record) {
    && e.id.name in s.disk.records
    && SameGeneration(e, s.disk.records[e.id.name])
    && e.stamp == s.disk.records[e.id.name].stamp
  }

  function DoCompareAndWrite(s: State, id: ActorId, wrote: bool): Option<State> {
    if s.agent.holder.Free? && id in s.agent.actors && s.agent.actors[id].CasWanted? then
      var a := s.agent.actors[id];
      Some(End(if StillCurrent(s, a.seen) && wrote then Write(s, a.updated) else s, id))
    else None
  }

  function DoFenceAndMark(s: State, id: ActorId, fenceOk: bool, wrote: bool): Option<State> {
    if s.agent.holder.Free? && id in s.agent.actors && s.agent.actors[id].FenceWanted? then
      var e := s.agent.actors[id].seen;
      if !StillCurrent(s, e) || LauncherActive(s, e) || !fenceOk then Some(End(s, id))
      else
        var r := s.disk.records[e.id.name];
        var u := Fenced(s, r.launch);
        Some(End(if wrote then Write(u, r.(status := Stopped)) else u, id))
    else None
  }

  function DoProbeBegin(s: State, name: Name): Option<State> {
    if s.agent.holder.Free? && name in s.disk.records && s.disk.records[name].id.role.Head?
    then Some(Spawn(s, ReadyWanted(s.disk.records[name]))) else None
  }

  function DoMarkReady(s: State, id: ActorId, wrote: bool): Option<State> {
    if s.agent.holder.Free? && id in s.agent.actors && s.agent.actors[id].ReadyWanted? then
      var e := s.agent.actors[id].seen;
      if e.id.name !in s.disk.records || !SameGeneration(e, s.disk.records[e.id.name])
         || !s.disk.records[e.id.name].deadline || !wrote
      then Some(End(s, id))
      else Some(End(Write(s, s.disk.records[e.id.name].(deadline := false)), id))
    else None
  }

  // ------------------------------------------------ create, restart

  /** The name is free and no other resource reserves the node. */
  predicate Unreserved(s: State, name: Name) {
    name !in s.disk.records && forall n :: n in s.disk.records ==> n == name
  }

  function DoCreateWorker(s: State, record: Record, wrote: bool): Option<State> {
    if s.agent.holder.Free? && Unreserved(s, record.id.name) && record.id.role.Worker?
       && record.status == Running && record.launch == 0
       && record.headCid.None? && record.workerCid.None? && !record.deadline
    then Some(if wrote then Write(s, record) else s) else None
  }

  /** create after its checks: neither node holds the fixed name, a launch ID is drawn. */
  function DoCreateHead(s: State, id: Identity, topology: Topology): Option<State> {
    if s.agent.holder.Free? && Unreserved(s, id.name) && id.role.Head? && NoNamed(s, Local) && NoNamed(s, Remote) then
      var r := Record(id, topology, Starting, s.past.nextLaunch, None, None, true, 0);
      var u := Hold(DrawLaunch(s), LaunchAt(NeedEnv, Create, s.agent.nextActor, r));
      Some(u.(agent := u.agent.(nextActor := s.agent.nextActor + 1)))
    else None
  }

  function DoRestartBegin(s: State, name: Name): Option<State> {
    if s.agent.holder.Free? && name in s.disk.records then
      var r := s.disk.records[name];
      var u := Spawn(s, if r.status == Stopped then RestartWanted(r) else StopWanted(name, None, ThenRestart(r)));
      Some(u.(agent := u.agent.(claims := s.agent.claims[name := s.agent.nextActor])))
    else None
  }

  /** restart's second critical section; it goes on with the record it read first. */
  function DoRestartLock(s: State, id: ActorId, ok: bool): Option<State> {
    if s.agent.holder.Free? && id in s.agent.actors && s.agent.actors[id].RestartWanted? then
      var r := s.agent.actors[id].res;
      if r.id.role.Worker? then
        Some(Unclaim(End(if ok then Write(s, r.(status := Running)) else s, id), r.id.name))
      else if !ok || !NoNamed(s, Local) || !NoNamed(s, Remote) then Some(Unclaim(End(s, id), r.id.name))
      else
        var next := r.(status := Starting, launch := s.past.nextLaunch,
                       headCid := None, workerCid := None, deadline := true);
        Some(Hold(End(DrawLaunch(s), id), LaunchAt(NeedEnv, Restart, id, next)))
    else None
  }

  predicate LaunchingAt(s: State, pc: LaunchPc) {
    s.agent.holder.LaunchAt? && s.agent.holder.lpc == pc
  }

  function Launching(s: State, pc: LaunchPc): State
    requires s.agent.holder.LaunchAt?
  {
    Hold(s, s.agent.holder.(lpc := pc))
  }

  function EndLaunch(s: State): State
    requires s.agent.holder.LaunchAt?
  {
    var u := Hold(s, Free);
    if s.agent.holder.kind.Restart? then Unclaim(u, s.agent.holder.res.id.name) else u
  }

  function DoWriteEnv(s: State, ok: bool): Option<State> {
    if LaunchingAt(s, NeedEnv) then
      if !ok then Some(EndLaunch(s))
      else
        var text := EnvFile(s.agent.holder.res.topology, s.agent.holder.res.launch);
        Some(Launching(s.(disk := s.disk.(env := Some(text))), NeedConfig))
    else None
  }

  function WithTransport(s: State, l: LaunchId, files: Transport): State {
    s.(disk := s.disk.(transports := s.disk.transports[l := files]))
  }

  function DoWriteConfig(s: State, ok: bool): Option<State> {
    if LaunchingAt(s, NeedConfig) then
      if !ok then Some(EndLaunch(s))
      else Some(Launching(WithTransport(s, s.agent.holder.res.launch, Transport(true, None)), NeedWrapper))
    else None
  }

  /** restart opens its log before the record is written, create after. */
  function DoWriteWrapper(s: State, ok: bool): Option<State> {
    if LaunchingAt(s, NeedWrapper) then
      if !ok then Some(EndLaunch(s))
      else
        Some(Launching(WithTransport(s, s.agent.holder.res.launch, Transport(true, Some(s.agent.ssh))),
                       if s.agent.holder.kind.Create? then NeedRecord else NeedLog))
    else None
  }

  function DoOpenLog(s: State, ok: bool, undone: bool): Option<State> {
    if LaunchingAt(s, NeedLog) then
      if ok then Some(Launching(s, if s.agent.holder.kind.Create? then NeedStart else NeedRecord))
      else if s.agent.holder.kind.Create? && undone
      then Some(EndLaunch(Drop(s, s.agent.holder.res.id.name)))
      else Some(EndLaunch(s))
    else None
  }

  function DoWriteStarting(s: State, wrote: bool): Option<State> {
    if LaunchingAt(s, NeedRecord) then
      if !wrote then Some(EndLaunch(s))
      else
        var u := Write(s, s.agent.holder.res);
        Some(Hold(u, s.agent.holder.(res := u.disk.records[s.agent.holder.res.id.name],
                                    lpc := if s.agent.holder.kind.Create? then NeedLog else NeedStart)))
    else None
  }

  function DoStartLauncher(s: State, ok: bool, wrote: bool): Option<State> {
    if LaunchingAt(s, NeedStart) then
      var r := s.agent.holder.res;
      if ok then
        var u := Spawn(s, Waiting(r.id.name, r.launch, s.world.nextPid));
        var v := u.(world := WithProcess(s, r.launch).world,
                    past := u.past.(started := s.past.started + {r.launch}));
        var entry := Entry(r.launch, s.world.nextPid, false, s.agent.nextActor);
        Some(EndLaunch(v.(agent := v.agent.(table := s.agent.table[r.id.name := entry]))))
      else Some(EndLaunch(if wrote then Write(s, r.(status := Failed)) else s))
    else None
  }

  // ------------------------------------------------ remove

  function DoRemoveBegin(s: State, name: Name): Option<State> {
    if s.agent.holder.Free? && name in s.disk.records then
      var r := s.disk.records[name];
      var u := Spawn(s, if r.status == Stopped then RemoveWanted(r) else StopWanted(name, None, ThenRemove(r)));
      Some(u.(agent := u.agent.(claims := s.agent.claims[name := s.agent.nextActor])))
    else None
  }

  function DoRemoveLock(s: State, id: ActorId, ok: bool): Option<State> {
    if s.agent.holder.Free? && id in s.agent.actors && s.agent.actors[id].RemoveWanted? then
      var r := s.agent.actors[id].res;
      var n := r.id.name;
      if n !in s.disk.records || !SameGeneration(r, s.disk.records[n]) || s.disk.records[n].status != Stopped || !ok
      then Some(Unclaim(End(s, id), n))
      else
        var u := End(Drop(s, n), id);
        if r.id.role.Head? then Some(Hold(u, RemoveAt(id, n, r.launch))) else Some(Unclaim(u, n))
    else None
  }

  /** What a failed RemoveAll may leave of a transport directory. */
  predicate PartOf(left: Transport, s: State, launch: LaunchId) {
    && launch in s.disk.transports
    && (left.config ==> s.disk.transports[launch].config)
    && (left.wrapper.Some? ==> left.wrapper == s.disk.transports[launch].wrapper)
  }

  function DoRemoveTransport(s: State, left: Option<Transport>): Option<State> {
    if s.agent.holder.RemoveAt? && (left.Some? ==> PartOf(left.value, s, s.agent.holder.launch)) then
      var h := s.agent.holder;
      var ts := if left.None? then s.disk.transports - {h.launch} else s.disk.transports[h.launch := left.value];
      Some(Unclaim(s.(disk := s.disk.(transports := ts), agent := s.agent.(holder := Free)), h.name))
    else None
  }

  // ---------------------------------------------------------------- runs

  /** A fresh agent on nodes that may already hold foreign containers. */
  predicate Init(s: State) {
    && s.disk.records == map[] && s.disk.transports == map[] && s.world.procs == map[]
    && s.agent.table == map[] && s.agent.actors == map[] && s.agent.holder.Free? && s.agent.claims == map[]
    && (forall c :: c in s.world.containers ==> c < s.world.nextCid)
    && s.past.nextLaunch == 1
    && s.past.started == {} && s.past.fenced == {} && s.past.released == {}
  }

  /** At most one restart or remove call is under way for a name. */
  predicate Disciplined(s: State, step: Step) {
    match step
    case ByCall(RestartBegin(name)) => name !in s.agent.claims
    case ByCall(RemoveBegin(name)) => name !in s.agent.claims
    case _ => true
  }

  /** A finite run from `s` to `t`; `strict` runs also obey the discipline. */
  ghost predicate Run(s: State, steps: seq<Step>, t: State, strict: bool)
    decreases |steps|
  {
    if steps == [] then s == t
    else
      && (strict ==> Disciplined(s, steps[0]))
      && Do(s, steps[0]).Some?
      && Run(Do(s, steps[0]).value, steps[1..], t, strict)
  }
}
