/**
 The manager's own code, statement by statement, over the state it owns. Every
 durable write, kill, observation or critical section is followed in the lifecycle
 machine, so each method is a sequence of steps of that machine, with whatever other
 goroutines, launchers and containers do in between.
 */
module Manager {
  import opened Common
  import opened Lifecycle
  import opened LifecycleInvariant
  import opened LifecycleFrames
  import opened LifecycleSteps
  import opened LifecycleTheorems
  import opened LifecycleInterference
  import opened ManagerFacts

  /** How far a stop got inside its critical section. */
  datatype ReleaseOutcome = Verified | Refused | Unwritten

  /** What a goroutine that has inspected both nodes goes on to do. */
  datatype Decision = Nothing | Save(updated: Record) | StopIt | FenceIt

  /** What reconcile does about one record before it looks at any container. */
  datatype Sighting = Ignored | Overdue(late: Record) | ToCheck(live: Record)

  /** The goroutine now wants what was decided about the record it read. */
  predicate Decided(decision: Decision, r: Record, a: Actor) {
    match decision
    case Nothing => false
    case Save(updated) => a == CasWanted(r, updated)
    case StopIt => a == StopWanted(r.id.name, Some(r), Finish)
    case FenceIt => a == FenceWanted(r)
  }

  /** What the two observations make of a record: exactly when it is saved, stopped or
      fenced, and what a saved record says. */
  predicate Justified(decision: Decision, pass: Pass, r: Record, head: Obs, worker: Obs) {
    && (decision.Save? <==> pass != OrphanPass || BothRunning(head, worker))
    && (decision.StopIt? <==>
        pass == OrphanPass && (head.Present? || worker.Present?) && !BothRunning(head, worker))
    && (decision.FenceIt? <==> pass == OrphanPass && head.Absent? && worker.Absent?)
    && (decision.Save? ==> SavedWell(decision.updated, pass, r, head, worker))
  }

  predicate SavedWell(u: Record, pass: Pass, r: Record, head: Obs, worker: Obs) {
    && (u.status == Running <==> BothRunning(head, worker) || (pass == ActivePass && r.status == Running))
    && (u.status == Status.Failed <==>
        !BothRunning(head, worker) && (r.status == Status.Failed || (pass == Observe && r.status == Running)))
    && (u.status == r.status || u.status in {Running, Status.Failed})
    && u.(status := r.status) == if pass == OrphanPass then r else WithIds(r, head, worker)
  }

  datatype CreateOutcome = Reserved | Unavailable | Started | NotStarted

  datatype StopOutcome = NoRecord | OtherGeneration | AlreadyStopped | Done | Failed

  class TensorFoldManager {
    /** Whether this stretch of the agent's life is calm: files can be written, external
        commands succeed, killed launchers exit, and nobody else touches a process or a
        container. What holds without it holds in every stretch. */
    const calm: bool
    // files under the state root
    var records: map<Name, Record>
    var env: Option<EnvFile>
    var transports: map<LaunchId, Transport>
    var clock: nat
    // the outside world
    var procs: map<Pid, LaunchId>
    var containers: map<ContainerId, Container>
    var nextPid: Pid
    var nextCid: ContainerId
    // memory
    var sshExecutable: SshPath
    var processes: map<Name, Entry>
    var nextActor: ActorId    // goroutines are told apart by number
    // the machine this code follows
    ghost var actors: map<ActorId, Actor>
    ghost var holder: Holder
    ghost var claims: map<Name, ActorId>
    ghost var past: Past
    ghost var origin: State
    ghost var trace: seq<Step>

    ghost function Now(): State
      reads this
    {
      State(Disk(records, env, transports, clock), World(procs, containers, nextPid, nextCid),
            Agent(sshExecutable, processes, actors, holder, claims, nextActor), past)
    }

    ghost predicate Valid()
      reads this
    {
      Inv(Now()) && Run(origin, trace, Now(), true)
    }

    /** An agent's first start, on nodes that may already hold foreign containers. */
    constructor (quiet: bool, ssh: SshPath, foreign: map<ContainerId, Container>, ids: nat)
      requires forall c :: c in foreign ==> c < ids
      ensures Valid() && Init(Now()) && origin == Now() && containers == foreign && calm == quiet
    {
      calm := quiet;
      records, env, transports, clock := map[], None, map[], 0;
      procs, containers, nextPid, nextCid := map[], foreign, 0, ids;
      sshExecutable, processes, nextActor := ssh, map[], 0;
      actors, holder, claims, past := map[], Free, map[], Past(1, {}, {}, {});
      trace := [];
      new;
      origin := Now();
      InitInv(Now());
    }

    /** The code has just done to the real state what `step` does: the ghost half of
        the state follows. */
    ghost method Follow(s: State, step: Step)
      requires Inv(s) && Run(origin, trace, s, true) && Disciplined(s, step) && Do(s, step).Some?
      requires var t := Do(s, step).value;
        && Disk(records, env, transports, clock) == t.disk
        && World(procs, containers, nextPid, nextCid) == t.world
        && sshExecutable == t.agent.ssh && processes == t.agent.table && nextActor == t.agent.nextActor
      modifies this`actors, this`holder, this`claims, this`past, this`trace
      ensures Valid() && Now() == Do(s, step).value && trace == old(trace) + [step]
    {
      hide Inv, Do;
      var t := Do(s, step).value;
      actors, holder, claims, past :=
        t.agent.actors, t.agent.holder, t.agent.claims, t.past;
      RunSnoc(origin, trace, s, step, t, true);
      StepKeeps(s, step, t);
      trace := trace + [step];
    }

    /** The run goes on from where it was. */
    twostate predicate Onwards()
      reads this
    {
      origin == old(origin) && old(trace) <= trace
    }

    /** The files of the state root, the ssh executable and, if it is calm, the containers. */
    twostate predicate Kept()
      reads this
    {
      && env == old(env) && transports == old(transports) && sshExecutable == old(sshExecutable)
      && (calm ==> containers == old(containers))
    }

    /** What the goroutine that holds the manager lock can rely on while others run. */
    twostate predicate Meanwhile(me: ActorId)
      reads this
    {
      Onwards() && Undisturbed(old(Now()), Now(), me) && (calm ==> containers == old(containers))
    }

    /** An outcome that the outside world decides; in a calm stretch, success. */
    method Succeeds() returns (ok: bool)
      ensures calm ==> ok
    {
      ok := *;
      ok := ok || calm;
    }

    /** Any number of steps that need no lock: launchers and containers, and goroutines
        that wait or inspect. Each call may take any of them, in a calm stretch those that
        leave processes and containers alone. */
    method StepWithoutLock(ghost me: ActorId)
      requires Valid()
      modifies this
      ensures Onwards()
      ensures AllLockless(trace[|old(trace)|..], me) && Run(old(Now()), trace[|old(trace)|..], Now(), true)
      ensures calm ==> Now().world == old(Now()).world
    {
      assert trace[|trace|..] == [];
    }

    /** ... after which the code still follows the machine, undisturbed. */
    method Interfere(ghost me: ActorId)
      requires Valid()
      modifies this
      ensures Valid() && Meanwhile(me)
      ensures calm ==> procs == old(procs)
    {
      hide Inv, Do, Undisturbed;
      ghost var s, before := Now(), trace;
      StepWithoutLock(me);
      LocklessRun(s, trace[|before|..], Now(), me);
      RunTwice(origin, before, s, trace[|before|..], Now(), true);
      assert before + trace[|before|..] == trace;
    }

    // -------------------------------------------------------------- fencing

    /** Kills the listed processes one by one, up to the first kill that is refused. */
    method KillAll(pids: set<Pid>, ghost me: ActorId) returns (ok: bool)
      requires Valid()
      modifies this
      ensures Valid() && Meanwhile(me)
      ensures ok ==> forall p :: p in pids && p < old(nextPid) ==> p !in procs
      ensures calm ==> ok && procs == old(procs) - pids
    {
      hide Inv, Run, Do, Undisturbed;
      SelfUndisturbed(Now(), me);
      var left := pids;
      while left != {}
        invariant Valid() && Meanwhile(me) && left <= pids
        invariant forall p :: p in pids && p !in left && p < old(nextPid) ==> p !in procs
        invariant old(nextPid) <= nextPid
        invariant calm ==> procs == old(procs) - (pids - left)
        decreases left
      {
        var p :| p in left;
        ok := Succeeds();
        if !ok { return; }
        ghost var s := Now();
        if p in procs { KillOne(p, me); } else { SelfUndisturbed(s, me); }
        left := left - {p};
        ghost var u := Now();
        Interfere(me);
        UndisturbedThrice(old(Now()), s, u, Now(), me);
      }
      return true;
    }

    method KillOne(p: Pid, ghost me: ActorId)
      requires Valid() && p in procs
      modifies this`procs, this`actors, this`holder, this`claims, this`past, this`trace
      ensures Valid() && Meanwhile(me) && containers == old(containers) && procs == old(procs) - {p}
    {
      hide Inv, Run;
      ghost var s := Now();
      if me in actors { TheActor(s, me); }
      procs := procs - {p};
      Follow(s, ByWorld(ProcExit(p)));
    }

    /** fenceTensorFoldProcesses: scan, kill and scan again until a scan finds no
        process with the marker, or finds one after the deadline. */
    method FenceProcesses(marker: LaunchId, deadline: nat, ghost me: ActorId) returns (ok: bool)
      requires Valid()
      modifies this
      ensures Valid() && Meanwhile(me)
      ensures ok ==> forall p :: p in procs ==> procs[p] != marker
      ensures calm ==> ok && procs == WithoutMarker(old(procs), marker)
    {
      hide Inv, Run, Do, Undisturbed;
      SelfUndisturbed(Now(), me);
      var attempt := 0;
      while true
        invariant Valid() && Meanwhile(me) && attempt <= deadline + 1
        invariant calm ==> procs == if attempt == 0 then old(procs) else WithoutMarker(old(procs), marker)
        decreases deadline + 1 - attempt
      {
        ok := Succeeds();
        if !ok { return; }   // the process table cannot be read
        var pids := set p | p in procs && procs[p] == marker;
        if pids == {} {
          assert forall p :: p in procs ==> p !in pids;
          return;
        }
        assert exists p :: p in pids;
        if attempt > deadline { return false; }
        ghost var s := Now();
        ok := KillAll(pids, me);
        ghost var u := Now();
        UndisturbedTwice(old(Now()), s, u, me);
        if !ok { return; }
        attempt := attempt + 1;
        Interfere(me);
        UndisturbedTwice(old(Now()), u, Now(), me);
      }
    }

    // -------------------------------------------------------------- inspection

    /** inspectRecipeContainerIdentity: an answer exactly when docker can be asked and
        the node holds either no container of this record or one that is wholly its own. */
    method InspectRecipeContainerIdentity(resource: Record, node: Node, dockerFails: bool) returns (obs: Option<Obs>)
      ensures obs.Some? ==> Inspected(Now(), resource, node, obs.value)
      ensures obs.Some? <==> !dockerFails && Answerable(Now(), resource, node)
      ensures obs.Some? && obs.value.Present? ==>
                containers[obs.value.cid].rank == (match node case Local => 0 case Remote => 1)
    {
      if dockerFails { return None; }
      var identifiers := set c | c in containers && containers[c].named && containers[c].node == node;
      var expected := RecordedCid(resource, node);
      if identifiers == {} {
        assert forall c :: c in containers ==> c !in identifiers;
        if expected.Some? && expected.value in containers && containers[expected.value].node == node { return None; }
        obs := Some(Absent);
        assert Inspected(Now(), resource, node, obs.value);
        return;
      }
      var identifier :| identifier in identifiers;
      if identifiers != {identifier} {
        ghost var other :| other in identifiers && other != identifier;
        return None;
      }
      assert forall c :: c in containers && containers[c].named && containers[c].node == node ==> c in identifiers;
      if expected.Some? && expected.value != identifier { return None; }
      var found := containers[identifier];
      if found.marker != Some(resource.launch) || !found.pinned || found.rank != RankOf(node) { return None; }
      obs := Some(Present(identifier, found.running));
      assert Inspected(Now(), resource, node, obs.value);
    }

    /** ensureSingletonReservation: no other record reserves this node. */
    method EnsureSingletonReservation(name: Name) returns (ok: bool)
      ensures ok <==> forall n :: n in records ==> n == name
    {
      var entries := records.Keys;
      while entries != {}
        invariant entries <= records.Keys
        invariant forall n :: n in records && n !in entries ==> n == name
        decreases entries
      {
        var n :| n in entries;
        if n != name { return false; }
        entries := entries - {n};
      }
      return true;
    }

    // -------------------------------------------------------------- stopResourceLocked

    /** The lock is held by this stop, which has reached `pc` with `resource`. */
    ghost predicate Stopping(me: ActorId, next: Next, pc: StopPc, resource: Record)
      reads this
    {
      Valid() && holder == StopAt(pc, me, resource, next)
    }

    /** writeResource: stamps the record and replaces its file. */
    method PutRecord(resource: Record)
      modifies this`records, this`clock
      ensures records == old(records)[resource.id.name := resource.(stamp := old(clock))] && clock == old(clock) + 1
      ensures (forall n :: n in old(records) ==> old(records)[n].stamp < old(clock)) ==>
                forall n :: n in records ==> records[n].stamp < clock
    {
      records := records[resource.id.name := resource.(stamp := clock)];
      clock := clock + 1;
    }

    /** waitForProcess up to its lock: the launcher has exited, `done` is closed. */
    method WaiterReturns(name: Name, clean: bool, ghost me: ActorId)
      requires Valid() && name in processes && !processes[name].done && processes[name].pid !in procs
      requires me in actors ==> !actors[me].Waiting?
      modifies this
      ensures Valid() && Meanwhile(me) && procs == old(procs)
      ensures processes == old(processes)[name := old(processes)[name].(done := true)]
    {
      hide Inv, Run;
      ghost var s := Now();
      TheEntry(s, name);
      ghost var waiter := processes[name].waiter;
      TheActor(s, waiter);
      if me in actors { TheActor(s, me); }
      processes := processes[name := processes[name].(done := true)];
      Follow(s, ByWorld(WaitReturns(waiter, clean)));
    }

    /** Kills the launcher in the process table and waits for its `done`, not forever. */
    method KillAndAwait(name: Name, patience: nat, ghost me: ActorId) returns (killed: bool)
      requires Valid() && name in processes && !holder.Free? && holder.owner == me
      modifies this
      ensures Valid() && Meanwhile(me)
      ensures calm ==> killed && processes[name].done && procs == old(procs) - {old(processes)[name].pid}
    {
      hide Inv, Run, Do, Undisturbed;
      ghost var s := Now();
      SelfUndisturbed(s, me);
      killed := Succeeds();
      if processes[name].pid in procs && killed { KillOne(processes[name].pid, me); }
      ghost var u := Now();
      UndisturbedTable(s, u, me);
      AwaitDone(name, patience, me);
      UndisturbedTwice(s, u, Now(), me);
      UndisturbedTable(s, Now(), me);
    }

    method AwaitDone(name: Name, patience: nat, ghost me: ActorId)
      requires Valid() && name in processes && !holder.Free? && holder.owner == me
      modifies this
      ensures Valid() && Meanwhile(me) && (calm ==> procs == old(procs))
      ensures calm && old(processes)[name].pid !in old(procs) ==> name in processes && processes[name].done
    {
      hide Inv, Run, Do, Undisturbed;
      ghost var s := Now();
      SelfUndisturbed(s, me);
      var waited := 0;
      while waited < patience
        invariant Valid() && Meanwhile(me) && (calm ==> procs == old(procs))
      {
        UndisturbedTable(s, Now(), me);
        if processes[name].done { return; }
        ghost var u := Now();
        Interfere(me);
        UndisturbedTwice(s, u, Now(), me);
        waited := waited + 1;
      }
      UndisturbedTable(s, Now(), me);
      // in a calm stretch the waiter gets to run before patience runs out
      if calm && !processes[name].done && processes[name].pid !in procs {
        TheOwner(Now());
        ghost var u := Now();
        WaiterReturns(name, false, me);
        UndisturbedTwice(s, u, Now(), me);
      }
    }

    /** joinInMemoryLaunchLocked: kill the launcher this agent started for the launch
        and wait, up to a limit, for its waiter to close `done`. */
    method JoinInMemoryLaunch(resource: Record, patience: nat, ghost me: ActorId, ghost next: Next) returns (ok: bool)
      requires Stopping(me, next, Join, resource)
      modifies this
      ensures Onwards() && Kept()
      ensures Stopping(me, next, if ok then StopPc.Fence else MarkFailed, resource)
      ensures ok ==> resource.id.name !in processes || processes[resource.id.name].launch != resource.launch
      ensures calm ==> ok
    {
      hide Inv, Run;
      var name := resource.id.name;
      if name !in processes || processes[name].launch != resource.launch {
        Follow(Now(), ByStop(JoinAbsent));
        return true;
      }
      var killed := KillAndAwait(name, patience, me);
      ok := Reap(resource, killed, me, next);
    }

    /** The join after its wait: a reaped launcher leaves the process table. */
    method Reap(resource: Record, killed: bool, ghost me: ActorId, ghost next: Next) returns (ok: bool)
      requires Stopping(me, next, Join, resource)
      requires resource.id.name in processes && processes[resource.id.name].launch == resource.launch
      modifies this
      ensures Onwards() && Kept()
      ensures Stopping(me, next, if ok then StopPc.Fence else MarkFailed, resource)
      ensures ok ==> killed && resource.id.name !in processes
      ensures calm && killed && old(processes)[resource.id.name].done ==> ok
    {
      hide Inv, Run;
      ghost var s := Now();
      if !processes[resource.id.name].done {
        Follow(s, ByStop(JoinTimeout));
        return false;
      }
      var expected := Succeeds();
      ok := killed && expected;
      processes := processes - {resource.id.name};
      Follow(s, ByStop(JoinReaped(ok)));
    }

    /** fenceLauncherLocked: afterwards no process carries this launch's marker. */
    method FenceLauncher(resource: Record, deadline: nat, ghost me: ActorId, ghost next: Next) returns (ok: bool)
      requires Stopping(me, next, StopPc.Fence, resource)
      modifies this
      ensures Onwards() && Kept()
      ensures Stopping(me, next, if ok then Source else MarkFailed, resource)
      ensures ok ==> resource.launch in past.fenced && forall p :: p in procs ==> procs[p] != resource.launch
      ensures calm ==> ok && procs == WithoutMarker(old(procs), resource.launch)
    {
      hide Inv, Run;
      ok := FenceProcesses(resource.launch, deadline, me);
      assert ok ==> WithoutMarker(procs, resource.launch) == procs;
      Follow(Now(), ByStop(FenceLaunch(ok)));
    }

    /** verifyPinnedRecipeForExecution: the pinned checkout, `.env` and both
        transport files must be exactly what this launch was given. */
    method VerifySource(resource: Record, checkoutOk: bool, ghost me: ActorId, ghost next: Next) returns (ok: bool)
      requires Stopping(me, next, Source, resource)
      modifies this
      ensures Onwards()
      ensures Stopping(me, next, if ok then InspectHead else MarkFailed, resource)
      ensures Kept() && (ok <==> checkoutOk && SourceMatches(old(Now()), resource))
    {
      hide Inv, Run;
      ok := checkoutOk && env == Some(EnvFile(resource.topology, resource.launch))
            && resource.launch in transports && transports[resource.launch].config
            && transports[resource.launch].wrapper == Some(sshExecutable);
      Follow(Now(), ByStop(CheckSource(checkoutOk)));
    }

    /** The two inspections that decide what may be removed. */
    method InspectBoth(resource: Record, ghost me: ActorId, ghost next: Next) returns (ok: bool, head: Obs, worker: Obs)
      requires Stopping(me, next, InspectHead, resource)
      modifies this
      ensures Onwards()
      ensures Stopping(me, next, if ok then RecordIds(head, worker) else MarkFailed, resource)
      ensures Kept()
      ensures ok ==> ObsOk(Now(), resource, Local, head) && ObsOk(Now(), resource, Remote, worker)
      ensures calm ==>
                (ok <==> Answerable(old(Now()), resource, Local) && Answerable(old(Now()), resource, Remote))
      ensures calm && ok ==> Inspected(Now(), resource, Local, head) && Inspected(Now(), resource, Remote, worker)
    {
      hide Inv, Run, Do, ObsOk, Answerable, Inspected;
      head, worker := Absent, Absent;
      ok, head := InspectHeadNode(resource, me, next);
      if !ok { return; }
      ghost var s := Now();
      Interfere(me);
      if calm { AnswerableKept(old(Now()), Now(), resource, resource, Remote); }
      ok, worker := InspectWorkerNode(resource, head, me, next);
      if calm { InspectedKept(s, Now(), resource, resource, Local, head); }
      if ok { SeenBoth(Now()); }
    }

    method InspectHeadNode(resource: Record, ghost me: ActorId, ghost next: Next) returns (ok: bool, head: Obs)
      requires Stopping(me, next, InspectHead, resource)
      modifies this
      ensures Onwards()
      ensures Stopping(me, next, if ok then InspectWorker(head) else MarkFailed, resource)
      ensures Kept() && containers == old(containers) && (ok ==> Inspected(Now(), resource, Local, head))
      ensures calm ==> (ok <==> Answerable(old(Now()), resource, Local))
    {
      hide Inv, Run, Inspected, Answerable;
      var docker := Succeeds();
      var seen := InspectRecipeContainerIdentity(resource, Local, !docker);
      ghost var s := Now();
      Follow(s, ByStop(LookHead(seen)));
      if seen.Some? { InspectedKept(s, Now(), resource, resource, Local, seen.value); }
      return seen.Some?, if seen.Some? then seen.value else Absent;
    }

    method InspectWorkerNode(resource: Record, head: Obs, ghost me: ActorId, ghost next: Next)
      returns (ok: bool, worker: Obs)
      requires Stopping(me, next, InspectWorker(head), resource)
      modifies this
      ensures Onwards()
      ensures Stopping(me, next, if ok then RecordIds(head, worker) else MarkFailed, resource)
      ensures Kept() && containers == old(containers) && (ok ==> Inspected(Now(), resource, Remote, worker))
      ensures calm ==> (ok <==> Answerable(old(Now()), resource, Remote))
    {
      hide Inv, Run, Inspected, Answerable;
      var docker := Succeeds();
      var seen := InspectRecipeContainerIdentity(resource, Remote, !docker);
      ghost var s := Now();
      Follow(s, ByStop(LookWorker(seen)));
      if seen.Some? { InspectedKept(s, Now(), resource, resource, Remote, seen.value); }
      return seen.Some?, if seen.Some? then seen.value else Absent;
    }

    /** Makes the container IDs durable before anything is removed. */
    method RecordContainerIds(resource: Record, head: Obs, worker: Obs, ghost me: ActorId, ghost next: Next)
      returns (ok: bool, recorded: Record)
      requires Stopping(me, next, RecordIds(head, worker), resource)
      modifies this
      ensures Onwards()
      ensures if ok then Stopping(me, next, RemoveContainers(head, worker), recorded)
              else Valid() && holder.Free? && me !in actors
      ensures recorded.id == resource.id && recorded.launch == resource.launch
      ensures Kept() && containers == old(containers) && (calm ==> ok)
      ensures ok ==> recorded == WithIds(resource, head, worker).(stamp := old(clock))
      ensures records == if ok then old(records)[resource.id.name := recorded] else old(records)
      ensures !ok ==> resource.id.name in records && records[resource.id.name].status == Status.Stopping
    {
      hide Inv, Run, StopPcOk, NextOk, RecordOk;
      ghost var s := Now();
      TheStop(s);
      recorded := resource;
      if head.Present? { recorded := recorded.(headCid := Some(head.cid)); }
      if worker.Present? { recorded := recorded.(workerCid := Some(worker.cid)); }
      ok := Succeeds();
      if ok {
        PutRecord(recorded);
        recorded := records[resource.id.name];
      }
      Follow(s, ByStop(WriteIds(ok)));
    }

    /** removeExactRecipeContainer: docker stop if it was seen running, then docker rm, which
        refuses what still runs, by ID. Either command may take effect and still report a
        failure. */
    method RemoveExactRecipeContainer(resource: Record, head: Obs, worker: Obs, identifier: ContainerId,
        running: bool, ghost me: ActorId, ghost next: Next)
      returns (ok: bool)
      requires Stopping(me, next, RemoveContainers(head, worker), resource)
      requires SolePresent(head, worker) == Some(identifier)
      modifies this
      ensures Onwards()
      ensures Stopping(me, next, if ok then VerifyHead else MarkFailed, resource)
      ensures SameSource() && (ok ==> identifier in old(containers) && containers == old(containers) - {identifier})
      ensures forall c :: c in old(containers) && c != identifier ==>
                c in containers && containers[c] == old(containers)[c]
      ensures calm ==> (ok <==> identifier in old(containers) && (running || !old(containers)[identifier].running))
    {
      hide Inv, Run;
      ghost var s, effect := Now(), Untouched;
      ok := true;
      if running {
        var stopped: bool := *;
        ok := Succeeds();
        ok := ok && identifier in containers;
        if (stopped || ok) && identifier in containers {
          containers, effect := containers[identifier := containers[identifier].(running := false)], StoppedOnly;
        }
      }
      if ok {
        var removed: bool := *;
        var idle := identifier in containers && !containers[identifier].running;
        ok := Succeeds();
        ok := ok && idle;
        if (removed || ok) && idle { containers, effect := containers - {identifier}, Removed; }
      }
      assert effect.Removed? ==> containers == s.world.containers - {identifier};
      Follow(s, ByRelease(RemoveExact(effect, ok)));
    }

    /** ./stop.sh: removes some or all of the containers that hold the fixed name. */
    method RunStopScript() returns (gone: set<ContainerId>, ok: bool)
      modifies this`containers
      ensures containers == old(containers) - gone
      ensures forall c :: c in gone ==> c in old(containers) && old(containers)[c].named
      ensures calm ==> ok && gone == set c | c in old(containers) && old(containers)[c].named
    {
      var named := set c | c in containers && containers[c].named;
      var left := named;
      gone := {};
      ok := Succeeds();
      while left != {}
        invariant containers == old(containers) - gone
        invariant calm ==> gone == named - left
        invariant forall c :: c in left + gone ==> c in old(containers) && old(containers)[c].named
        decreases left
      {
        var c :| c in left;
        left := left - {c};
        var found := Succeeds();
        if found { containers, gone := containers - {c}, gone + {c}; }
      }
    }

    /** ./stop.sh when both nodes hold a container, otherwise docker stop and rm of
        the one that was inspected. */
    method RemoveRecipeContainers(resource: Record, head: Obs, worker: Obs, ghost me: ActorId, ghost next: Next)
      returns (ok: bool)
      requires Stopping(me, next, RemoveContainers(head, worker), resource)
      modifies this
      ensures Onwards()
      ensures Stopping(me, next, if ok then VerifyHead else MarkFailed, resource)
      ensures forall c :: c in old(containers) && c !in containers ==>
        old(containers)[c].named || (head.Present? && c == head.cid) || (worker.Present? && c == worker.cid)
      ensures head.Absent? && worker.Absent? ==> containers == old(containers)
      ensures SameSource()
      ensures calm && Held(old(Now()), resource, Local, head) && Held(old(Now()), resource, Remote, worker) ==>
                ok && Clean(Now(), resource)
    {
      hide Inv, Run, Held, Clean;
      ghost var s := Now();
      HeldRuns(s, resource, head, worker);
      if head.Present? && worker.Present? {
        var gone;
        gone, ok := RunStopScript();
        Follow(s, ByRelease(ReleaseStep.RunStopScript(gone, ok)));
        if calm && Held(s, resource, Local, head) && Held(s, resource, Remote, worker) {
          NamedAreObserved(s, resource, head, worker);
          RemovedIsClean(s, Now(), resource, head, worker);
        }
        return;
      } else if head.Present? {
        ok := RemoveExactRecipeContainer(resource, head, worker, head.cid, head.running, me, next);
      } else if worker.Present? {
        ok := RemoveExactRecipeContainer(resource, head, worker, worker.cid, worker.running, me, next);
      } else {
        ok := true;
        Follow(s, ByRelease(NothingToRemove));
      }
      if calm && Held(s, resource, Local, head) && Held(s, resource, Remote, worker) {
        assert containers == s.world.containers - Observed(head, worker);
        RemovedIsClean(s, Now(), resource, head, worker);
      }
    }

    /** verifyRecipeContainerAbsent on one node. */
    method VerifyRecipeContainerAbsent(resource: Record, node: Node, dockerFails: bool) returns (ok: bool)
      ensures ok <==> !dockerFails && VerifiedAbsent(Now(), resource, node)
    {
      if dockerFails { return false; }
      var identifiers := set c | c in containers && containers[c].named && containers[c].node == node;
      if identifiers != {} {
        ghost var c :| c in identifiers;
        return false;
      }
      assert forall c :: c in containers ==> c !in identifiers;
      var identifier := RecordedCid(resource, node);
      return identifier.None? || identifier.value !in containers || containers[identifier.value].node != node;
    }

    method VerifyBothAbsent(resource: Record, ghost me: ActorId, ghost next: Next) returns (ok: bool)
      requires Stopping(me, next, VerifyHead, resource)
      modifies this
      ensures Onwards()
      ensures Stopping(me, next, if ok then MarkStopped else MarkFailed, resource)
      ensures Kept()
      ensures ok ==> resource.launch in past.fenced && Clean(Now(), resource)
      ensures calm ==> (ok <==> Clean(old(Now()), resource))
    {
      hide Inv, Run, Do, VerifiedAbsent;
      ghost var s := Now();
      ok := VerifyHeadAbsent(resource, me, next);
      AbsentKept(s, Now(), resource);
      if !ok { return; }
      Interfere(me);
      if calm { AbsentKept(s, Now(), resource); }
      ok := VerifyWorkerAbsent(resource, me, next);
      if ok { SeenGone(Now()); }
    }

    method VerifyHeadAbsent(resource: Record, ghost me: ActorId, ghost next: Next) returns (ok: bool)
      requires Stopping(me, next, VerifyHead, resource)
      modifies this
      ensures Onwards() && Kept() && containers == old(containers)
      ensures Stopping(me, next, if ok then VerifyWorker else MarkFailed, resource)
      ensures ok ==> VerifiedAbsent(old(Now()), resource, Local)
      ensures calm ==> (ok <==> VerifiedAbsent(old(Now()), resource, Local))
    {
      hide Inv, Run, VerifiedAbsent;
      var docker := Succeeds();
      ok := VerifyRecipeContainerAbsent(resource, Local, !docker);
      Follow(Now(), ByRelease(CheckHeadAbsent(ok)));
    }

    method VerifyWorkerAbsent(resource: Record, ghost me: ActorId, ghost next: Next) returns (ok: bool)
      requires Stopping(me, next, VerifyWorker, resource)
      modifies this
      ensures Onwards() && Kept() && containers == old(containers)
      ensures Stopping(me, next, if ok then MarkStopped else MarkFailed, resource) && resource.id.role.Head?
      ensures ok ==> VerifiedAbsent(old(Now()), resource, Remote)
      ensures calm ==> (ok <==> VerifiedAbsent(old(Now()), resource, Remote))
    {
      hide Inv, Run, VerifiedAbsent;
      var docker := Succeeds();
      ok := VerifyRecipeContainerAbsent(resource, Remote, !docker);
      StoppedHead(Now());
      Follow(Now(), ByRelease(CheckWorkerAbsent(ok)));
    }

    /** A refusal: the record reads "failed" if that can be written. */
    method Refuse(resource: Record, ghost me: ActorId, ghost next: Next)
      requires Stopping(me, next, MarkFailed, resource)
      modifies this
      ensures Onwards() && Valid() && holder.Free?
      ensures Kept() && containers == old(containers)
      ensures resource.id.name in records && records[resource.id.name].status in {Status.Stopping, Status.Failed}
      ensures calm ==> records[resource.id.name].status == Status.Failed
      ensures me !in actors
    {
      hide Inv, Run;
      ghost var s := Now();
      TheStop(s);
      var wrote := Succeeds();
      if wrote { PutRecord(resource.(status := Status.Failed)); }
      Follow(s, ByRelease(WriteFailed(wrote)));
    }

    /** Everything before the first durable trace of the containers: the launcher is
        joined and fenced, the source verified, and both nodes inspected. */
    method EstablishOwnership(resource: Record, patience: nat, ghost me: ActorId, ghost next: Next)
      returns (ok: bool, head: Obs, worker: Obs)
      requires Stopping(me, next, Join, resource)
      modifies this
      ensures Onwards() && Kept()
      ensures Stopping(me, next, if ok then RecordIds(head, worker) else MarkFailed, resource)
      ensures calm ==> (ok <==> Stoppable(old(Now()), resource))
      ensures calm && ok ==> Inspected(Now(), resource, Local, head) && Inspected(Now(), resource, Remote, worker)
    {
      hide Inv, Run, Do, Answerable, Inspected, SourceMatches;
      ghost var s := Now();
      head, worker := Absent, Absent;
      ok := JoinInMemoryLaunch(resource, patience, me, next);
      if !ok { return; }
      ok := FenceLauncher(resource, patience, me, next);
      if !ok { return; }
      if calm { StoppableKept(s, Now(), resource, resource); }
      ghost var u := Now();
      var checkoutOk := Succeeds();
      ok := VerifySource(resource, checkoutOk, me, next);
      if !ok { return; }
      if calm {
        AnswerableKept(u, Now(), resource, resource, Local);
        AnswerableKept(u, Now(), resource, resource, Remote);
      }
      ok, head, worker := InspectBoth(resource, me, next);
    }

    /** From the durable container IDs to the last look. */
    method RemoveOwned(resource: Record, head: Obs, worker: Obs, ghost me: ActorId, ghost next: Next)
      returns (step: ReleaseOutcome, recorded: Record)
      requires Stopping(me, next, RecordIds(head, worker), resource)
      modifies this
      ensures Onwards() && Proceeds(me, next, step, recorded)
      ensures recorded.id == resource.id && recorded.launch == resource.launch
      ensures calm
              && Inspected(old(Now()), resource, Local, head) && Inspected(old(Now()), resource, Remote, worker) ==>
                step == Verified
    {
      hide Inv, Run, Do, Clean, Held, Inspected, Undisturbed;
      ghost var s := Now();
      var ok;
      ok, recorded := RecordContainerIds(resource, head, worker, me, next);
      if !ok { return Unwritten, recorded; }
      if Inspected(s, resource, Local, head) && Inspected(s, resource, Remote, worker) {
        RecordedIsHeld(s, Now(), resource, head, worker, recorded);
      }
      ok := RemoveRecipeContainers(recorded, head, worker, me, next);
      if !ok { return Refused, recorded; }
      ok := VerifyBothAbsent(recorded, me, next);
      return if ok then Verified else Refused, recorded;
    }

    /** Where the head part of a stop has got to. */
    ghost predicate Proceeds(me: ActorId, next: Next, step: ReleaseOutcome, recorded: Record)
      reads this
    {
      match step
      case Verified =>
        Stopping(me, next, MarkStopped, recorded) && recorded.launch in past.fenced && Clean(Now(), recorded)
      case Refused => Stopping(me, next, MarkFailed, recorded)
      case Unwritten =>
        && Valid() && holder.Free? && me !in actors && recorded.id.name in records
        && records[recorded.id.name].status == Status.Stopping
    }

    /** The head part of the critical section. */
    method ReleaseHead(resource: Record, patience: nat, ghost me: ActorId, ghost next: Next)
      returns (step: ReleaseOutcome, recorded: Record)
      requires Stopping(me, next, Join, resource)
      modifies this
      ensures Onwards() && Proceeds(me, next, step, recorded)
      ensures recorded.id == resource.id && recorded.launch == resource.launch
      ensures calm ==> step == if Stoppable(old(Now()), resource) then Verified else Refused
      ensures calm && step == Refused ==> containers == old(containers)
    {
      hide Inv, Run, Do, Stoppable, Inspected, Clean;
      var ok, head, worker := EstablishOwnership(resource, patience, me, next);
      if !ok { return Refused, resource; }
      step, recorded := RemoveOwned(resource, head, worker, me, next);
    }

    /** What the caller of a stop goes on to do. */
    ghost predicate Continues(me: ActorId, next: Next)
      reads this
    {
      match next
      case Finish => me !in actors
      case ThenRestart(r) => me in actors && actors[me] == RestartWanted(r)
      case ThenRemove(r) => me in actors && actors[me] == RemoveWanted(r)
    }

    /** The last write: the record is read again and must still be this generation. */
    method MarkReleased(resource: Record, ghost me: ActorId, ghost next: Next) returns (ok: bool)
      requires Stopping(me, next, MarkStopped, resource)
      modifies this
      ensures Onwards() && Valid() && holder.Free? && (calm ==> ok)
      ensures var n := resource.id.name;
        n in records && (if ok then Released(n, records[n]) else records[n].status == Status.Stopping)
      ensures ok ==> records[resource.id.name].(stamp := resource.stamp) == resource.(status := Stopped)
      ensures if ok then Continues(me, next) else me !in actors
    {
      hide Inv, Run, Do, Quiet, RecordOk, StopPcOk, NextOk;
      ghost var s := Now();
      var name := resource.id.name;
      TheStop(s);
      AfterStopped(s, true);
      AfterStopped(s, false);
      ok := name in records && SameGeneration(resource, records[name]);
      if ok { ok := Succeeds(); }
      if ok { PutRecord(records[name].(status := Stopped)); }
      Follow(s, ByRelease(WriteStopped(ok)));
      if ok && resource.id.role.Head? { StopIsComplete(s, Now()); }
    }

    /** What "stopped" promises after a stop: the launch is fenced and nothing of it, nor
        of any launch, is left. */
    ghost predicate Released(n: Name, r: Record)
      reads this
    {
      r.status == Stopped && (r.id.role.Head? ==> r.launch in past.fenced && Quiet(Now(), RecordedCids(r)))
    }

    /** There is a record of the generation to stop, and it is not stopped. */
    predicate StopsNow(files: map<Name, Record>, name: Name, bound: Option<Record>) {
      && name in files && (bound.Some? ==> SameGeneration(bound.value, files[name]))
      && files[name].status != Stopped
    }

    /** Reads the record, decides whether there is anything to stop, and writes "stopping". */
    method BeginStop(name: Name, bound: Option<Record>, ghost me: ActorId, ghost next: Next)
      returns (outcome: StopOutcome, resource: Record)
      requires Valid() && holder.Free? && me in actors && actors[me] == StopWanted(name, bound, next)
      modifies this
      ensures Onwards() && Valid() && Kept() && containers == old(containers)
      ensures outcome == NoRecord <==> name !in old(records)
      ensures outcome == OtherGeneration <==>
        name in old(records) && bound.Some? && !SameGeneration(bound.value, old(records)[name])
      ensures outcome == AlreadyStopped <==>
        && name in old(records) && (bound.Some? ==> SameGeneration(bound.value, old(records)[name]))
        && old(records)[name].status == Stopped
      ensures outcome != Done ==> holder.Free? && records == old(records)
      ensures outcome in {OtherGeneration, AlreadyStopped} ==> Continues(me, next)
      ensures outcome in {NoRecord, StopOutcome.Failed} ==> me !in actors
      ensures outcome == Done ==>
                && StopsNow(old(records), name, bound) && resource.id.name == name
                && resource == old(records)[name].(status := Status.Stopping, stamp := resource.stamp)
                && Stopping(me, next, if resource.id.role.Head? then Join else MarkStopped, resource)
      ensures calm ==> outcome != StopOutcome.Failed
    {
      hide Inv, Run, Do, RecordOk;
      ghost var s := Now();
      if name !in records {
        resource := *;
        NothingToStop(s, me);
        Follow(s, ByWorld(StopBegin(me, false)));
        return NoRecord, resource;
      }
      resource := records[name];
      if bound.Some? && !SameGeneration(bound.value, resource) {
        NothingToStop(s, me);
        Follow(s, ByWorld(StopBegin(me, false)));
        return OtherGeneration, resource;
      }
      if resource.status == Stopped {
        NothingToStop(s, me);
        Follow(s, ByWorld(StopBegin(me, false)));
        return AlreadyStopped, resource;
      }
      outcome, resource := WriteStopping(resource, me, next);
    }

    /** The durable "stopping" that opens the critical section. */
    method WriteStopping(resource: Record, ghost me: ActorId, ghost next: Next)
      returns (outcome: StopOutcome, written: Record)
      requires Valid() && holder.Free? && me in actors && actors[me].StopWanted? && actors[me].next == next
      requires actors[me].name in records && records[actors[me].name] == resource && resource.status != Stopped
      requires actors[me].bound.Some? ==> SameGeneration(actors[me].bound.value, resource)
      modifies this
      ensures Onwards() && Valid() && Kept() && containers == old(containers)
      ensures outcome in {Done, StopOutcome.Failed} && (calm ==> outcome == Done)
      ensures outcome == StopOutcome.Failed ==> holder.Free? && records == old(records) && me !in actors
      ensures outcome == Done ==> written == resource.(status := Status.Stopping, stamp := old(clock))
      ensures outcome == Done ==> Stopping(me, next, if written.id.role.Head? then Join else MarkStopped, written)
      ensures resource.id.name == old(actors)[me].name
    {
      hide Inv, Run, RecordOk;
      ghost var s := Now();
      TheRecordName(s, actors[me].name);
      var wrote := Succeeds();
      written := resource;
      if wrote {
        PutRecord(resource.(status := Status.Stopping));
        written := records[resource.id.name];
      }
      Follow(s, ByWorld(StopBegin(me, wrote)));
      return if wrote then Done else StopOutcome.Failed, written;
    }

    /** stop and stopGeneration: the whole critical section. In a calm stretch it stops
        whatever there is to stop, except a head whose files do not match or whose nodes
        hold something else, and then it removes nothing. */
    method StopResource(name: Name, bound: Option<Record>, patience: nat, ghost me: ActorId, ghost next: Next)
      returns (outcome: StopOutcome)
      requires Valid() && holder.Free? && me in actors && actors[me] == StopWanted(name, bound, next)
      modifies this
      ensures Onwards() && Valid() && holder.Free?
      ensures outcome == NoRecord <==> name !in old(records)
      ensures outcome == OtherGeneration <==>
        name in old(records) && bound.Some? && !SameGeneration(bound.value, old(records)[name])
      ensures outcome == AlreadyStopped <==>
        && name in old(records) && (bound.Some? ==> SameGeneration(bound.value, old(records)[name]))
        && old(records)[name].status == Stopped
      ensures outcome in {NoRecord, OtherGeneration, AlreadyStopped} ==> records == old(records)
      ensures outcome == Done ==> name in records && Released(name, records[name])
      ensures outcome == StopOutcome.Failed ==> name in records && records[name].status != Stopped
      ensures if outcome in {NoRecord, StopOutcome.Failed} then me !in actors else Continues(me, next)
      ensures calm && StopsNow(old(records), name, bound) ==>
                (outcome == Done <==>
                 old(records)[name].id.role.Worker? || Stoppable(old(Now()), old(records)[name]))
      ensures calm && outcome == StopOutcome.Failed ==>
                records[name].status == Status.Failed && containers == old(containers)
    {
      hide Inv, Run, Quiet, Do, Stoppable, Clean;
      ghost var s := Now();
      var resource;
      outcome, resource := BeginStop(name, bound, me, next);
      if outcome != Done { return; }
      StoppableKept(s, Now(), s.disk.records[name], resource);
      var recorded, step := resource, Verified;
      if resource.id.role.Head? {
        step, recorded := ReleaseHead(resource, patience, me, next);
      }
      outcome := FinishStop(step, recorded, me, next);
    }

    /** The end of a stop: "stopped", or "failed" where it can be written. */
    method FinishStop(step: ReleaseOutcome, recorded: Record, ghost me: ActorId, ghost next: Next)
      returns (outcome: StopOutcome)
      requires Proceeds(me, next, step, recorded)
               || (step == Verified && recorded.id.role.Worker? && Stopping(me, next, MarkStopped, recorded))
      modifies this
      ensures Onwards() && Valid() && holder.Free? && outcome in {Done, StopOutcome.Failed}
      ensures var n := recorded.id.name;
        n in records && (if outcome == Done then Released(n, records[n]) else records[n].status != Stopped)
      ensures if outcome == Done then Continues(me, next) else me !in actors
      ensures calm ==> (outcome == Done <==> step == Verified)
      ensures calm && step == Refused ==> records[recorded.id.name].status == Status.Failed
      ensures step != Verified ==> containers == old(containers)
    {
      hide Inv, Run, Quiet, Do, Clean;
      match step {
        case Unwritten => outcome := StopOutcome.Failed;
        case Refused =>
          Refuse(recorded, me, next);
          outcome := StopOutcome.Failed;
        case Verified =>
          var ok := MarkReleased(recorded, me, next);
          outcome := if ok then Done else StopOutcome.Failed;
      }
    }

    // -------------------------------------------------------------- observe and reconcile

    /** Any number of steps of anybody else, with or without the lock; in a calm stretch
        those that leave processes and containers alone. */
    method StepOfOthers(ghost me: ActorId)
      requires Valid()
      modifies this
      ensures Onwards()
      ensures AllByOthers(trace[|old(trace)|..], me) && Run(old(Now()), trace[|old(trace)|..], Now(), true)
      ensures calm ==> Now().world == old(Now()).world
    {
      assert trace[|trace|..] == [];
    }

    /** This goroutine holds no lock for a while, but nobody else acts for it. */
    method Yield(ghost me: ActorId)
      requires Valid() && me in actors
      modifies this
      ensures Onwards() && Valid() && (calm ==> containers == old(containers))
      ensures me in actors && actors[me] == old(actors)[me]
    {
      hide Inv, Do;
      ghost var s, before := Now(), trace;
      StepOfOthers(me);
      OthersRun(s, trace[|before|..], Now(), me);
      RunTwice(origin, before, s, trace[|before|..], Now(), true);
      assert before + trace[|before|..] == trace;
    }

    /** A new goroutine with one thing to do. */
    ghost predicate Spawned(me: ActorId, a: Actor)
      reads this
    {
      Valid() && holder.Free? && me in actors && actors[me] == a && nextActor == me + 1
    }

    /** observe up to its first inspection: only a head that starts or runs is looked at. */
    method BeginObserve(name: Name) returns (resource: Option<Record>)
      requires Valid() && holder.Free?
      modifies this
      ensures Onwards() && Valid() && Now().disk == old(Now()).disk && Now().world == old(Now()).world
      ensures resource.Some? <==>
              name in records && records[name].id.role.Head? && records[name].status in {Status.Starting, Running}
      ensures resource.Some? ==>
                resource.value == records[name] && Spawned(old(nextActor), Inspecting(Observe, resource.value, None))
    {
      hide Inv, Run;
      if name !in records { return None; }
      var found := records[name];
      if found.id.role != Head || (found.status != Status.Starting && found.status != Running) { return None; }
      ghost var s := Now();
      nextActor := nextActor + 1;
      Follow(s, ByObserver(ObserveBegin(name)));
      return Some(found);
    }

    /** reconcile on one record: workers and stopped heads are left alone, and a head past
        its readiness deadline is stopped without a look at its containers. */
    method BeginReconcile(name: Name, late: bool) returns (sighting: Sighting)
      requires Valid() && holder.Free?
      modifies this
      ensures Onwards() && Valid() && Now().disk == old(Now()).disk && Now().world == old(Now()).world
      ensures sighting.Ignored? <==> !(name in records && HeadLive(records[name]))
      ensures sighting.Overdue? <==> name in records && HeadLive(records[name]) && records[name].deadline && late
      ensures sighting.Overdue? ==>
                && sighting.late == records[name]
                && Spawned(old(nextActor), StopWanted(name, Some(sighting.late), Finish))
      ensures sighting.ToCheck? ==>
                sighting.live == records[name] && Spawned(old(nextActor), Reconciling(sighting.live))
    {
      hide Inv, Run;
      if name !in records { return Ignored; }
      var found := records[name];
      if found.id.role != Head || found.status == Stopped { return Ignored; }
      ghost var s := Now();
      nextActor := nextActor + 1;
      var expired := found.deadline && late;
      Follow(s, ByObserver(ReconcileBegin(name, expired)));
      return if expired then Overdue(found) else ToCheck(found);
    }

    /** reconcile under the lock: the launch is active while its launcher is in the
        process table and has not been reaped. */
    method CheckLaunchActive(resource: Record, ghost me: ActorId) returns (active: bool)
      requires Valid() && holder.Free? && me in actors && actors[me] == Reconciling(resource)
      modifies this
      ensures Onwards() && Valid() && Now().disk == old(Now()).disk && Now().world == old(Now()).world
      ensures active <==>
              && resource.id.name in processes && processes[resource.id.name].launch == resource.launch
              && !processes[resource.id.name].done
      ensures me in actors && actors[me] == Inspecting(if active then ActivePass else OrphanPass, resource, None)
    {
      hide Inv, Run;
      var name := resource.id.name;
      active := name in processes && processes[name].launch == resource.launch;
      if active && processes[name].done { active := false; }
      Follow(Now(), ByObserver(ReconcileCheck(me)));
    }

    /** The branches of observe, of the active pass and of the orphan pass. */
    method Decide(pass: Pass, resource: Record, head: Obs, worker: Obs) returns (decision: Decision)
      ensures Decided(decision, resource, Conclude(pass, resource, head, worker))
      ensures decision != Nothing && Justified(decision, pass, resource, head, worker)
    {
      if pass == OrphanPass {
        if BothRunning(head, worker) { return Save(resource.(status := Running)); }
        if head.Present? || worker.Present? { return StopIt; }
        return FenceIt;
      }
      var updated := resource;
      if BothRunning(head, worker) {
        updated := updated.(status := Running);
      } else if pass == Observe && resource.status == Running {
        updated := updated.(status := Status.Failed);
      }
      if head.Present? { updated := updated.(headCid := Some(head.cid)); }
      if worker.Present? { updated := updated.(workerCid := Some(worker.cid)); }
      return Save(updated);
    }

    /** The two inspections of observe and of both reconcile passes, without the lock,
        and what the goroutine wants to do about them. */
    method InspectAndDecide(pass: Pass, resource: Record, ghost me: ActorId)
      returns (decision: Decision, head: Option<Obs>, worker: Option<Obs>)
      requires Valid() && me in actors && actors[me] == Inspecting(pass, resource, None)
      modifies this
      ensures Onwards() && Valid()
      ensures if decision == Nothing then me !in actors else me in actors && Decided(decision, resource, actors[me])
      ensures decision == Nothing <==> head.None? || worker.None?
      ensures decision != Nothing ==> Justified(decision, pass, resource, head.value, worker.value)
      ensures calm ==>
                (decision == Nothing <==>
                 !(Answerable(old(Now()), resource, Local) && Answerable(old(Now()), resource, Remote)))
    {
      hide Inv, Run, Inspected, Justified, Answerable;
      var docker := Succeeds();
      head := InspectRecipeContainerIdentity(resource, Local, !docker);
      ghost var s := Now();
      Follow(s, ByObserver(InspectFirst(me, head)));
      if head.None? { return Nothing, head, None; }
      Yield(me);
      if calm { AnswerableKept(s, Now(), resource, resource, Remote); }
      decision, worker := InspectWorkerAndDecide(pass, resource, head.value, me);
    }

    /** The second inspection, and the decision. */
    method InspectWorkerAndDecide(pass: Pass, resource: Record, head: Obs, ghost me: ActorId)
      returns (decision: Decision, worker: Option<Obs>)
      requires Valid() && me in actors && actors[me] == Inspecting(pass, resource, Some(head))
      modifies this
      ensures Onwards() && Valid()
      ensures if decision == Nothing then me !in actors else me in actors && Decided(decision, resource, actors[me])
      ensures decision == Nothing <==> worker.None?
      ensures worker.Some? ==> Justified(decision, pass, resource, head, worker.value)
      ensures calm ==> (worker.Some? <==> Answerable(old(Now()), resource, Remote))
    {
      hide Inv, Run, Inspected, Justified, Answerable;
      var docker := Succeeds();
      worker := InspectRecipeContainerIdentity(resource, Remote, !docker);
      decision := Nothing;
      if worker.Some? { decision := Decide(pass, resource, head, worker.value); }
      Follow(Now(), ByObserver(InspectSecond(me, worker)));
    }

    /** testResource reads the record of a head before it probes the service. */
    method BeginProbe(name: Name) returns (resource: Option<Record>)
      requires Valid() && holder.Free?
      modifies this
      ensures Onwards() && Valid() && Now().disk == old(Now()).disk && Now().world == old(Now()).world
      ensures resource.Some? <==> name in records && records[name].id.role.Head?
      ensures resource.Some? ==> resource.value == records[name] && Spawned(old(nextActor), ReadyWanted(resource.value))
    {
      hide Inv, Run;
      if name !in records || records[name].id.role != Head { return None; }
      resource := Some(records[name]);
      ghost var s := Now();
      nextActor := nextActor + 1;
      Follow(s, ByObserver(ProbeBegin(name)));
    }

    // -------------------------------------------------------------- the other writers

    /** compareAndWriteResource: writes only over exactly what was read. */
    method CompareAndWriteResource(expected: Record, updated: Record, ghost me: ActorId)
      returns (current: bool, wrote: bool)
      requires Valid() && holder.Free? && me in actors && actors[me] == CasWanted(expected, updated)
      modifies this
      ensures Onwards() && Valid() && holder.Free? && me !in actors
      ensures current <==> expected.id.name in old(records) && old(records)[expected.id.name] == expected
      ensures (wrote ==> current) && (calm ==> (wrote <==> current))
      ensures records == if wrote then old(records)[expected.id.name := updated.(stamp := old(clock))] else old(records)
    {
      hide Inv, Run, RecordOk;
      ghost var s := Now();
      CasReads(s, me);
      var name := expected.id.name;
      current := name in records && SameGeneration(expected, records[name]) && expected.stamp == records[name].stamp;
      wrote := Succeeds();
      wrote := wrote && current;
      if wrote { PutRecord(updated); }
      Follow(s, ByObserver(CompareAndWrite(me, wrote)));
    }

    /** fenceAndMarkStopped: releases a generation whose containers never appeared. In a
        calm stretch it does so whenever the record is the one that was read and its
        launcher is not active, and kills exactly the processes of that launch. */
    method FenceAndMarkStopped(expected: Record, deadline: nat, ghost me: ActorId) returns (released: bool)
      requires Valid() && holder.Free? && me in actors && actors[me] == FenceWanted(expected)
      modifies this
      ensures Onwards() && Valid() && holder.Free? && me !in actors
      ensures released ==> MayFence(old(Now()), expected)
      ensures released ==> expected.launch in past.fenced && forall p :: p in procs ==> procs[p] != expected.launch
      ensures records ==
        if released then old(records)[expected.id.name := expected.(status := Stopped, stamp := old(clock))]
        else old(records)
      ensures calm ==> (released <==> MayFence(old(Now()), expected))
      ensures calm ==> procs == if released then WithoutMarker(old(procs), expected.launch) else old(procs)
    {
      hide Inv, Run, RecordOk;
      var name := expected.id.name;
      FenceReads(Now(), me);
      if name in records { TheRecordName(Now(), name); }
      if !(name in records && SameGeneration(expected, records[name]) && expected.stamp == records[name].stamp)
         || (name in processes && processes[name].launch == records[name].launch && !processes[name].done) {
        Follow(Now(), ByObserver(FenceAndMark(me, false, false)));
        return false;
      }
      var resource := records[name];
      var fenced := FenceProcesses(resource.launch, deadline, me);
      released := RetireFenced(expected, fenced, me);
    }

    /** The record is whole as it was read, and no launcher of it is known to run. */
    predicate MayFence(s: State, e: Record) {
      && e.id.name in s.disk.records && s.disk.records[e.id.name] == e
      && !(e.id.name in s.agent.table && s.agent.table[e.id.name].launch == e.launch && !s.agent.table[e.id.name].done)
    }

    method RetireFenced(expected: Record, fenced: bool, ghost me: ActorId) returns (released: bool)
      requires Valid() && holder.Free? && me in actors && actors[me] == FenceWanted(expected)
      requires StillCurrent(Now(), expected) && !LauncherActive(Now(), expected)
      requires records[expected.id.name] == expected
      requires fenced ==> forall p :: p in procs ==> procs[p] != expected.launch
      modifies this
      ensures Onwards() && Valid() && holder.Free? && me !in actors && procs == old(procs)
      ensures released ==> fenced && expected.launch in past.fenced
      ensures calm && fenced ==> released
      ensures records ==
        if released then old(records)[expected.id.name := expected.(status := Stopped, stamp := old(clock))]
        else old(records)
    {
      hide Inv, Run, RecordOk;
      ghost var s := Now();
      assert fenced ==> WithoutMarker(procs, expected.launch) == procs;
      released := Succeeds();
      released := released && fenced;
      if released { PutRecord(records[expected.id.name].(status := Stopped)); }
      Follow(s, ByObserver(FenceAndMark(me, fenced, released)));
    }

    /** markReady: retires the readiness deadline of the launch that was probed. */
    method MarkLaunchReady(probed: Record, ghost me: ActorId) returns (retired: bool)
      requires Valid() && holder.Free? && me in actors && actors[me] == ReadyWanted(probed)
      modifies this
      ensures Onwards() && Valid() && holder.Free? && me !in actors
      ensures retired ==> Awaited(old(records), probed)
      ensures calm ==> (retired <==> Awaited(old(records), probed))
      ensures records ==
        if retired
        then old(records)[probed.id.name := old(records)[probed.id.name].(deadline := false, stamp := old(clock))]
        else old(records)
    {
      hide Inv, Run, RecordOk;
      ghost var s := Now();
      var name := probed.id.name;
      if name in records { TheRecordName(s, name); }
      retired := Succeeds();
      retired := retired && name in records && SameGeneration(probed, records[name]) && records[name].deadline;
      if retired { PutRecord(records[name].(deadline := false)); }
      Follow(s, ByObserver(MarkReady(me, retired)));
    }

    /** The launch that was probed still has a readiness deadline. */
    predicate Awaited(files: map<Name, Record>, probed: Record) {
      && probed.id.name in files && SameGeneration(probed, files[probed.id.name])
      && files[probed.id.name].deadline
    }

    /** waitForProcess under the lock: only the waiter that is still in the process table
        touches the record, and never one that stop is working on. */
    method WaiterCleanup(name: Name, launch: LaunchId, clean: bool, me: ActorId) returns (seen: Option<Record>)
      requires Valid() && holder.Free? && me in actors && actors[me] == Waited(name, launch, clean)
      modifies this
      ensures Onwards() && Valid() && holder.Free?
      ensures name !in old(processes) || old(processes)[name].waiter != me ==>
                seen.None? && records == old(records) && processes == old(processes)
      ensures name in old(processes) && old(processes)[name].waiter == me ==>
                processes == old(processes) - {name} && (seen.Some? <==> Unsettled(old(records), name, launch))
      ensures if seen.Some? then me in actors && actors[me] == StopWanted(name, seen, Finish) else me !in actors
      ensures seen.Some? ==> seen.value == old(records)[name].(status := if clean then Exited else Status.Failed)
      ensures records == old(records)
              || (seen.Some? && records == old(records)[name := seen.value.(stamp := old(clock))])
      ensures calm && seen.Some? ==> records == old(records)[name := seen.value.(stamp := old(clock))]
    {
      hide Inv, Run, Do;
      ghost var s := Now();
      if name !in processes || processes[name].waiter != me {
        WaiterIsLate(s, me);
        Follow(s, ByWorld(WaiterLock(me, false)));
        return None;
      }
      if !Unsettled(records, name, launch) {
        WaiterHasNothing(s, me);
        processes := processes - {name};
        Follow(s, ByWorld(WaiterLock(me, false)));
        return None;
      }
      var resource := WriteExited(name, launch, clean, me);
      return Some(resource);
    }

    /** The record is this launch's, and no stop is working on it or has worked on it. */
    predicate Unsettled(files: map<Name, Record>, name: Name, launch: LaunchId) {
      name in files && files[name].launch == launch && files[name].status !in {Status.Stopping, Stopped}
    }

    /** The launcher of an unsettled record has exited. */
    method WriteExited(name: Name, launch: LaunchId, clean: bool, me: ActorId) returns (resource: Record)
      requires Valid() && holder.Free? && me in actors && actors[me] == Waited(name, launch, clean)
      requires name in processes && processes[name].waiter == me && Unsettled(records, name, launch)
      modifies this
      ensures Onwards() && Valid() && holder.Free?
      ensures processes == old(processes) - {name}
      ensures resource == old(records)[name].(status := if clean then Exited else Status.Failed)
      ensures me in actors && actors[me] == StopWanted(name, Some(resource), Finish)
      ensures records == old(records) || records == old(records)[name := resource.(stamp := old(clock))]
      ensures calm ==> records == old(records)[name := resource.(stamp := old(clock))]
    {
      hide Inv, Run, Do, RecordOk;
      ghost var s := Now();
      TheRecordName(s, name);
      WaiterSettles(s, me, true);
      WaiterSettles(s, me, false);
      processes := processes - {name};
      resource := records[name].(status := if clean then Exited else Status.Failed);
      var wrote := Succeeds();
      if wrote { PutRecord(resource); }
      Follow(s, ByWorld(WaiterLock(me, wrote)));
    }

    /** remove under the lock: only a record that still reads "stopped" for the
        generation that was read goes away, and then its transport. */
    method RemoveReleased(resource: Record, ghost me: ActorId) returns (removed: bool)
      requires Valid() && holder.Free? && me in actors && actors[me] == RemoveWanted(resource)
      modifies this
      ensures Onwards() && Valid() && holder.Free?
      ensures records == if removed then old(records) - {resource.id.name} else old(records)
      ensures removed ==> Removable(old(records), resource)
      ensures calm ==> (removed <==> Removable(old(records), resource))
      ensures calm && removed && resource.id.role.Head? ==> resource.launch !in transports
      ensures removed && resource.id.role.Head? ==> resource.launch in old(past).fenced
      ensures transports - {resource.launch} == old(transports) - {resource.launch}
      ensures !removed ==> transports == old(transports)
    {
      hide Inv, Run;
      ghost var s := Now();
      var name := resource.id.name;
      removed := Succeeds();
      removed := removed && name in records && SameGeneration(resource, records[name])
                 && records[name].status == Stopped;
      if removed {
        TheRecord(s, name);
        records := records - {name};
      }
      Follow(s, ByCall(RemoveLock(me, removed)));
      if removed && resource.id.role.Head? { RemoveSshTransport(name, resource.launch, me); }
    }

    predicate Removable(files: map<Name, Record>, r: Record) {
      r.id.name in files && SameGeneration(r, files[r.id.name]) && files[r.id.name].status == Stopped
    }

    /** RemoveAll of the transport directory, whose failure is only logged. */
    method RemoveSshTransport(name: Name, launch: LaunchId, ghost me: ActorId)
      requires Valid() && holder == RemoveAt(me, name, launch)
      modifies this
      ensures Onwards() && Valid() && holder.Free? && records == old(records)
      ensures transports - {launch} == old(transports) - {launch}
      ensures calm ==> launch !in transports
    {
      hide Inv, Run;
      ghost var s := Now();
      var whole := Succeeds();
      ghost var left := None;
      if whole { transports := transports - {launch}; }
      else if launch in transports { left := Some(transports[launch]); }
      assert transports == if left.None? then s.disk.transports - {launch} else s.disk.transports[launch := left.value];
      Follow(s, ByCall(RemoveTransport(left)));
    }

    // -------------------------------------------------------------- create and restart

    ghost predicate Starting(me: ActorId, pc: LaunchPc, kind: LaunchKind, resource: Record)
      reads this
    {
      Valid() && holder == LaunchAt(pc, kind, me, resource)
    }

    /** The goroutine of a create or restart that gave up before its launcher started. */
    ghost predicate GaveUp(resource: Record)
      reads this
    {
      Valid() && holder.Free? && resource.launch !in past.started
    }

    /** `.env`, then the ssh config, then the ssh wrapper: afterwards the source check of
        a stop would pass. */
    method WriteLaunchFiles(resource: Record, kind: LaunchKind, ghost me: ActorId) returns (ok: bool)
      requires Starting(me, NeedEnv, kind, resource)
      modifies this
      ensures Onwards() && (calm ==> ok) && records == old(records)
      ensures ok ==> SourceMatches(Now(), resource)
      ensures if ok then Starting(me, if kind.Create? then NeedRecord else NeedLog, kind, resource)
              else GaveUp(resource)
    {
      hide Inv, Run;
      ok := Succeeds();
      ghost var s := Now();
      TheLaunch(s);
      if ok { env := Some(EnvFile(resource.topology, resource.launch)); }
      Follow(s, ByLaunch(WriteEnv(ok)));
      if !ok { return; }
      Interfere(me);
      ok := WriteTransport(resource, kind, me);
    }

    method WriteTransport(resource: Record, kind: LaunchKind, ghost me: ActorId) returns (ok: bool)
      requires Starting(me, NeedConfig, kind, resource)
      modifies this
      ensures Onwards() && (calm ==> ok) && records == old(records)
      ensures env == old(env) && sshExecutable == old(sshExecutable)
      ensures ok ==>
                resource.launch in transports && transports[resource.launch] == Transport(true, Some(sshExecutable))
      ensures if ok then Starting(me, if kind.Create? then NeedRecord else NeedLog, kind, resource)
              else GaveUp(resource)
    {
      hide Inv, Run;
      ok := Succeeds();
      ghost var s := Now();
      TheLaunch(s);
      if ok { transports := transports[resource.launch := Transport(true, None)]; }
      Follow(s, ByLaunch(WriteConfig(ok)));
      if !ok { return; }
      Interfere(me);
      ok := WriteSshWrapper(resource, kind, me);
    }

    method WriteSshWrapper(resource: Record, kind: LaunchKind, ghost me: ActorId) returns (ok: bool)
      requires Starting(me, NeedWrapper, kind, resource)
      modifies this
      ensures Onwards() && (calm ==> ok) && records == old(records)
      ensures env == old(env) && sshExecutable == old(sshExecutable)
      ensures ok ==> transports == old(transports)[resource.launch := Transport(true, Some(sshExecutable))]
      ensures if ok then Starting(me, if kind.Create? then NeedRecord else NeedLog, kind, resource)
              else GaveUp(resource)
    {
      hide Inv, Run;
      ok := Succeeds();
      ghost var s := Now();
      TheLaunch(s);
      if ok { transports := transports[resource.launch := Transport(true, Some(sshExecutable))]; }
      Follow(s, ByLaunch(WriteWrapper(ok)));
    }

    /** The record that makes the launch durable. */
    method WriteStartingRecord(resource: Record, kind: LaunchKind, ghost me: ActorId)
      returns (ok: bool, written: Record)
      requires Starting(me, NeedRecord, kind, resource)
      modifies this
      ensures Onwards()
      ensures if ok then Starting(me, if kind.Create? then NeedLog else NeedStart, kind, written)
              else GaveUp(resource)
      ensures SameSource() && (calm ==> ok)
      ensures !ok ==> records == old(records)
      ensures written == if ok then resource.(stamp := old(clock)) else resource
    {
      hide Inv, Run;
      ghost var s := Now();
      TheLaunch(s);
      ok := Succeeds();
      written := resource;
      if ok {
        PutRecord(resource);
        written := records[resource.id.name];
      }
      Follow(s, ByLaunch(WriteStarting(ok)));
    }

    /** What the source check reads. */
    twostate predicate SameSource()
      reads this
    {
      env == old(env) && transports == old(transports) && sshExecutable == old(sshExecutable)
    }

    /** Opens the launch log; create takes its record back if that fails. */
    method OpenLaunchLog(resource: Record, kind: LaunchKind, opens: bool, removes: bool, ghost me: ActorId)
      requires Starting(me, NeedLog, kind, resource)
      modifies this
      ensures Onwards() && SameSource()
      ensures if opens then Starting(me, if kind.Create? then NeedStart else NeedRecord, kind, resource)
              else GaveUp(resource)
      ensures records ==
        if !opens && kind.Create? && removes then old(records) - {resource.id.name} else old(records)
    {
      hide Inv, Run;
      ghost var s := Now();
      TheLaunch(s);
      if !opens && kind.Create? && removes { records := records - {resource.id.name}; }
      Follow(s, ByLaunch(OpenLog(opens, removes)));
    }

    /** ./start.sh with its table entry and its waiter. */
    method RegisterLauncher(resource: Record, kind: LaunchKind, ghost me: ActorId)
      requires Starting(me, NeedStart, kind, resource)
      modifies this
      ensures Onwards() && Valid() && holder.Free? && records == old(records) && SameSource()
      ensures resource.launch in past.started
      ensures processes ==
        old(processes)[resource.id.name := Entry(resource.launch, old(nextPid), false, old(nextActor))]
      ensures procs == old(procs)[old(nextPid) := resource.launch]
      ensures old(nextActor) in actors
      ensures actors[old(nextActor)] == Waiting(resource.id.name, resource.launch, old(nextPid))
    {
      hide Inv, Run, Do;
      ghost var s := Now();
      AfterStart(s);
      procs := procs[nextPid := resource.launch];
      processes := processes[resource.id.name := Entry(resource.launch, nextPid, false, nextActor)];
      nextPid, nextActor := nextPid + 1, nextActor + 1;
      Follow(s, ByLaunch(StartLauncher(true, false)));
    }

    /** ./start.sh could not be started: the record reads "failed" if that can be written. */
    method RecordFailedStart(resource: Record, kind: LaunchKind, writes: bool, ghost me: ActorId)
      requires Starting(me, NeedStart, kind, resource)
      modifies this
      ensures Onwards() && Valid() && holder.Free?
      ensures processes == old(processes) && procs == old(procs) && resource.launch !in past.started
      ensures records ==
        if writes then old(records)[resource.id.name := resource.(status := Status.Failed, stamp := old(clock))]
        else old(records)
    {
      hide Inv, Run;
      ghost var s := Now();
      TheLaunch(s);
      if writes { PutRecord(resource.(status := Status.Failed)); }
      Follow(s, ByLaunch(StartLauncher(false, writes)));
    }

    /** The record, files and launcher that a successful create or restart leaves; the
        source check of a stop would pass. */
    ghost predicate Launched(resource: Record)
      reads this
    {
      var name := resource.id.name;
      && records.Keys == {name} && records[name].(stamp := resource.stamp) == resource
      && SourceMatches(Now(), resource)
      && resource.launch in past.started && name in processes && processes[name].launch == resource.launch
    }

    /** runner.Start and what follows it, for create and restart alike. */
    method StartRecipe(resource: Record, kind: LaunchKind, ghost me: ActorId) returns (ok: bool)
      requires Starting(me, NeedStart, kind, resource) && SourceMatches(Now(), resource)
      modifies this
      ensures Onwards() && Valid() && holder.Free? && (calm ==> ok)
      ensures if ok then Launched(resource) else resource.launch !in past.started
    {
      hide Inv, Run, Do, FilesPresent, RecordOk;
      TheLaunch(Now());
      ok := Succeeds();
      if !ok {
        var writes: bool := *;
        RecordFailedStart(resource, kind, writes, me);
        return;
      }
      RegisterLauncher(resource, kind, me);
      LaunchLeaves(Now(), resource.id.name);
    }

    /** ensurePinnedRecipe and verifyHeadLaunchBoundary: the recipe, docker, the image or
        the fabric may fail, and neither node may hold the fixed name. */
    method VerifyHeadLaunchBoundary(resource: Record) returns (ok: bool)
      requires resource.headCid.None? && resource.workerCid.None?
      ensures ok ==> NoNamed(Now(), Local) && NoNamed(Now(), Remote)
      ensures calm ==> (ok <==> NoNamed(Now(), Local) && NoNamed(Now(), Remote))
    {
      ok := Succeeds();
      if !ok { return; }   // the pinned recipe, or docker itself
      var docker := Succeeds();
      ok := VerifyRecipeContainerAbsent(resource, Local, !docker);
      if !ok { return; }
      docker := Succeeds();
      ok := VerifyRecipeContainerAbsent(resource, Remote, !docker);
      if !ok { return; }
      ok := Succeeds();    // the images of both nodes, or the fabric between them
    }

    /** create for a worker: a reservation and nothing else. */
    method CreateWorker(record: Record, writes: bool) returns (outcome: CreateOutcome)
      requires Valid() && holder.Free? && record.id.role.Worker? && record.status == Running && record.launch == 0
      requires record.headCid.None? && record.workerCid.None? && !record.deadline
      modifies this
      ensures Onwards() && Valid() && holder.Free?
      ensures outcome == Reserved <==> old(records) != map[]
      ensures outcome == Started <==> old(records) == map[] && writes
      ensures records ==
              if outcome == Started then map[record.id.name := record.(stamp := old(clock))] else old(records)
    {
      hide Inv, Run;
      if record.id.name in records { return Reserved; }
      var ok := EnsureSingletonReservation(record.id.name);
      if !ok { return Reserved; }
      assert records == map[];
      ghost var s := Now();
      if writes { PutRecord(record); }
      Follow(s, ByLaunch(LaunchStep.CreateWorker(record, writes)));
      return if writes then Started else NotStarted;
    }

    /** create for a head once the request is valid: from the reservation to the running
        launcher. In a calm stretch it fails only for a reservation or a fixed name in use. */
    method CreateHead(identity: Identity, topology: Topology, launchId: LaunchId, ghost me: ActorId)
      returns (outcome: CreateOutcome)
      requires Valid() && holder.Free? && identity.role.Head?
      requires launchId == past.nextLaunch && me == nextActor
      modifies this
      ensures Onwards() && Valid() && holder.Free?
      ensures outcome == Reserved <==> old(records) != map[]
      ensures outcome in {Reserved, Unavailable} ==>
                records == old(records) && env == old(env) && transports == old(transports)
      ensures outcome == Started ==>
                Launched(Record(identity, topology, Status.Starting, launchId, None, None, true, 0))
      ensures outcome == NotStarted ==> forall p :: p in procs ==> procs[p] != launchId
      ensures calm && outcome != Reserved ==>
                outcome == if NoNamed(old(Now()), Local) && NoNamed(old(Now()), Remote) then Started else Unavailable
    {
      hide Inv, Run, FilesPresent, VerifiedAbsent, Launched;
      var name := identity.name;
      if name in records { return Reserved; }
      var ok := EnsureSingletonReservation(name);
      if !ok { return Reserved; }
      assert records == map[];
      var resource := Record(identity, topology, Status.Starting, launchId, None, None, true, 0);
      ok := VerifyHeadLaunchBoundary(resource);
      if !ok { return Unavailable; }
      ghost var s := Now();
      nextActor := nextActor + 1;
      Follow(s, ByLaunch(LaunchStep.CreateHead(identity, topology)));
      outcome := LaunchCreated(resource, me);
    }

    method LaunchCreated(resource: Record, ghost me: ActorId) returns (outcome: CreateOutcome)
      requires Starting(me, NeedEnv, Create, resource)
      modifies this
      ensures Onwards() && Valid() && holder.Free?
      ensures outcome in {Started, NotStarted} && (calm ==> outcome == Started)
      ensures outcome == Started ==> Launched(resource)
      ensures outcome == NotStarted ==> forall p :: p in procs ==> procs[p] != resource.launch
    {
      hide Inv, Run, Do, FilesPresent, RecordOk;
      var written := resource;
      var ok := WriteLaunchFiles(resource, Create, me);
      if ok {
        Interfere(me);
        ok, written := WriteStartingRecord(resource, Create, me);
      }
      if ok {
        var removes: bool := *;
        ok := Succeeds();
        OpenLaunchLog(written, Create, ok, removes, me);
      }
      if ok { ok := StartRecipe(written, Create, me); }
      if !ok { NoLauncher(Now(), resource.launch); }
      return if ok then Started else NotStarted;
    }

    // -------------------------------------------------------------- stop, restart and remove by name

    /** stop: whatever is there is stopped, of whatever generation. */
    method RequestStop(name: Name)
      requires Valid() && holder.Free?
      modifies this
      ensures Onwards() && Now().disk == old(Now()).disk && Now().world == old(Now()).world
      ensures Spawned(old(nextActor), StopWanted(name, None, Finish))
    {
      hide Inv, Run;
      ghost var s := Now();
      nextActor := nextActor + 1;
      Follow(s, ByWorld(StopRequest(name)));
    }

    /** The first read of restart: what is not stopped is stopped first. */
    method BeginRestart(name: Name) returns (resource: Option<Record>)
      requires Valid() && holder.Free? && name !in claims
      modifies this
      ensures Onwards() && Valid() && Now().disk == old(Now()).disk && Now().world == old(Now()).world
      ensures resource.Some? <==> name in records
      ensures resource.Some? ==>
                && resource.value == records[name]
                && Spawned(old(nextActor),
                           if resource.value.status == Stopped then RestartWanted(resource.value)
                           else StopWanted(name, None, ThenRestart(resource.value)))
    {
      hide Inv, Run;
      if name !in records { return None; }
      ghost var s := Now();
      nextActor := nextActor + 1;
      Follow(s, ByCall(RestartBegin(name)));
      return Some(records[name]);
    }

    /** The first read of remove: what is not stopped is stopped first. */
    method BeginRemove(name: Name) returns (resource: Option<Record>)
      requires Valid() && holder.Free? && name !in claims
      modifies this
      ensures Onwards() && Valid() && Now().disk == old(Now()).disk && Now().world == old(Now()).world
      ensures resource.Some? <==> name in records
      ensures resource.Some? ==>
                && resource.value == records[name]
                && Spawned(old(nextActor),
                           if resource.value.status == Stopped then RemoveWanted(resource.value)
                           else StopWanted(name, None, ThenRemove(resource.value)))
    {
      hide Inv, Run;
      if name !in records { return None; }
      ghost var s := Now();
      nextActor := nextActor + 1;
      Follow(s, ByCall(RemoveBegin(name)));
      return Some(records[name]);
    }

    /** restart for a worker: the reservation reads "running" again. */
    method RestartWorker(resource: Record, writes: bool, ghost me: ActorId)
      requires Valid() && holder.Free? && me in actors && actors[me] == RestartWanted(resource)
      requires resource.id.role.Worker?
      modifies this
      ensures Onwards() && Valid() && holder.Free?
      ensures records ==
        if writes then old(records)[resource.id.name := resource.(status := Running, stamp := old(clock))]
        else old(records)
    {
      hide Inv, Run;
      ghost var s := Now();
      if writes { PutRecord(resource.(status := Running)); }
      Follow(s, ByCall(RestartLock(me, writes)));
    }

    /** restart for a head whose record it read as stopped, or has just stopped: the
        recipe is launched again under a new launch ID, without container IDs and with a
        new readiness deadline. */
    method RestartHead(resource: Record, launchId: LaunchId, ghost me: ActorId) returns (outcome: CreateOutcome)
      requires Valid() && holder.Free? && me in actors && actors[me] == RestartWanted(resource)
      requires resource.id.role.Head? && launchId == past.nextLaunch
      modifies this
      ensures Onwards() && Valid() && holder.Free? && outcome != Reserved
      ensures outcome == Unavailable ==>
                records == old(records) && env == old(env) && transports == old(transports)
      ensures outcome == Started ==> Launched(Relaunched(resource, launchId))
      ensures outcome == Started ==>
                var r := records[resource.id.name];
                && r.id == resource.id && r.topology == resource.topology && r.status == Status.Starting
                && r.launch == launchId && r.headCid.None? && r.workerCid.None? && r.deadline
      ensures outcome == NotStarted ==> forall p :: p in procs ==> procs[p] != launchId
      ensures calm ==>
                outcome == if NoNamed(old(Now()), Local) && NoNamed(old(Now()), Remote) then Started else Unavailable
    {
      hide Inv, Run, FilesPresent, VerifiedAbsent, SourceMatches, RecordOk;
      var next := Relaunched(resource, launchId);
      var free := VerifyHeadLaunchBoundary(next);
      Follow(Now(), ByCall(RestartLock(me, free)));
      if !free { return Unavailable; }
      outcome := LaunchRestarted(next, me);
    }

    function Relaunched(resource: Record, launchId: LaunchId): Record {
      resource.(status := Status.Starting, launch := launchId, headCid := None, workerCid := None, deadline := true)
    }

    method LaunchRestarted(resource: Record, ghost me: ActorId) returns (outcome: CreateOutcome)
      requires Starting(me, NeedEnv, Restart, resource)
      modifies this
      ensures Onwards() && Valid() && holder.Free?
      ensures outcome in {Started, NotStarted} && (calm ==> outcome == Started)
      ensures outcome == Started ==> Launched(resource)
      ensures outcome == NotStarted ==> forall p :: p in procs ==> procs[p] != resource.launch
    {
      hide Inv, Run, Do, FilesPresent, RecordOk;
      var written := resource;
      var ok := WriteLaunchFiles(resource, Restart, me);
      if ok {
        ok := Succeeds();
        OpenLaunchLog(resource, Restart, ok, false, me);
      }
      if ok {
        Interfere(me);
        ok, written := WriteStartingRecord(resource, Restart, me);
      }
      if ok { ok := StartRecipe(written, Restart, me); }
      if !ok { NoLauncher(Now(), resource.launch); }
      return if ok then Started else NotStarted;
    }
  }
}
