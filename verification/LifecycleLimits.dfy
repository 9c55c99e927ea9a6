/**
 Where the lifecycle relies on something the code does not check: runs that show it.
 */
module LifecycleLimits {
  import opened Common
  import opened Lifecycle
  import opened LifecycleInvariant
  import opened LifecycleFrames
  import opened LifecycleSteps
  import opened LifecycleProgress
  import opened LifecycleTheorems

  // ---------------------------------------------------------------- overlapping restarts

  /** The record restart goes on with: what it read, under a new launch ID. */
  function Relaunched(s: State, r: Record): Record {
    r.(status := Starting, launch := s.past.nextLaunch, headCid := None, workerCid := None, deadline := true)
  }

  /** restart takes the lock and writes `.env` and the transport. */
  lemma RestartPrepares(s: State, id: ActorId) returns (steps: seq<Step>, t: State)
    requires s.agent.holder.Free? && id in s.agent.actors && s.agent.actors[id].RestartWanted?
    requires s.agent.actors[id].res.id.role.Head? && NoNamed(s, Local) && NoNamed(s, Remote)
    ensures Run(s, steps, t, false)
    ensures t.agent == s.agent.(actors := s.agent.actors - {id},
                                holder := LaunchAt(NeedLog, Restart, id, Relaunched(s, s.agent.actors[id].res)))
    ensures t.world == s.world && t.past == s.past.(nextLaunch := s.past.nextLaunch + 1)
    ensures t.disk.records == s.disk.records
  {
    var a, b := ByCall(RestartLock(id, true)), ByLaunch(WriteEnv(true));
    var s1 := Do(s, a).value;
    RunOne(s, a, s1, false);
    var s2 := Do(s1, b).value;
    RunOne(s1, b, s2, false);
    var c, d := ByLaunch(WriteConfig(true)), ByLaunch(WriteWrapper(true));
    var s3 := Do(s2, c).value;
    RunOne(s2, c, s3, false);
    t := Do(s3, d).value;
    RunOne(s3, d, t, false);
    hide Do, Run;
    RunTwice(s, [a], s1, [b], s2, false);
    RunTwice(s, [a] + [b], s2, [c], s3, false);
    RunTwice(s, [a] + [b] + [c], s3, [d], t, false);
    steps := [a] + [b] + [c] + [d];
  }

  /** restart opens its log, writes the record and starts the launcher. */
  lemma RestartStarts(s: State) returns (steps: seq<Step>, t: State)
    requires LaunchingAt(s, NeedLog) && s.agent.holder.kind.Restart?
    ensures Run(s, steps, t, false)
    ensures var r := s.agent.holder.res;
      && t.agent.holder.Free? && t.world.containers == s.world.containers
      && t.world.procs == s.world.procs[s.world.nextPid := r.launch] && t.world.nextPid == s.world.nextPid + 1
      && t.past == s.past.(started := s.past.started + {r.launch})
      && t.disk.records == s.disk.records[r.id.name := r.(stamp := s.disk.clock)]
      && t.agent.nextActor == s.agent.nextActor + 1
      && t.agent.actors == s.agent.actors[s.agent.nextActor := Waiting(r.id.name, r.launch, s.world.nextPid)]
  {
    var e, f, g := ByLaunch(OpenLog(true, false)), ByLaunch(WriteStarting(true)), ByLaunch(StartLauncher(true, false));
    var s1 := Do(s, e).value;
    RunOne(s, e, s1, false);
    var s2 := Do(s1, f).value;
    RunOne(s1, f, s2, false);
    t := Do(s2, g).value;
    RunOne(s2, g, t, false);
    hide Do, Run;
    RunTwice(s, [e], s1, [f], s2, false);
    RunTwice(s, [e] + [f], s2, [g], t, false);
    steps := [e] + [f] + [g];
  }

  /** restart's second critical section, run through to a started launcher. */
  lemma RestartLaunches(s: State, id: ActorId) returns (steps: seq<Step>, t: State)
    requires s.agent.holder.Free? && id in s.agent.actors && s.agent.actors[id].RestartWanted?
    requires s.agent.actors[id].res.id.role.Head? && NoNamed(s, Local) && NoNamed(s, Remote)
    ensures Run(s, steps, t, false)
    ensures t.agent.holder.Free? && t.world.containers == s.world.containers
    ensures t.world.procs == s.world.procs[s.world.nextPid := s.past.nextLaunch]
    ensures t.world.nextPid == s.world.nextPid + 1
    ensures t.past == s.past.(nextLaunch := s.past.nextLaunch + 1, started := s.past.started + {s.past.nextLaunch})
    ensures s.agent.actors[id].res.id.name in t.disk.records
    ensures t.disk.records[s.agent.actors[id].res.id.name].launch == s.past.nextLaunch
    ensures forall i :: i in s.agent.actors && i != id && i < s.agent.nextActor ==>
      i in t.agent.actors && t.agent.actors[i] == s.agent.actors[i]
  {
    hide Do, Run;
    var first, m := RestartPrepares(s, id);
    var second, u := RestartStarts(m);
    RunTwice(s, first, m, second, u, false);
    steps, t := first + second, u;
  }

  /** Two overlapping restart calls for one stopped head both launch: from any such
      state a run ends with two launches alive, only one of them in the record and
      none fenced. Each restart goes on with the record it read before the lock. */
  lemma OverlappingRestartsLaunchTwice(s: State, n: Name) returns (steps: seq<Step>, t: State)
    requires Inv(s) && s.agent.holder.Free? && n in s.disk.records && HeadStopped(s.disk.records[n])
    requires NoNamed(s, Local) && NoNamed(s, Remote)
    ensures Run(s, steps, t, false)
    ensures exists p, q :: p in t.world.procs && q in t.world.procs && t.world.procs[p] != t.world.procs[q]
                           && t.world.procs[p] !in t.past.fenced && t.world.procs[q] !in t.past.fenced
                           && n in t.disk.records && t.disk.records[n].launch == t.world.procs[q]
    ensures !Inv(t)
  {
    TheRecord(s, n);
    TheHistory(s);
    Fresh(s);
    hide Inv, RecordOk;
    var i, j := s.agent.nextActor, s.agent.nextActor + 1;
    var u := Do(s, ByCall(RestartBegin(n))).value;
    var v := Do(u, ByCall(RestartBegin(n))).value;
    RunOne(s, ByCall(RestartBegin(n)), u, false);
    RunOne(u, ByCall(RestartBegin(n)), v, false);
    assert v.agent.actors[i] == v.agent.actors[j] == RestartWanted(s.disk.records[n]);
    hide Do, Run, HistoryOk;
    RunTwice(s, [ByCall(RestartBegin(n))], u, [ByCall(RestartBegin(n))], v, false);
    var first, w := RestartLaunches(v, i);
    var second, x := RestartLaunches(w, j);
    RunTwice(v, first, w, second, x, false);
    RunTwice(s, [ByCall(RestartBegin(n))] + [ByCall(RestartBegin(n))], v, first + second, x, false);
    steps, t := [ByCall(RestartBegin(n))] + [ByCall(RestartBegin(n))] + (first + second), x;
    var p, q := v.world.nextPid, w.world.nextPid;
    assert t.world.procs[p] == s.past.nextLaunch && t.world.procs[q] == s.past.nextLaunch + 1;
    if Inv(t) { ProcOwner(t, p); ProcOwner(t, q); }
  }

  // ---------------------------------------------------------------- the fence path

  /** fenceAndMarkStopped looks for containers before it fences: a launcher that
      survived an agent restart can create one in between, and the record then reads
      "stopped" while a container of its launch holds the fixed name. */
  lemma FencePathMayLeaveContainer(s: State, id: ActorId, p: Pid) returns (steps: seq<Step>, t: State, c: ContainerId)
    requires Inv(s) && s.agent.holder.Free? && id in s.agent.actors && s.agent.actors[id].FenceWanted?
    requires StillCurrent(s, s.agent.actors[id].seen) && !LauncherActive(s, s.agent.actors[id].seen)
    requires p in s.world.procs && s.world.procs[p] == s.agent.actors[id].seen.launch && NoNamed(s, Local)
    ensures Run(s, steps, t, true)
    ensures var n := s.agent.actors[id].seen.id.name;
      && n in t.disk.records && HeadStopped(t.disk.records[n]) && t.disk.records[n].launch !in t.past.released
      && c in t.world.containers && t.world.containers[c].named
      && t.world.containers[c].marker == Some(t.disk.records[n].launch)
  {
    hide Inv;
    var r := s.agent.actors[id].seen;
    TheActor(s, id);
    TheRecord(s, r.id.name);
    var create, mark := ByWorld(ContainerCreate(p, Local, true, 0)), ByObserver(FenceAndMark(id, true, true));
    var m := Do(s, create).value;
    t, c := Do(m, mark).value, s.world.nextCid;
    RunOne(s, create, m, true);
    RunSnoc(s, [create], m, mark, t, true);
    steps := [create] + [mark];
  }

  // ---------------------------------------------------------------- another ssh executable

  /** A stop of this launch cannot get past its source check. */
  predicate Wedged(s: State, l: LaunchId) {
    && 0 < l < s.past.nextLaunch && l !in s.past.released
    && (l in s.disk.transports ==> s.disk.transports[l].wrapper != Some(s.agent.ssh))
    && (s.agent.holder.LaunchAt? ==> s.agent.holder.res.launch != l)
    && (s.agent.holder.StopAt? && s.agent.holder.res.launch == l ==>
          s.agent.holder.spc in {Join, Fence, Source, MarkFailed})
  }

  lemma WedgedStop(s: State, step: StopStep, t: State, l: LaunchId)
    requires Wedged(s, l) && DoStop(s, step) == Some(t)
    ensures Wedged(t, l)
  { }

  lemma WedgedRelease(s: State, step: ReleaseStep, t: State, l: LaunchId)
    requires Inv(s) && Wedged(s, l) && DoRelease(s, step) == Some(t)
    ensures Wedged(t, l)
  {
    hide Inv, NextOk, RecordOk, StopPcOk;
    TheStop(s);
  }

  lemma WedgedWorld(s: State, step: WorldStep, t: State, l: LaunchId)
    requires Inv(s) && Wedged(s, l) && DoWorld(s, step) == Some(t)
    requires step.Crash? ==> step.ssh == s.agent.ssh
    ensures Wedged(t, l)
  {
    hide Inv;
    if step.StopBegin? && s.agent.actors[step.id].name in s.disk.records { TheRecord(s, s.agent.actors[step.id].name); }
  }

  lemma WedgedObserver(s: State, step: ObserverStep, t: State, l: LaunchId)
    requires Wedged(s, l) && DoObserver(s, step) == Some(t)
    ensures Wedged(t, l)
  { }

  lemma WedgedCreate(s: State, step: LaunchStep, t: State, l: LaunchId)
    requires Inv(s) && Wedged(s, l) && DoLaunch(s, step) == Some(t) && (step.CreateWorker? || step.CreateHead?)
    ensures Wedged(t, l)
  { hide Inv, NoNamed; }

  lemma WedgedFiles(s: State, step: LaunchStep, t: State, l: LaunchId)
    requires Wedged(s, l) && DoLaunch(s, step) == Some(t) && (step.WriteEnv? || step.WriteConfig? || step.WriteWrapper?)
    ensures Wedged(t, l)
  { }

  lemma WedgedStart(s: State, step: LaunchStep, t: State, l: LaunchId)
    requires Wedged(s, l) && DoLaunch(s, step) == Some(t)
    requires step.OpenLog? || step.WriteStarting? || step.StartLauncher?
    ensures Wedged(t, l)
  { }

  lemma WedgedLaunch(s: State, step: LaunchStep, t: State, l: LaunchId)
    requires Inv(s) && Wedged(s, l) && DoLaunch(s, step) == Some(t)
    ensures Wedged(t, l)
  {
    hide Inv, Wedged, DoLaunch;
    if step.CreateWorker? || step.CreateHead? { WedgedCreate(s, step, t, l); }
    else if step.WriteEnv? || step.WriteConfig? || step.WriteWrapper? { WedgedFiles(s, step, t, l); }
    else { WedgedStart(s, step, t, l); }
  }

  lemma WedgedCall(s: State, step: CallStep, t: State, l: LaunchId)
    requires Wedged(s, l) && DoCall(s, step) == Some(t)
    ensures Wedged(t, l)
  { }

  lemma WedgedStep(s: State, step: Step, t: State, l: LaunchId)
    requires Inv(s) && Wedged(s, l) && Do(s, step) == Some(t)
    requires step.ByWorld? && step.world.Crash? ==> step.world.ssh == s.agent.ssh
    ensures Wedged(t, l) && t.agent.ssh == s.agent.ssh
  {
    hide Inv, Wedged, Onward;
    StepOnward(s, step, t);
    match step {
      case ByWorld(x) => WedgedWorld(s, x, t, l);
      case ByStop(x) => WedgedStop(s, x, t, l);
      case ByRelease(x) => WedgedRelease(s, x, t, l);
      case ByObserver(x) => WedgedObserver(s, x, t, l);
      case ByLaunch(x) => WedgedLaunch(s, x, t, l);
      case ByCall(x) => WedgedCall(s, x, t, l);
    }
  }

  lemma {:induction false} WedgedRun(s: State, steps: seq<Step>, t: State, l: LaunchId)
    requires Inv(s) && Wedged(s, l) && Run(s, steps, t, true) && SameSsh(steps, s.agent.ssh)
    ensures Wedged(t, l)
    decreases |steps|
  {
    hide Inv, Do, Wedged;
    if steps != [] {
      var u := Do(s, steps[0]).value;
      StepKeeps(s, steps[0], u);
      WedgedStep(s, steps[0], u, l);
      assert SameSsh(steps[1..], u.agent.ssh) by {
        forall i | 0 <= i < |steps[1..]| && steps[1..][i].ByWorld? && steps[1..][i].world.Crash?
          ensures steps[1..][i].world.ssh == u.agent.ssh { assert steps[1..][i] == steps[i + 1]; }
      }
      WedgedRun(u, steps[1..], t, l);
    }
  }

  /** An agent that comes back with another ssh executable than the one a live
      head's wrapper names never releases that launch through stop, however the run
      goes on, until an agent restart resolves a different executable again. */
  lemma AnotherSshWedgesStop(s: State, n: Name, ssh: SshPath, t: State, steps: seq<Step>, u: State)
    requires Inv(s) && n in s.disk.records && HeadLive(s.disk.records[n])
    requires s.disk.transports[s.disk.records[n].launch].wrapper != Some(ssh)
    requires Do(s, ByWorld(Crash(ssh))) == Some(t) && Run(t, steps, u, true) && SameSsh(steps, ssh)
    ensures s.disk.records[n].launch !in u.past.released
  {
    TheRecord(s, n);
    hide Inv, Run;
    StepKeeps(s, ByWorld(Crash(ssh)), t);
    WedgedRun(t, steps, u, s.disk.records[n].launch);
  }
}
