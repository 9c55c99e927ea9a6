/**
 What the lifecycle guarantees over whole runs, and where the code relies on more
 than it checks.
 */
module LifecycleTheorems {
  import opened Common
  import opened Lifecycle
  import opened LifecycleInvariant
  import opened LifecycleFrames
  import opened LifecycleSteps
  import opened LifecycleProgress

  // ---------------------------------------------------------------- reservation

  /** At most one resource record exists on the node in every reachable state. */
  lemma ReservationIsExclusive(s: State, steps: seq<Step>, t: State)
    requires Init(s) && Run(s, steps, t, true)
    ensures forall m, n :: m in t.disk.records && n in t.disk.records ==> m == n
    ensures |t.disk.records| <= 1
  {
    InitInv(s);
    RunKeeps(s, steps, t);
    if n :| n in t.disk.records {
      assert t.disk.records.Keys == {n};
      assert |t.disk.records.Keys| == 1;
    } else {
      assert t.disk.records.Keys == {};
    }
  }

  /** A head record goes away only if its launcher never started or has been fenced. */
  lemma DeletionFollowsFence(s: State, step: Step, t: State, n: Name)
    requires Inv(s) && Do(s, step) == Some(t) && n in s.disk.records && n !in t.disk.records
    ensures s.disk.records[n].id.role.Head? ==>
      s.disk.records[n].launch !in s.past.started || s.disk.records[n].launch in s.past.fenced
    ensures s.disk.records[n].id.role.Head? ==>
              forall p :: p in s.world.procs ==> s.world.procs[p] != s.disk.records[n].launch
  {
    hide Inv;
    TheRecord(s, n);
    TheHistory(s);
    match step {
      case ByWorld(x) => OnlyDrops(s, step, t, n);
      case ByStop(x) => OnlyDrops(s, step, t, n);
      case ByRelease(x) => OnlyDrops(s, step, t, n);
      case ByObserver(x) => OnlyDrops(s, step, t, n);
      case ByLaunch(x) => OnlyDrops(s, step, t, n); TheLaunch(s);
      case ByCall(x) => OnlyDrops(s, step, t, n);
    }
  }

  /** Records disappear in create's undo and in remove, nowhere else. */
  lemma OnlyDrops(s: State, step: Step, t: State, n: Name)
    requires Do(s, step) == Some(t) && n in s.disk.records && n !in t.disk.records
    ensures step == ByLaunch(OpenLog(false, true)) || (step.ByCall? && step.call.RemoveLock?)
  { }

  /** Launcher processes that are alive together belong to one launch, that of the
      node's only record, which is a head that does not read "stopped". */
  lemma OneLaunchAtATime(s: State, steps: seq<Step>, t: State, p: Pid, q: Pid)
    requires Init(s) && Run(s, steps, t, true) && p in t.world.procs && q in t.world.procs
    ensures t.world.procs[p] == t.world.procs[q]
    ensures t.disk.records != map[]
    ensures forall n :: n in t.disk.records ==>
          HeadLive(t.disk.records[n]) && t.disk.records[n].launch == t.world.procs[p]
  {
    InitInv(s);
    hide Inv, Run;
    RunKeeps(s, steps, t);
    ProcOwner(t, p);
    ProcOwner(t, q);
    var n :| n in t.disk.records && HeadLive(t.disk.records[n]) && t.disk.records[n].launch == t.world.procs[p];
  }

  // ---------------------------------------------------------------- stop is complete

  /** No launcher process, no container under the fixed name on either node, none
      of the listed container IDs, and no launch under way. */
  ghost predicate Quiet(s: State, cids: set<ContainerId>) {
    && s.world.procs == map[] && NoNamed(s, Local) && NoNamed(s, Remote)
    && (forall c :: c in cids ==> c < s.world.nextCid && c !in s.world.containers)
    && !s.agent.holder.LaunchAt?
  }

  function RecordedCids(r: Record): set<ContainerId> {
    (if r.headCid.Some? then {r.headCid.value} else {}) + (if r.workerCid.Some? then {r.workerCid.value} else {})
  }

  /** When stop writes "stopped" for a head, its launch is fenced, no process
      carries any marker, and neither node holds the fixed container name or a
      container ID the record names. */
  lemma StopIsComplete(s: State, t: State)
    requires Inv(s) && s.agent.holder.StopAt? && s.agent.holder.res.id.role.Head?
    requires DoWriteStopped(s, true) == Some(t)
    ensures var n := s.agent.holder.res.id.name;
      && n in t.disk.records && t.disk.records[n].status == Stopped && t.disk.records[n].launch in t.past.fenced
      && Quiet(t, RecordedCids(t.disk.records[n]))
  {
    hide Inv;
    TheStop(s);
    var r := s.agent.holder.res;
    if p :| p in s.world.procs { ProcOwner(s, p); TheHistory(s); }
    assert s.world.procs == map[];
  }

  lemma QuietStep(s: State, step: Step, t: State, cids: set<ContainerId>)
    requires Inv(s) && Quiet(s, cids) && Do(s, step) == Some(t) && t.past.nextLaunch == s.past.nextLaunch
    ensures Quiet(t, cids)
  {
    hide Inv, Do, RecordsStep, TableStep, WrappersStep, FenceStep;
    StepOnward(s, step, t);
    if step.ByWorld? && step.world.Crash? { CrashFrees(s, step.world.ssh, t); }
    assert forall p :: p !in t.world.procs;
    assert t.world.procs == map[];
  }

  lemma CrashFrees(s: State, ssh: SshPath, t: State)
    requires Do(s, ByWorld(Crash(ssh))) == Some(t)
    ensures t.agent.holder.Free? && t.agent.ssh == ssh
  { }

  /** ... and that stays so, whatever runs, until a new launch ID is issued. */
  lemma {:induction false} StopStaysComplete(s: State, steps: seq<Step>, t: State, cids: set<ContainerId>)
    requires Inv(s) && Quiet(s, cids) && Run(s, steps, t, true) && t.past.nextLaunch == s.past.nextLaunch
    ensures Quiet(t, cids)
    decreases |steps|
  {
    hide Inv, Quiet, Onward, Do;
    if steps != [] {
      var u := Do(s, steps[0]).value;
      StepKeeps(s, steps[0], u);
      LaunchesGrow(u, steps[1..], t);
      assert s.past.nextLaunch <= u.past.nextLaunch by { StepOnward(s, steps[0], u); UnfoldGrows(s, u); }
      QuietStep(s, steps[0], u, cids);
      StopStaysComplete(u, steps[1..], t, cids);
    }
  }

  lemma UnfoldGrows(s: State, t: State)
    requires Onward(s, t)
    ensures Grows(s, t)
  { }

  lemma {:induction false} LaunchesGrow(s: State, steps: seq<Step>, t: State)
    requires Inv(s) && Run(s, steps, t, true)
    ensures Grows(s, t)
    decreases |steps|
  {
    hide Inv, Onward, Do;
    if steps != [] {
      var u := Do(s, steps[0]).value;
      StepKeeps(s, steps[0], u);
      StepOnward(s, steps[0], u);
      UnfoldGrows(s, u);
      LaunchesGrow(u, steps[1..], t);
    }
  }

  // ---------------------------------------------------------------- stopped means fenced

  /** Once a launch is fenced, none of its processes is alive and its containers only go away. */
  ghost predicate Spent(s: State, l: LaunchId, cs: set<ContainerId>) {
    && l in s.past.fenced
    && (forall p :: p in s.world.procs ==> s.world.procs[p] != l)
    && (forall c :: c in s.world.containers && s.world.containers[c].marker == Some(l) ==> c in cs)
  }

  lemma SpentStep(s: State, step: Step, t: State, l: LaunchId, cs: set<ContainerId>)
    requires Inv(s) && Spent(s, l, cs) && Do(s, step) == Some(t) && Disciplined(s, step)
    ensures Spent(t, l, cs)
  {
    hide Inv, Do;
    StepOnward(s, step, t);
    StepKeeps(s, step, t);
    TheHistory(t);
  }

  lemma {:induction false} SpentForever(s: State, steps: seq<Step>, t: State, l: LaunchId, cs: set<ContainerId>)
    requires Inv(s) && Spent(s, l, cs) && Run(s, steps, t, true)
    ensures Spent(t, l, cs)
    decreases |steps|
  {
    hide Inv, Spent, Do;
    if steps != [] {
      var u := Do(s, steps[0]).value;
      StepKeeps(s, steps[0], u);
      SpentStep(s, steps[0], u, l, cs);
      SpentForever(u, steps[1..], t, l, cs);
    }
  }

  /** Whichever path released it, and whatever crashed before: a head record that
      reads "stopped" belongs to a fenced launch, of which no process lives then or
      later, and which never creates another container. */
  lemma StoppedMeansFenced(s: State, before: seq<Step>, m: State, after: seq<Step>, t: State, n: Name)
    requires Init(s) && Run(s, before, m, true) && Run(m, after, t, true)
    requires n in m.disk.records && HeadStopped(m.disk.records[n])
    ensures Spent(m, m.disk.records[n].launch, m.world.containers.Keys)
    ensures Spent(t, m.disk.records[n].launch, m.world.containers.Keys)
  {
    InitInv(s);
    hide Inv, Run;
    RunKeeps(s, before, m);
    TheRecord(m, n);
    TheHistory(m);
    SpentForever(m, after, t, m.disk.records[n].launch, m.world.containers.Keys);
  }

  /** Only a successful fence adds a launch to the fenced ones. */
  lemma FencedOnlyByFence(s: State, step: Step, t: State, l: LaunchId)
    requires Do(s, step) == Some(t) && l in t.past.fenced && l !in s.past.fenced
    ensures (step == ByStop(FenceLaunch(true)) && s.agent.holder.StopAt? && s.agent.holder.res.launch == l)
            || (step.ByObserver? && step.observer.FenceAndMark? && step.observer.fenceOk
                && step.observer.id in s.agent.actors && s.agent.actors[step.observer.id].FenceWanted?
                && s.agent.actors[step.observer.id].seen.launch == l)
    ensures forall p :: p in t.world.procs ==> t.world.procs[p] != l
  { }

  // ---------------------------------------------------------------- the pre-stop source check

  /** Every transport wrapper names the ssh executable the agent uses now. */
  predicate WrappersCurrent(s: State) {
    forall l :: l in s.disk.transports && s.disk.transports[l].wrapper.Some? ==>
        s.disk.transports[l].wrapper.value == s.agent.ssh
  }

  /** Every agent restart in the run resolves the same ssh executable. */
  predicate SameSsh(steps: seq<Step>, ssh: SshPath) {
    forall i :: 0 <= i < |steps| && steps[i].ByWorld? && steps[i].world.Crash? ==> steps[i].world.ssh == ssh
  }

  /** In every reachable state, the source check of a stop passes for a head record
      that is not stopped exactly when its wrapper names the current ssh executable. */
  lemma SourceCheckExactly(s: State, steps: seq<Step>, t: State, n: Name)
    requires Init(s) && Run(s, steps, t, true) && n in t.disk.records && HeadLive(t.disk.records[n])
    ensures t.disk.records[n].launch in t.disk.transports
    ensures SourceMatches(t, t.disk.records[n]) <==>
            t.disk.transports[t.disk.records[n].launch].wrapper == Some(t.agent.ssh)
  {
    InitInv(s);
    hide Inv, Run;
    RunKeeps(s, steps, t);
    TheRecord(t, n);
  }

  lemma {:induction false} WrappersStayCurrent(s: State, steps: seq<Step>, t: State)
    requires Inv(s) && Run(s, steps, t, true) && WrappersCurrent(s) && SameSsh(steps, s.agent.ssh)
    ensures WrappersCurrent(t)
    decreases |steps|
  {
    hide Inv, Do, RecordsStep, ContainersStep, ProcsStep, TableStep, FenceStep;
    if steps != [] {
      var u := Do(s, steps[0]).value;
      StepKeeps(s, steps[0], u);
      StepOnward(s, steps[0], u);
      if steps[0].ByWorld? && steps[0].world.Crash? { CrashFrees(s, steps[0].world.ssh, u); }
      assert SameSsh(steps[1..], u.agent.ssh) by {
        forall i | 0 <= i < |steps[1..]| && steps[1..][i].ByWorld? && steps[1..][i].world.Crash?
          ensures steps[1..][i].world.ssh == u.agent.ssh { assert steps[1..][i] == steps[i + 1]; }
      }
      WrappersStayCurrent(u, steps[1..], t);
    }
  }

  /** Crash-consistent stoppability: as long as agent restarts resolve the same ssh
      executable, no crash point leaves a non-stopped head that stop would refuse. */
  lemma StopIsNeverWedged(s: State, steps: seq<Step>, t: State, n: Name)
    requires Init(s) && Run(s, steps, t, true) && SameSsh(steps, s.agent.ssh)
    requires n in t.disk.records && HeadLive(t.disk.records[n])
    ensures SourceMatches(t, t.disk.records[n])
  {
    SourceCheckExactly(s, steps, t, n);
    InitInv(s);
    hide Inv, Run;
    WrappersStayCurrent(s, steps, t);
    RunKeeps(s, steps, t);
    TheRecord(t, n);
  }
}
