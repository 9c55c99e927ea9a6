/**
 Runs from an agent's first start to the situations in which the limits of the
 lifecycle show, so that each of them is one the agent reaches.
 */
module LifecycleWitnesses {
  import opened Common
  import opened Lifecycle
  import opened LifecycleInvariant
  import opened LifecycleSteps
  import opened LifecycleTheorems
  import opened LifecycleActors
  import opened LifecycleLimits

  const HEAD := Identity(0, 0, 1, Head)

  /** An agent that has just been installed on two empty nodes. */
  function FirstStart(ssh: SshPath): State {
    State(Disk(map[], None, map[], 0), World(map[], map[], 0, 0),
          Agent(ssh, map[], map[], Free, map[], 0), Past(1, {}, {}, {}))
  }

  /** The record of the first head, as its create writes it. */
  const STARTING := Record(HEAD, 0, Starting, 1, None, None, true, 0)

  function LaunchDisk(ssh: SshPath): Disk {
    Disk(map[0 := STARTING], Some(EnvFile(0, 1)), map[1 := Transport(true, Some(ssh))], 1)
  }

  /** The head has been created and its launcher runs. */
  function HeadStarted(ssh: SshPath): State {
    State(LaunchDisk(ssh), World(map[0 := 1], map[], 1, 0),
          Agent(ssh, map[0 := Entry(1, 0, false, 1)], map[1 := Waiting(0, 1, 0)], Free, map[], 2), Past(2, {1}, {}, {}))
  }

  lemma WritesFiles(ssh: SshPath) returns (steps: seq<Step>, t: State)
    ensures Run(FirstStart(ssh), steps, t, true)
    ensures t == State(LaunchDisk(ssh).(records := map[], clock := 0), World(map[], map[], 0, 0),
                       Agent(ssh, map[], map[], LaunchAt(NeedRecord, Create, 0, STARTING), map[], 1),
                       Past(2, {}, {}, {}))
  {
    hide Run;
    var s := FirstStart(ssh);
    var a, b := ByLaunch(CreateHead(HEAD, 0)), ByLaunch(WriteEnv(true));
    var c, d := ByLaunch(WriteConfig(true)), ByLaunch(WriteWrapper(true));
    var s1 := Do(s, a).value;
    var s2 := Do(s1, b).value;
    var s3 := Do(s2, c).value;
    t := Do(s3, d).value;
    RunOne(s, a, s1, true);
    RunSnoc(s, [a], s1, b, s2, true);
    RunSnoc(s, [a] + [b], s2, c, s3, true);
    RunSnoc(s, [a] + [b] + [c], s3, d, t, true);
    steps := [a] + [b] + [c] + [d];
  }

  /** create, without a failure. */
  lemma CreatesHead(ssh: SshPath) returns (steps: seq<Step>)
    ensures Init(FirstStart(ssh)) && Run(FirstStart(ssh), steps, HeadStarted(ssh), true)
  {
    hide Run;
    var first, s := WritesFiles(ssh);
    var a, b, c := ByLaunch(WriteStarting(true)), ByLaunch(OpenLog(true, false)), ByLaunch(StartLauncher(true, false));
    var s1 := Do(s, a).value;
    var s2 := Do(s1, b).value;
    var s3 := Do(s2, c).value;
    assert s3 == HeadStarted(ssh);
    var s0 := FirstStart(ssh);
    RunSnoc(s0, first, s, a, s1, true);
    RunSnoc(s0, first + [a], s1, b, s2, true);
    RunSnoc(s0, first + [a] + [b], s2, c, s3, true);
    steps := first + [a] + [b] + [c];
  }

  /** The agent has restarted while the launcher lives, and reconcile, having seen no
      container, is about to take the fence path. */
  function ToBeFenced(ssh: SshPath): State {
    State(LaunchDisk(ssh), World(map[0 := 1], map[], 1, 0),
          Agent(ssh, map[], map[2 := FenceWanted(STARTING)], Free, map[], 3), Past(2, {1}, {}, {}))
  }

  lemma RestartsAndReconciles(ssh: SshPath) returns (steps: seq<Step>)
    ensures Run(HeadStarted(ssh), steps, ToBeFenced(ssh), true)
  {
    hide Run;
    var s := HeadStarted(ssh);
    var a, b, c := ByWorld(Crash(ssh)), ByObserver(ReconcileBegin(0, false)), ByObserver(ReconcileCheck(2));
    var d, e := ByObserver(InspectFirst(2, Some(Absent))), ByObserver(InspectSecond(2, Some(Absent)));
    var s1 := Do(s, a).value;
    var s2 := Do(s1, b).value;
    var s3 := Do(s2, c).value;
    var s4 := Do(s3, d).value;
    var s5 := Do(s4, e).value;
    assert s5 == ToBeFenced(ssh);
    RunOne(s, a, s1, true);
    RunSnoc(s, [a], s1, b, s2, true);
    RunSnoc(s, [a] + [b], s2, c, s3, true);
    RunSnoc(s, [a] + [b] + [c], s3, d, s4, true);
    RunSnoc(s, [a] + [b] + [c] + [d], s4, e, s5, true);
    steps := [a] + [b] + [c] + [d] + [e];
  }

  lemma ReachesFence(ssh: SshPath) returns (steps: seq<Step>)
    ensures Init(FirstStart(ssh)) && Run(FirstStart(ssh), steps, ToBeFenced(ssh), true) && Inv(ToBeFenced(ssh))
  {
    hide Run;
    var first := CreatesHead(ssh);
    var second := RestartsAndReconciles(ssh);
    RunTwice(FirstStart(ssh), first, HeadStarted(ssh), second, ToBeFenced(ssh), true);
    steps := first + second;
    InitInv(FirstStart(ssh));
    RunKeeps(FirstStart(ssh), steps, ToBeFenced(ssh));
  }

  /** A whole run, from the first start, that ends with a record reading "stopped" over
      a container of its launch. */
  lemma FencePathLeavesContainer(ssh: SshPath) returns (steps: seq<Step>, t: State)
    ensures Init(FirstStart(ssh)) && Run(FirstStart(ssh), steps, t, true)
    ensures exists n, c :: n in t.disk.records && HeadStopped(t.disk.records[n]) && c in t.world.containers
              && t.world.containers[c].named && t.world.containers[c].marker == Some(t.disk.records[n].launch)
  {
    hide Run, Inv;
    var first := ReachesFence(ssh);
    var second, u, c := FencePathMayLeaveContainer(ToBeFenced(ssh), 2, 0);
    RunTwice(FirstStart(ssh), first, ToBeFenced(ssh), second, u, true);
    steps, t := first + second, u;
  }

  /** A whole run, from the first start, that ends with two launches alive: only restart
      calls that overlap are needed. */
  lemma OverlapLaunchesTwice(ssh: SshPath) returns (steps: seq<Step>, t: State)
    ensures Init(FirstStart(ssh)) && Run(FirstStart(ssh), steps, t, false)
    ensures exists p, q :: p in t.world.procs && q in t.world.procs && t.world.procs[p] != t.world.procs[q]
  {
    hide Run, Inv;
    var first := ReachesFence(ssh);
    var s, mark := ToBeFenced(ssh), ByObserver(FenceAndMark(2, true, true));
    var m := Do(s, mark).value;
    RunSnoc(FirstStart(ssh), first, s, mark, m, true);
    StepKeeps(s, mark, m);
    var second, u := OverlappingRestartsLaunchTwice(m, 0);
    StrictIsRun(FirstStart(ssh), first + [mark], m);
    RunTwice(FirstStart(ssh), first + [mark], m, second, u, false);
    steps, t := first + [mark] + second, u;
  }

  /** A whole run, from the first start, after which a live head can no longer be stopped:
      its agent came back with another ssh executable. */
  lemma AnotherSshIsReached(ssh: SshPath, other: SshPath) returns (steps: seq<Step>, t: State)
    requires ssh != other
    ensures Init(FirstStart(ssh)) && Run(FirstStart(ssh), steps, t, true) && t.agent.ssh == other
    ensures 0 in t.disk.records && HeadLive(t.disk.records[0]) && !SourceMatches(t, t.disk.records[0])
    ensures forall later, u :: Run(t, later, u, true) && SameSsh(later, other) ==>
          t.disk.records[0].launch !in u.past.released
  {
    hide Run, Inv;
    var first := CreatesHead(ssh);
    var s := HeadStarted(ssh);
    InitInv(FirstStart(ssh));
    RunKeeps(FirstStart(ssh), first, s);
    var crash := ByWorld(Crash(other));
    t := Do(s, crash).value;
    RunSnoc(FirstStart(ssh), first, s, crash, t, true);
    steps := first + [crash];
    forall later, u | Run(t, later, u, true) && SameSsh(later, other)
      ensures t.disk.records[0].launch !in u.past.released
    {
      AnotherSshWedgesStop(s, 0, other, t, later, u);
    }
  }
}
