/**
 What goroutines may do to each other: which steps need no lock, what those leave
 alone, and that a held lock keeps every other step out.
 */
module LifecycleInterference {
  import opened Common
  import opened Lifecycle
  import opened LifecycleInvariant
  import opened LifecycleFrames
  import opened LifecycleSteps
  import opened LifecycleActors

  /** A step that takes no lock and is not taken by goroutine `me`. */
  predicate Lockless(step: Step, me: ActorId) {
    match step
    case ByWorld(x) =>
      (match x
       case WaiterLock(id, wrote) => false
       case StopBegin(id, wrote) => false
       case Crash(ssh) => false
       case WaitReturns(id, clean) => id != me
       case _ => true)
    case ByObserver(InspectFirst(id, obs)) => id != me
    case ByObserver(InspectSecond(id, obs)) => id != me
    case _ => false
  }

  predicate AllLockless(steps: seq<Step>, me: ActorId) {
    forall i :: 0 <= i < |steps| ==> Lockless(steps[i], me)
  }

  /** The files, the lock and the history are as they were, so is this goroutine; a
      table entry may only have become done, and a process that is gone stays gone. */
  predicate Undisturbed(s: State, t: State, me: ActorId) {
    && t.disk == s.disk && t.past == s.past && t.agent.ssh == s.agent.ssh
    && t.agent.holder == s.agent.holder && t.agent.claims == s.agent.claims
    && s.agent.nextActor <= t.agent.nextActor
    && (me in s.agent.actors ==> me in t.agent.actors && t.agent.actors[me] == s.agent.actors[me])
    && t.agent.table.Keys == s.agent.table.Keys
    && (forall n :: n in t.agent.table ==>
          && t.agent.table[n].(done := false) == s.agent.table[n].(done := false)
          && (s.agent.table[n].done ==> t.agent.table[n].done))
    && s.world.nextPid <= t.world.nextPid
    && (forall p :: p in t.world.procs && p < s.world.nextPid ==> p in s.world.procs)
  }

  lemma WorldUndisturbed(s: State, x: WorldStep, t: State, me: ActorId)
    requires me in s.agent.actors ==> me < s.agent.nextActor
    requires DoWorld(s, x) == Some(t) && Lockless(ByWorld(x), me)
    ensures Undisturbed(s, t, me)
  { hide NoNamed; }

  lemma InspectUndisturbed(s: State, x: ObserverStep, t: State, me: ActorId)
    requires DoObserver(s, x) == Some(t) && Lockless(ByObserver(x), me)
    ensures Undisturbed(s, t, me)
  { hide Inspected, Conclude; }

  /** A step without the lock disturbs no goroutine that holds it. */
  lemma LocklessUndisturbed(s: State, step: Step, t: State, me: ActorId)
    requires Inv(s) && Do(s, step) == Some(t) && Lockless(step, me)
    ensures Undisturbed(s, t, me)
  {
    hide Inv, Undisturbed;
    if me in s.agent.actors { TheActor(s, me); }
    match step {
      case ByWorld(x) => WorldUndisturbed(s, x, t, me);
      case ByObserver(x) => InspectUndisturbed(s, x, t, me);
    }
  }

  lemma {:induction false} LocklessRun(s: State, steps: seq<Step>, t: State, me: ActorId)
    requires Inv(s) && Run(s, steps, t, true) && AllLockless(steps, me)
    ensures Inv(t) && Undisturbed(s, t, me)
    decreases |steps|
  {
    hide Inv, Do, Undisturbed;
    if steps == [] {
      SelfUndisturbed(s, me);
    } else {
      var u := Do(s, steps[0]).value;
      LocklessUndisturbed(s, steps[0], u, me);
      StepKeeps(s, steps[0], u);
      assert AllLockless(steps[1..], me);
      LocklessRun(u, steps[1..], t, me);
      UndisturbedTwice(s, u, t, me);
    }
  }

  lemma SelfUndisturbed(s: State, me: ActorId)
    requires Inv(s)
    ensures Undisturbed(s, s, me)
  {
    hide Inv;
  }

  lemma UndisturbedTwice(s: State, u: State, t: State, me: ActorId)
    requires Undisturbed(s, u, me) && Undisturbed(u, t, me)
    ensures Undisturbed(s, t, me)
  { }

  lemma UndisturbedThrice(s: State, u: State, v: State, t: State, me: ActorId)
    requires Undisturbed(s, u, me) && Undisturbed(u, v, me) && Undisturbed(v, t, me)
    ensures Undisturbed(s, t, me) && s.world.nextPid <= u.world.nextPid <= v.world.nextPid <= t.world.nextPid
    ensures forall p :: p in t.world.procs && p < s.world.nextPid ==> p in v.world.procs
  { }

  lemma UndisturbedTable(s: State, t: State, me: ActorId)
    requires Undisturbed(s, t, me)
    ensures t.agent.table.Keys == s.agent.table.Keys && t.agent.holder == s.agent.holder
    ensures forall n :: n in t.agent.table ==>
              && t.agent.table[n].pid == s.agent.table[n].pid && t.agent.table[n].launch == s.agent.table[n].launch
  { }

  // ---------------------------------------------------------------- mutual exclusion

  function Owner(h: Holder): ActorId
    requires !h.Free?
  {
    h.owner
  }

  /** The steps of the operation that holds the lock. */
  predicate OwnStep(h: Holder, step: Step) {
    match h
    case Free => false
    case StopAt(pc, owner, res, next) => step.ByStop? || step.ByRelease?
    case LaunchAt(pc, kind, owner, res) => step.ByLaunch? && !step.launch.CreateWorker? && !step.launch.CreateHead?
    case RemoveAt(owner, name, launch) => step.ByCall? && step.call.RemoveTransport?
  }

  /** While the lock is held, a step that is possible at all is one of its holder, one
      that needs no lock, or a crash of the whole agent. */
  lemma LockExcludes(s: State, step: Step, t: State)
    requires Inv(s) && !s.agent.holder.Free? && Do(s, step) == Some(t)
    ensures
      || OwnStep(s.agent.holder, step)
      || Lockless(step, Owner(s.agent.holder))
      || (step.ByWorld? && step.world.Crash?)
  {
    hide Inv;
    TheHolder(s);
  }

  // ---------------------------------------------------------------- without the lock

  /** The goroutine that takes a step. */
  function Taker(step: Step): Option<ActorId> {
    match step
    case ByCall(RestartLock(id, ok)) => Some(id)
    case ByCall(RemoveLock(id, ok)) => Some(id)
    case _ => Mover(step)
  }

  predicate ByOthers(step: Step, me: ActorId) {
    Taker(step) != Some(me) && !(step.ByWorld? && step.world.Crash?)
  }

  predicate AllByOthers(steps: seq<Step>, me: ActorId) {
    forall i :: 0 <= i < |steps| ==> ByOthers(steps[i], me)
  }

  /** Known to the table of goroutines, and not the one that holds the lock. */
  predicate Bystander(s: State, me: ActorId) {
    me in s.agent.actors && me < s.agent.nextActor && (!s.agent.holder.Free? ==> s.agent.holder.owner != me)
  }

  predicate SameActor(s: State, t: State, me: ActorId) {
    me in s.agent.actors && me in t.agent.actors && t.agent.actors[me] == s.agent.actors[me]
  }

  lemma WorldKeepsActor(s: State, x: WorldStep, t: State, me: ActorId)
    requires Bystander(s, me) && DoWorld(s, x) == Some(t) && ByOthers(ByWorld(x), me)
    ensures SameActor(s, t, me)
  { hide NoNamed, SameGeneration; }

  lemma ObserverKeepsActor(s: State, x: ObserverStep, t: State, me: ActorId)
    requires Bystander(s, me) && DoObserver(s, x) == Some(t) && ByOthers(ByObserver(x), me)
    ensures SameActor(s, t, me)
  { hide NoNamed, Inspected, Conclude, StillCurrent, LauncherActive; }

  lemma StopKeepsActor(s: State, x: StopStep, t: State, me: ActorId)
    requires Bystander(s, me) && DoStop(s, x) == Some(t)
    ensures SameActor(s, t, me)
  { hide Inspected, SourceMatches; }

  lemma ReleaseKeepsActor(s: State, x: ReleaseStep, t: State, me: ActorId)
    requires Bystander(s, me) && DoRelease(s, x) == Some(t)
    ensures SameActor(s, t, me)
  { hide VerifiedAbsent; }

  lemma LaunchKeepsActor(s: State, x: LaunchStep, t: State, me: ActorId)
    requires Bystander(s, me) && DoLaunch(s, x) == Some(t)
    ensures SameActor(s, t, me)
  { hide NoNamed; }

  lemma CallKeepsActor(s: State, x: CallStep, t: State, me: ActorId)
    requires Bystander(s, me) && DoCall(s, x) == Some(t) && ByOthers(ByCall(x), me)
    ensures SameActor(s, t, me)
  { hide NoNamed; }

  /** Nobody acts for a goroutine but itself, short of a crash. */
  lemma OthersKeepActor(s: State, step: Step, t: State, me: ActorId)
    requires Inv(s) && Do(s, step) == Some(t) && ByOthers(step, me) && me in s.agent.actors
    ensures SameActor(s, t, me)
  {
    hide Inv, SameActor, HolderOk;
    TheActor(s, me);
    assert Bystander(s, me) by { NotTheOwner(s, me); }
    match step {
      case ByWorld(x) => WorldKeepsActor(s, x, t, me);
      case ByObserver(x) => ObserverKeepsActor(s, x, t, me);
      case ByStop(x) => StopKeepsActor(s, x, t, me);
      case ByRelease(x) => ReleaseKeepsActor(s, x, t, me);
      case ByLaunch(x) => LaunchKeepsActor(s, x, t, me);
      case ByCall(x) => CallKeepsActor(s, x, t, me);
    }
  }

  lemma NotTheOwner(s: State, me: ActorId)
    requires Inv(s) && me in s.agent.actors
    ensures !s.agent.holder.Free? ==> s.agent.holder.owner != me
  {
    hide Inv;
    TheHolder(s);
  }

  lemma {:induction false} OthersRun(s: State, steps: seq<Step>, t: State, me: ActorId)
    requires Inv(s) && Run(s, steps, t, true) && AllByOthers(steps, me) && me in s.agent.actors
    ensures Inv(t) && me in t.agent.actors && t.agent.actors[me] == s.agent.actors[me]
    decreases |steps|
  {
    hide Inv, Do;
    if steps != [] {
      var u := Do(s, steps[0]).value;
      OthersKeepActor(s, steps[0], u, me);
      StepKeeps(s, steps[0], u);
      assert AllByOthers(steps[1..], me);
      OthersRun(u, steps[1..], t, me);
    }
  }
}
