/**
 Small updates that keep the lifecycle invariant. Every step of the lifecycle is a
 composition of a few of them.
 */
module LifecycleFrames {
  import opened Common
  import opened Lifecycle
  import opened LifecycleInvariant

  // ---------------------------------------------------------------- reading the invariant

  lemma TheActor(s: State, id: ActorId)
    requires Inv(s) && id in s.agent.actors
    ensures id < s.agent.nextActor && ActorOk(s, id, s.agent.actors[id])
  { hide ActorOk, RecordOk, HolderOk, TableOk, HistoryOk; }

  lemma TheRecord(s: State, n: Name)
    requires Inv(s) && n in s.disk.records
    ensures RecordOk(s, n, s.disk.records[n])
    ensures forall m :: m in s.disk.records ==> m == n
  { hide ActorsOk, RecordOk, HolderOk, TableOk, HistoryOk; }

  lemma TheHolder(s: State)
    requires Inv(s)
    ensures HolderOk(s)
  { hide ActorsOk, RecordsOk, HolderOk, TableOk, HistoryOk, WorldOk; }

  /** What the operation inside the stop critical section knows. */
  lemma TheStop(s: State)
    requires Inv(s) && s.agent.holder.StopAt?
    ensures var h := s.agent.holder; var n := h.res.id.name;
      && h.owner !in s.agent.actors && h.owner < s.agent.nextActor && NextOk(s, h.owner, n, h.next)
      && n in s.disk.records && s.disk.records[n] == h.res && h.res.status == Stopping
      && StopPcOk(s, h.spc, h.res) && RecordOk(s, n, h.res)
  { hide Inv, RecordOk, NextOk, StopPcOk; TheHolder(s); TheRecord(s, s.agent.holder.res.id.name); }

  /** What a launch under way knows about its own goroutine. */
  lemma TheLaunch(s: State)
    requires Inv(s) && s.agent.holder.LaunchAt?
    ensures var h := s.agent.holder; var n := h.res.id.name;
      && h.owner !in s.agent.actors && h.owner < s.agent.nextActor
      && (h.kind.Restart? ==> n in s.agent.claims && s.agent.claims[n] == h.owner)
      && h.res.id.role.Head? && h.res.status == Starting && 0 < h.res.launch < s.past.nextLaunch
      && h.res.launch !in s.past.started && h.res.launch !in s.past.fenced
      && (RecordWritten(h.lpc, h.kind) ==> n in s.disk.records && s.disk.records[n] == h.res)
  { hide Inv, LaunchFilesOk, NoNamed; TheHolder(s); }

  lemma TheHistory(s: State)
    requires Inv(s)
    ensures HistoryOk(s) && WorldOk(s)
  { hide ActorsOk, RecordsOk, HolderOk, TableOk, HistoryOk, WorldOk; }

  lemma TheEntry(s: State, n: Name)
    requires Inv(s) && n in s.agent.table
    ensures EntryOk(s, n, s.agent.table[n])
  { hide ActorsOk, RecordsOk, HolderOk, HistoryOk, WorldOk, EntryOk; }

  lemma TheClaims(s: State)
    requires Inv(s)
    ensures ClaimsOk(s)
  { hide ActorsOk, RecordsOk, HolderOk, HistoryOk, WorldOk, TableOk; }

  /** A live launcher belongs to the launch of a head record that is neither
      stopped nor fenced, so nobody is launching, removing or past a fence. */
  lemma ProcOwner(s: State, p: Pid)
    requires Inv(s) && p in s.world.procs
    ensures Owned(s, s.world.procs[p]) && s.world.procs[p] !in s.past.fenced
    ensures s.agent.holder.Free? || s.agent.holder.StopAt?
    ensures s.agent.holder.StopAt? ==> s.agent.holder.spc in {Join, Fence, MarkFailed, MarkStopped}
    ensures s.agent.holder.StopAt? && s.agent.holder.spc == MarkStopped ==> s.agent.holder.res.id.role.Worker?
    ensures forall n :: n in s.disk.records ==>
          HeadLive(s.disk.records[n]) && s.disk.records[n].launch == s.world.procs[p]
  {
    hide ActorsOk, TableOk, RecordOk;
    var n :| n in s.disk.records && HeadLive(s.disk.records[n]) && s.disk.records[n].launch == s.world.procs[p];
  }

  // ---------------------------------------------------------------- frames of the conjuncts

  /** Sources of fresh values and the history only grow, and no process or
      container takes over an identity that was in use. */
  ghost predicate Later(s: State, t: State) {
    && s.disk.clock <= t.disk.clock && s.past.nextLaunch <= t.past.nextLaunch && s.world.nextCid <= t.world.nextCid
    && s.world.nextPid <= t.world.nextPid && s.agent.nextActor <= t.agent.nextActor
    && s.past.started <= t.past.started
    && (forall p :: p in t.world.procs && p < s.world.nextPid ==>
          p in s.world.procs && s.world.procs[p] == t.world.procs[p])
    && (forall c :: c in t.world.containers && c < s.world.nextCid ==>
          c in s.world.containers && s.world.containers[c].node == t.world.containers[c].node)
  }

  /** What a goroutine relies on about the record it read. */
  predicate RecordKept(s: State, t: State, a: Actor, n: Name) {
    || (n in s.disk.records && n in t.disk.records && s.disk.records[n] == t.disk.records[n])
    || (n !in s.disk.records && n !in t.disk.records)
    || (!RestartPending(a) && (n in t.disk.records ==> s.disk.clock <= t.disk.records[n].stamp))
    || (n in s.disk.records && n in t.disk.records && s.disk.clock <= t.disk.records[n].stamp
        && SameGeneration(s.disk.records[n], t.disk.records[n])
        && s.disk.records[n].topology == t.disk.records[n].topology
        && (a.RestartWanted? ==> t.disk.records[n].status == Stopped || s.disk.records[n].status != Stopped))
  }

  function NameOf(a: Actor): Name {
    match a
    case Waiting(n, l, pid) => n
    case Waited(n, l, clean) => n
    case StopWanted(n, bound, next) => n
    case Reconciling(e) => e.id.name
    case Inspecting(pass, e, h) => e.id.name
    case CasWanted(e, u) => e.id.name
    case FenceWanted(e) => e.id.name
    case ReadyWanted(e) => e.id.name
    case RestartWanted(r) => r.id.name
    case RemoveWanted(r) => r.id.name
  }

  predicate ClaimKept(s: State, t: State, id: ActorId, n: Name) {
    n in s.agent.claims && s.agent.claims[n] == id ==> n in t.agent.claims && t.agent.claims[n] == id
  }

  lemma ActorFrame(s: State, t: State, id: ActorId, a: Actor)
    requires Later(s, t) && ActorOk(s, id, a)
    requires ClaimKept(s, t, id, NameOf(a))
    requires RecordKept(s, t, a, NameOf(a))
    ensures ActorOk(t, id, a)
  { }

  lemma RecordFrame(s: State, t: State, n: Name, r: Record)
    requires Later(s, t) && RecordOk(s, n, r) && t.world.containers == s.world.containers
    requires HeadLive(r) ==>
          t.past.nextLaunch == s.past.nextLaunch && t.disk.env == s.disk.env && t.disk.transports == s.disk.transports
    requires s.past.fenced <= t.past.fenced && t.past.released == s.past.released
    ensures RecordOk(t, n, r)
  { }

  lemma OwnedFrame(s: State, t: State)
    requires forall n ::
      n in s.disk.records && HeadLive(s.disk.records[n]) && s.disk.records[n].launch !in t.past.fenced ==>
      n in t.disk.records && HeadLive(t.disk.records[n]) && t.disk.records[n].launch == s.disk.records[n].launch
    ensures forall l :: Owned(s, l) && l !in t.past.fenced ==> Owned(t, l)
  { }

  /** The disk, the containers and the history stay as they are. */
  predicate SameDisk(s: State, t: State) {
    && t.disk.records == s.disk.records && t.disk.env == s.disk.env && t.disk.transports == s.disk.transports
    && t.disk.clock == s.disk.clock
    && t.world.containers == s.world.containers && t.world.nextCid == s.world.nextCid
    && t.past.nextLaunch == s.past.nextLaunch && t.past.started == s.past.started && t.past.fenced == s.past.fenced
    && t.past.released == s.past.released
  }

  lemma DiskFrame(s: State, t: State)
    requires SameDisk(s, t) && Singleton(s) && RecordsOk(s) && HistoryOk(s)
    ensures Singleton(t) && RecordsOk(t) && HistoryOk(t)
  {
    forall n | n in t.disk.records ensures RecordOk(t, n, t.disk.records[n]) {
      assert RecordOk(s, n, s.disk.records[n]);
      hide HistoryOk;
    }
    OwnedFrame(s, t);
  }

  lemma ActorsFrame(s: State, t: State, changed: set<ActorId>)
    requires Later(s, t) && ActorsOk(s)
    requires forall i :: i in t.agent.actors && i !in changed ==>
          i in s.agent.actors && s.agent.actors[i] == t.agent.actors[i]
    requires forall i :: i in t.agent.actors && i !in changed ==> ClaimKept(s, t, i, NameOf(t.agent.actors[i]))
    requires forall i :: i in t.agent.actors && i !in changed ==>
          RecordKept(s, t, t.agent.actors[i], NameOf(t.agent.actors[i]))
    requires forall i :: i in t.agent.actors && i in changed ==>
          i < t.agent.nextActor && ActorOk(t, i, t.agent.actors[i])
    ensures ActorsOk(t)
  {
    forall i | i in t.agent.actors ensures i < t.agent.nextActor && ActorOk(t, i, t.agent.actors[i]) {
      if i !in changed { ActorFrame(s, t, i, s.agent.actors[i]); }
    }
  }

  predicate Watched(s: State, id: ActorId) {
    && id in s.agent.actors && (s.agent.actors[id].Waiting? || s.agent.actors[id].Waited?)
    && s.agent.actors[id].name in s.agent.table && s.agent.table[s.agent.actors[id].name].waiter == id
  }

  /** Goroutines that wait for a tabled launcher are untouched. */
  predicate WaitersKept(s: State, t: State) {
    forall id :: id in s.agent.actors && Watched(s, id) ==>
        id in t.agent.actors && t.agent.actors[id] == s.agent.actors[id]
  }

  lemma TableFrame(s: State, t: State)
    requires TableOk(s) && s.past.started <= t.past.started && WaitersKept(s, t)
    requires forall n :: n in t.agent.table ==> n in s.agent.table && t.agent.table[n] == s.agent.table[n]
    ensures TableOk(t)
  {
    forall n | n in t.agent.table ensures EntryOk(t, n, t.agent.table[n]) { assert EntryOk(s, n, s.agent.table[n]); }
  }

  lemma HolderFrame(s: State, t: State)
    requires SameDisk(s, t) && HolderOk(s) && t.agent.holder == s.agent.holder && s.agent.nextActor <= t.agent.nextActor
    requires forall id :: id in t.agent.actors && id !in s.agent.actors ==>
          s.agent.holder.Free? || s.agent.holder.owner != id
    requires s.agent.holder.StopAt? ==> ClaimKept(s, t, s.agent.holder.owner, s.agent.holder.res.id.name)
    requires s.agent.holder.LaunchAt? ==> ClaimKept(s, t, s.agent.holder.owner, s.agent.holder.res.id.name)
    requires s.agent.holder.RemoveAt? ==> ClaimKept(s, t, s.agent.holder.owner, s.agent.holder.name)
    requires s.agent.holder.LaunchAt? && s.agent.holder.kind.Create? ==>
      forall id :: id in t.agent.actors && RestartPending(t.agent.actors[id]) ==>
          id in s.agent.actors && RestartPending(s.agent.actors[id])
    ensures HolderOk(t)
  { }

  lemma WorldFrame(s: State, t: State)
    requires WorldOk(s) && t.world.procs == s.world.procs && t.world.containers == s.world.containers
    requires s.world.nextPid <= t.world.nextPid && s.world.nextCid <= t.world.nextCid
    requires s.past.started <= t.past.started && t.past.fenced == s.past.fenced
    ensures WorldOk(t)
  { }

  // ---------------------------------------------------------------- updates

  lemma KeepHolder(s: State, t: State)
    requires Inv(s) && t == Hold(s, t.agent.holder) && HolderOk(t)
    ensures Inv(t)
  {
    hide HolderOk, Singleton, RecordsOk, HistoryOk, WorldOk, ActorsOk, TableOk;
    DiskFrame(s, t);
    WorldFrame(s, t);
    ActorsFrame(s, t, {});
    TableFrame(s, t);
  }

  lemma KeepFree(s: State)
    requires Inv(s)
    ensures Inv(Hold(s, Free))
  { hide Inv; KeepHolder(s, Hold(s, Free)); }

  /** One goroutine appeared or moved on, without touching anything else. */
  lemma KeepLocal(s: State, id: ActorId, a: Actor, t: State)
    requires Inv(s) && t == s.(agent := s.agent.(actors := s.agent.actors[id := a], nextActor := t.agent.nextActor))
    requires s.agent.nextActor <= t.agent.nextActor
    requires id < t.agent.nextActor && ActorOk(s, id, a)
    requires s.agent.holder.Free? || (s.agent.holder.owner != id && !RestartPending(a))
    requires !Watched(s, id)
    ensures Inv(t)
  {
    hide HolderOk, Singleton, RecordsOk, HistoryOk, WorldOk, ActorsOk, TableOk, ActorOk;
    assert ClaimsOk(t) by { TheClaims(s); }
    DiskFrame(s, t);
    WorldFrame(s, t);
    ActorFrame(s, t, id, a);
    ActorsFrame(s, t, {id});
    TableFrame(s, t);
    HolderFrame(s, t);
  }

  lemma KeepEnded(s: State, id: ActorId)
    requires Inv(s) && !Watched(s, id)
    ensures Inv(End(s, id))
  {
    hide HolderOk, Singleton, RecordsOk, HistoryOk, WorldOk, ActorsOk, TableOk;
    var t := End(s, id);
    DiskFrame(s, t);
    WorldFrame(s, t);
    ActorsFrame(s, t, {});
    TableFrame(s, t);
    HolderFrame(s, t);
  }

  lemma KeepUntabled(s: State, n: Name)
    requires Inv(s)
    ensures Inv(s.(agent := s.agent.(table := s.agent.table - {n})))
  {
    hide HolderOk, Singleton, RecordsOk, HistoryOk, WorldOk, ActorsOk, TableOk;
    var t := s.(agent := s.agent.(table := s.agent.table - {n}));
    DiskFrame(s, t);
    WorldFrame(s, t);
    ActorsFrame(s, t, {});
    TableFrame(s, t);
    HolderFrame(s, t);
  }

  lemma KeepTabled(s: State, n: Name, e: Entry)
    requires Inv(s) && EntryOk(s, n, e)
    ensures Inv(s.(agent := s.agent.(table := s.agent.table[n := e])))
  {
    var t := s.(agent := s.agent.(table := s.agent.table[n := e]));
    assert TableOk(t) by {
      hide RecordOk, ActorOk, HistoryOk, HolderOk;
      forall m | m in t.agent.table
        ensures EntryOk(t, m, t.agent.table[m])
      {
        if m != n { assert EntryOk(s, m, s.agent.table[m]); }
      }
    }
    hide HolderOk, Singleton, RecordsOk, HistoryOk, WorldOk, ActorsOk, TableOk, EntryOk;
    DiskFrame(s, t);
    WorldFrame(s, t);
    ActorsFrame(s, t, {});
    HolderFrame(s, t);
  }

  lemma KeepClaim(s: State, n: Name)
    requires Inv(s) && n !in s.agent.claims
    ensures Inv(s.(agent := s.agent.(claims := s.agent.claims[n := s.agent.nextActor],
        nextActor := s.agent.nextActor + 1)))
  {
    hide HolderOk, Singleton, RecordsOk, HistoryOk, WorldOk, ActorsOk, TableOk;
    var t := s.(agent := s.agent.(claims := s.agent.claims[n := s.agent.nextActor],
        nextActor := s.agent.nextActor + 1));
    assert ClaimsOk(t) by { TheClaims(s); }
    DiskFrame(s, t);
    WorldFrame(s, t);
    ActorsFrame(s, t, {});
    TableFrame(s, t);
    HolderFrame(s, t);
  }

  lemma KeepUnclaim(s: State, n: Name)
    requires Inv(s) && s.agent.holder.Free? && (n in s.agent.claims ==> s.agent.claims[n] !in s.agent.actors)
    ensures Inv(Unclaim(s, n))
  {
    hide Singleton, RecordsOk, HistoryOk, WorldOk, ActorsOk, TableOk;
    var t := Unclaim(s, n);
    assert ClaimsOk(t) by { TheClaims(s); }
    DiskFrame(s, t);
    WorldFrame(s, t);
    ActorsFrame(s, t, {});
    TableFrame(s, t);
  }

  lemma KeepProcs(s: State, t: State)
    requires Inv(s)
    requires t == s.(world := s.world.(procs := t.world.procs, nextPid := t.world.nextPid))
    requires s.world.nextPid <= t.world.nextPid
    requires forall p :: p in t.world.procs ==>
          p < t.world.nextPid && t.world.procs[p] in t.past.started && t.world.procs[p] !in t.past.fenced
    requires forall p :: p in t.world.procs && p < s.world.nextPid ==>
          p in s.world.procs && s.world.procs[p] == t.world.procs[p]
    ensures Inv(t)
  {
    assert WorldOk(t) by { TheHistory(s); }
    hide HolderOk, Singleton, RecordsOk, HistoryOk, WorldOk, ActorsOk, TableOk;
    DiskFrame(s, t);
    ActorsFrame(s, t, {});
    TableFrame(s, t);
    HolderFrame(s, t);
  }

  lemma KeepCrashed(s: State, ssh: SshPath)
    requires Inv(s)
    ensures Inv(s.(agent := s.agent.(ssh := ssh, table := map[], actors := map[], holder := Free, claims := map[])))
  {
    hide Singleton, RecordsOk, HistoryOk, WorldOk;
    var t := s.(agent := s.agent.(ssh := ssh, table := map[], actors := map[], holder := Free, claims := map[]));
    DiskFrame(s, t);
    WorldFrame(s, t);
  }

  // ---------------------------------------------------------------- containers

  /** Containers may disappear, lose the fixed name, stop or start. */
  predicate Shrunk(s: State, t: State) {
    && t == s.(world := s.world.(containers := t.world.containers))
    && forall c :: c in t.world.containers ==>
         c in s.world.containers
         && t.world.containers[c] == s.world.containers[c].(named := t.world.containers[c].named,
             running := t.world.containers[c].running)
         && (t.world.containers[c].named ==> s.world.containers[c].named)
  }

  lemma ShrunkHolder(s: State, t: State)
    requires Shrunk(s, t) && HolderOk(s)
    ensures HolderOk(t)
  { }

  lemma ShrunkDisk(s: State, t: State)
    requires Shrunk(s, t) && RecordsOk(s) && HistoryOk(s) && Singleton(s) && WorldOk(s)
    ensures RecordsOk(t) && HistoryOk(t) && Singleton(t) && WorldOk(t)
  {
    forall n | n in t.disk.records
      ensures RecordOk(t, n, t.disk.records[n])
    {
      assert RecordOk(s, n, s.disk.records[n]);
    }
    OwnedFrame(s, t);
  }

  lemma KeepShrunk(s: State, t: State)
    requires Inv(s) && Shrunk(s, t)
    ensures Inv(t)
  {
    hide HolderOk, Singleton, RecordsOk, HistoryOk, WorldOk, ActorsOk, TableOk;
    assert Later(s, t) by { TheHistory(s); }
    ShrunkDisk(s, t);
    ShrunkHolder(s, t);
    ActorsFrame(s, t, {});
    TableFrame(s, t);
  }

  predicate Grown(s: State, t: State) {
    && t == s.(world := s.world.(containers := t.world.containers, nextCid := s.world.nextCid + 1))
    && t.world.containers.Keys == s.world.containers.Keys + {s.world.nextCid}
    && forall c :: c in s.world.containers ==> c < s.world.nextCid && t.world.containers[c] == s.world.containers[c]
  }

  lemma GrownRecord(s: State, t: State, n: Name, r: Record)
    requires Grown(s, t) && RecordOk(s, n, r) && HeadLive(r)
    ensures RecordOk(t, n, r)
  { }

  lemma GrownHolder(s: State, t: State)
    requires Grown(s, t) && HolderOk(s)
    requires s.agent.holder.Free? || s.agent.holder.StopAt?
    requires s.agent.holder.StopAt? ==> s.agent.holder.spc in {Join, Fence, MarkFailed, MarkStopped}
    requires s.agent.holder.StopAt? && s.agent.holder.spc == MarkStopped ==> s.agent.holder.res.id.role.Worker?
    ensures HolderOk(t)
  { }

  lemma GrownDisk(s: State, t: State)
    requires Grown(s, t) && RecordsOk(s) && HistoryOk(s) && Singleton(s) && WorldOk(s)
    requires forall n :: n in s.disk.records ==> HeadLive(s.disk.records[n])
    ensures RecordsOk(t) && HistoryOk(t) && Singleton(t) && WorldOk(t)
  {
    assert WorldOk(t) by { hide RecordOk, HistoryOk; }
    forall n | n in t.disk.records
      ensures RecordOk(t, n, t.disk.records[n])
    {
      GrownRecord(s, t, n, s.disk.records[n]);
    }
    OwnedFrame(s, t);
  }

  lemma KeepGrown(s: State, p: Pid, t: State)
    requires Inv(s) && p in s.world.procs && Grown(s, t)
    ensures Inv(t)
  {
    hide HolderOk, Singleton, RecordsOk, HistoryOk, WorldOk, ActorsOk, TableOk;
    ProcOwner(s, p);
    assert Later(s, t) by { TheHistory(s); }
    GrownDisk(s, t);
    GrownHolder(s, t);
    ActorsFrame(s, t, {});
    TableFrame(s, t);
  }

  // ---------------------------------------------------------------- records

  /** No restart call stands between its first read of `n` and its launch. */
  predicate NoRestart(s: State, n: Name) {
    forall id :: id in s.agent.actors && RestartPending(s.agent.actors[id]) ==> NameOf(s.agent.actors[id]) != n
  }

  lemma RecordsAfterWrite(s: State, r: Record)
    requires Singleton(s) && RecordsOk(s) && (r.id.name in s.disk.records || s.disk.records == map[])
    requires RecordOk(Write(s, r), r.id.name, r.(stamp := s.disk.clock))
    ensures Singleton(Write(s, r)) && RecordsOk(Write(s, r))
  { }

  lemma HistoryAfterWrite(s: State, r: Record)
    requires HistoryOk(s) && Singleton(s) && (r.id.name in s.disk.records || s.disk.records == map[])
    requires
      r.id.name in s.disk.records && HeadLive(s.disk.records[r.id.name])
      && s.disk.records[r.id.name].launch !in s.past.fenced ==>
        HeadLive(r) && r.launch == s.disk.records[r.id.name].launch
    ensures HistoryOk(Write(s, r))
  { OwnedFrame(s, Write(s, r)); }

  /** The record of `r`'s name is replaced while the lock is otherwise free. */
  lemma KeepWrite(s: State, r: Record)
    requires Inv(s) && s.agent.holder.Free? && (r.id.name in s.disk.records || s.disk.records == map[])
    requires RecordOk(Write(s, r), r.id.name, r.(stamp := s.disk.clock))
    requires
      r.id.name in s.disk.records && HeadLive(s.disk.records[r.id.name])
      && s.disk.records[r.id.name].launch !in s.past.fenced ==>
        HeadLive(r) && r.launch == s.disk.records[r.id.name].launch
    requires NoRestart(s, r.id.name)
             || (r.id.name in s.disk.records && SameGeneration(r, s.disk.records[r.id.name])
                 && r.topology == s.disk.records[r.id.name].topology
                 && (s.disk.records[r.id.name].status == Stopped ==> r.status == Stopped))
    ensures Inv(Write(s, r))
  {
    hide Singleton, RecordsOk, RecordOk, HistoryOk, WorldOk, ActorsOk, TableOk;
    var t := Write(s, r);
    RecordsAfterWrite(s, r);
    HistoryAfterWrite(s, r);
    WorldFrame(s, t);
    assert s.disk.records == map[] ==> forall n :: n in t.disk.records ==> n == r.id.name;
    ActorsFrame(s, t, {});
    TableFrame(s, t);
  }

  lemma KeepDeleted(s: State, n: Name)
    requires Inv(s) && s.agent.holder.Free? && n in s.disk.records && NoRestart(s, n)
    requires HeadLive(s.disk.records[n]) ==>
          s.disk.records[n].launch !in s.past.started || s.disk.records[n].launch in s.past.fenced
    ensures Inv(s.(disk := s.disk.(records := s.disk.records - {n}))) && s.disk.records - {n} == map[]
  {
    var t := s.(disk := s.disk.(records := s.disk.records - {n}));
    TheRecord(s, n);
    assert t.disk.records == map[];
    assert HistoryOk(t) by { TheHistory(s); }
    hide Singleton, RecordsOk, RecordOk, HistoryOk, WorldOk, ActorsOk, TableOk;
    assert Singleton(t) && RecordsOk(t) by { assert t.disk.records == map[]; EmptyRecords(t); }
    WorldFrame(s, t);
    ActorsFrame(s, t, {});
    TableFrame(s, t);
  }

  lemma EmptyRecords(s: State)
    requires s.disk.records == map[]
    ensures Singleton(s) && RecordsOk(s)
  { }

  lemma KeepFiles(s: State, t: State)
    requires Inv(s) && s.agent.holder.Free?
    requires t == s.(disk := s.disk.(env := t.disk.env, transports := t.disk.transports))
    requires forall n :: n in s.disk.records ==> !HeadLive(s.disk.records[n])
    ensures Inv(t)
  {
    assert RecordsOk(t) && Singleton(t) && HistoryOk(t) by {
      hide WorldOk, ActorsOk, TableOk, RecordOk;
      forall n | n in t.disk.records
        ensures RecordOk(t, n, t.disk.records[n])
      {
        RecordFrame(s, t, n, s.disk.records[n]);
      }
      OwnedFrame(s, t);
    }
    hide Singleton, RecordsOk, RecordOk, HistoryOk, WorldOk, ActorsOk, TableOk;
    WorldFrame(s, t);
    ActorsFrame(s, t, {});
    TableFrame(s, t);
  }

  lemma KeepFreshLaunch(s: State)
    requires Inv(s) && s.agent.holder.Free? && forall n :: n in s.disk.records ==> !HeadLive(s.disk.records[n])
    ensures Inv(s.(past := s.past.(nextLaunch := s.past.nextLaunch + 1)))
  {
    var t := s.(past := s.past.(nextLaunch := s.past.nextLaunch + 1));
    assert RecordsOk(t) && Singleton(t) && HistoryOk(t) by {
      hide WorldOk, ActorsOk, TableOk, RecordOk;
      forall n | n in t.disk.records
        ensures RecordOk(t, n, t.disk.records[n])
      {
        RecordFrame(s, t, n, s.disk.records[n]);
      }
      OwnedFrame(s, t);
    }
    hide Singleton, RecordsOk, RecordOk, HistoryOk, WorldOk, ActorsOk, TableOk;
    WorldFrame(s, t);
    ActorsFrame(s, t, {});
    TableFrame(s, t);
  }

  // ---------------------------------------------------------------- history

  lemma FencedDisk(s: State, t: State, l: LaunchId)
    requires t == Fenced(s, l) && l < s.past.nextLaunch
    requires RecordsOk(s) && HistoryOk(s) && Singleton(s) && WorldOk(s)
    ensures RecordsOk(t) && HistoryOk(t) && Singleton(t) && WorldOk(t)
  {
    hide RecordOk;
    forall n | n in t.disk.records
      ensures RecordOk(t, n, t.disk.records[n])
    {
      assert RecordOk(s, n, s.disk.records[n]);
      RecordFrame(s, t, n, s.disk.records[n]);
    }
    OwnedFrame(s, t);
  }

  lemma FencedHolder(s: State, t: State, l: LaunchId)
    requires t == Fenced(s, l) && HolderOk(s)
    requires s.agent.holder.LaunchAt? ==> s.agent.holder.res.launch != l
    ensures HolderOk(t)
  { }

  lemma KeepFence(s: State, l: LaunchId, t: State)
    requires Inv(s) && l < s.past.nextLaunch && t == Fenced(s, l)
    requires s.agent.holder.LaunchAt? ==> s.agent.holder.res.launch != l
    ensures Inv(t)
  {
    hide HolderOk, Singleton, RecordsOk, HistoryOk, WorldOk, ActorsOk, TableOk;
    FencedDisk(s, t, l);
    FencedHolder(s, t, l);
    ActorsFrame(s, t, {});
    TableFrame(s, t);
  }

  lemma KeepReleased(s: State, n: Name, t: State)
    requires Inv(s) && s.agent.holder.Free? && n in s.disk.records && HeadStopped(s.disk.records[n])
    requires Clean(s, s.disk.records[n])
    requires t == s.(past := s.past.(released := s.past.released + {s.disk.records[n].launch}))
    ensures Inv(t)
  {
    TheRecord(s, n);
    TheHistory(s);
    assert RecordsOk(t) && Singleton(t) && HistoryOk(t) && WorldOk(t) by {
      hide ActorsOk, TableOk;
      assert RecordOk(t, n, t.disk.records[n]);
      OwnedFrame(s, t);
    }
    hide Singleton, RecordsOk, RecordOk, HistoryOk, WorldOk, ActorsOk, TableOk;
    ActorsFrame(s, t, {});
    TableFrame(s, t);
  }

  lemma KeepStarted(s: State, n: Name, t: State)
    requires Inv(s) && s.agent.holder.Free? && n in s.disk.records && HeadLive(s.disk.records[n])
    requires t == s.(past := s.past.(started := s.past.started + {s.disk.records[n].launch}))
    ensures Inv(t)
  {
    TheRecord(s, n);
    TheHistory(s);
    assert RecordsOk(t) && Singleton(t) && HistoryOk(t) && WorldOk(t) by {
      hide ActorsOk, TableOk;
      assert RecordOk(t, n, t.disk.records[n]);
      OwnedFrame(s, t);
      assert Owned(t, s.disk.records[n].launch);
    }
    hide Singleton, RecordsOk, RecordOk, HistoryOk, WorldOk, ActorsOk, TableOk;
    ActorsFrame(s, t, {});
    TableFrame(s, t);
  }
}
