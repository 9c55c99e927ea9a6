# Verification of the yokai agent

A Dafny model of the parts of yokai that must stay right when processes die, writes
fail and goroutines interleave, with proofs. `dafny verify dfyconfig.toml` checks it all.

## What is modelled

**The TensorFold launch lifecycle** (`Lifecycle*.dfy`, `Manager.dfy`). One agent owns
resource records, one rendered `.env`, a transport directory per launch, an
in-memory table of launcher processes, and two containers of a fixed name, one on each
node. `Lifecycle` is a transition system over that state: each durable write, each
observation and each short critical section is a step, and so are a launcher that forks,
exits or creates a container, anything Docker does to a container, and an agent crash,
which may fall between any two steps and loses all memory. `LifecycleInvariant` holds the
inductive invariant, `LifecycleSteps` its preservation by every step, `LifecycleProgress`
what every step does to two consecutive states, and `LifecycleTheorems` and
`LifecycleActors` the guarantees over whole runs. `LifecycleInterference` says what
goroutines can do to each other, `LifecycleFencePath` exactly when the fence path leaves
no container, `LifecycleLimits` where the code relies on more than it checks, and
`LifecycleWitnesses` gives runs from a first start that get there. `Manager` is the code
itself as a class: its methods read and assign the files, the process table and the
containers in the order the Go methods do, and follow the transition system step by step
(`Valid` says the trace so far is a run of it); `ManagerFacts` holds what they need to know
about single steps. The constant `calm` says that writes and external commands succeed and
that nobody else touches a process or a container for now: what holds without it holds in
every stretch, and what holds with it says that the agent then gets its work done. In
between, others act: `StepWithoutLock`
and `StepOfOthers` promise no more than that what happened was a run of steps that need no
lock, or of anybody else's steps, and what a method may rely on afterwards follows from
the lemmas about such runs.

The lifecycle theorems hold under these assumptions, all of them built into the steps:

- launch IDs are never drawn twice, and record stamps (`UpdatedAt`) are unique;
- only launcher processes create containers under the fixed name, Docker refuses a
  second one on a node, and a container is created under the marker of its launcher;
- a fence that succeeds is one moment at which no process carries the marker;
- a file is replaced in one step (the code writes a temporary file and renames it);
- `stop.sh` removes containers only if they hold the fixed name (the script is not part
  of this model);
- `restart` and `remove` calls for one name do not overlap (`Disciplined`). The code does
  not enforce this: `restart` goes on with a record it read before it took the lock, and
  `OverlappingRestartsLaunchTwice` shows two overlapping calls leaving two live launches
  (`OverlapLaunchesTwice` does so from a first start).

**Patch bootstraps** (`QwenBootstrap.dfy`, `SglangPatch.dfy`). Two programs rewrite
hash-pinned files in a container before they start the server. Equal digests are taken to
mean equal contents, each file copy is one step, and the container may die between any
two. The parameter `calm` of a method says that it does not die this time and that an
external tool which finds its inputs writes its pinned outputs; without it anything may
fail. A source that is
itself half-written is outside "pristine or patched": every later start then refuses and
changes nothing (`UnacceptableForever`).

**Barriers and the deployment journal** (`Barriers.dfy`, `Store.dfy`). Name-keyed
operation barriers with the handlers that wait on them, the one-token admission lock, and
the journal whose writes fail before or after the rename.

**Byte-level algorithms** (`TailWriter.dfy`, `LogBounds.dfy`, `ShellQuote.dfy`,
`ResourceNames.dfy`, `PageCache.dfy`). The in-place log window, line and UTF-8 bounding,
quoting for the worker's shell, printing and matching resource names, and the page-cache
release loops.

## Where the code does less than one might expect

- *Stoppability.* A head that is not stopped passes the pre-stop source check exactly when
  its transport wrapper names the ssh executable the agent resolved
  (`SourceCheckExactly`). Agent restarts that resolve the same one keep every stop possible
  (`StopIsNeverWedged`); one that resolves another wedges it (`AnotherSshWedgesStop`,
  reached in `AnotherSshIsReached`).
- *Fence path.* `fenceAndMarkStopped` looks for containers before it fences, so a launcher
  may create one in between and the record still reads "stopped"
  (`FencePathMayLeaveContainer`, reached in `FencePathLeavesContainer`). When its checks
  pass, every way of getting to its mark leaves both nodes clean exactly when no process of
  the launch is alive and both nodes are clean beforehand (`FencePathCleanExactly`); no
  launcher at the first look is enough (`FencePathCleanWithoutLauncher`).
- *SGLang patch.* The bootstrap replaces the first occurrence of the old line as bytes, not
  as a line. A source whose versions differ in that one line is accepted exactly when the
  old line does not also occur inside an earlier line (`OneLinePatchExactly`).
- *Member delete.* A launch registers the normalized container name; a delete waits under
  the raw `name` of its query. The delete is held back exactly when the two are equal
  (`DeleteIsHeldExactly`).
- *Journal.* `cloneDeployment` drops the error of `json.Marshal`, so a deployment whose
  `CreatedAt` no RFC 3339 text can hold becomes a blank entry with the empty ID. IDs stay
  distinct exactly when that does not meet another blank entry
  (`PutKeepsIdsDistinctExactly`, `UnencodablePutsCollide`). The engine, the only writer,
  takes `CreatedAt` from the clock, so this needs a clock beyond the year 9999.

## Model

| member | source | states |
|---|---|---|
| LifecycleSteps.StepKeeps | internal/agent/tensorfold_recipe.go:198-825 | every step of create, stop, reconcile, observe, probe, restart, remove, the waiter and the environment keeps the lifecycle invariant |
| LifecycleSteps.RunKeeps | internal/agent/tensorfold_recipe.go:198-825 | the invariant holds after every run, agent crashes at any point included |
| LifecycleProgress.StepOnward | internal/agent/tensorfold_recipe.go:1181-1219 | every step only moves forward: stamps and launch IDs grow, no fenced launch gets a process, a container appears only from a live launcher |
| LifecycleTheorems.ReservationIsExclusive | internal/agent/tensorfold_recipe.go:1281-1300 | at most one resource record per node in every reachable state |
| LifecycleTheorems.DeletionFollowsFence | internal/agent/tensorfold_recipe.go:633-666 | a head record is deleted only if its launcher never started or exactly that launch has been fenced |
| LifecycleTheorems.OnlyDrops | internal/agent/tensorfold_recipe.go:255-256 | records are deleted by create's undo and by remove, nowhere else |
| LifecycleTheorems.OneLaunchAtATime | internal/agent/tensorfold_recipe.go:206-273 | all live launcher processes belong to one launch, that of the only, non-stopped, record |
| LifecycleTheorems.StopIsComplete | internal/agent/tensorfold_recipe.go:298-372 | when stop writes "stopped" for a head, its launch is fenced, no process carries a marker, and neither node holds the fixed name or a recorded container ID |
| LifecycleTheorems.StopStaysComplete | internal/agent/tensorfold_recipe.go:298-372 | that stays true through any run until a new launch ID is drawn |
| LifecycleTheorems.SpentForever | internal/agent/tensorfold_recipe.go:380-393 | a fenced launch never has a live process again and never creates another container |
| LifecycleTheorems.StoppedMeansFenced | internal/agent/tensorfold_recipe.go:484-603 | a head record reading "stopped" by either path, in any run with crashes, belongs to a fenced launch, then and later |
| LifecycleTheorems.FencedOnlyByFence | internal/agent/tensorfold_recipe.go:385-393 | a launch counts as fenced only after a successful fence of that very launch, and then no process carries it |
| LifecycleTheorems.SourceCheckExactly | internal/agent/tensorfold_recipe.go:944-973 | in every reachable state the pre-stop source check of a non-stopped head passes if and only if its wrapper names the current ssh executable |
| LifecycleTheorems.WrappersStayCurrent | internal/agent/tensorfold_recipe.go:1031-1069 | wrappers stay current through runs whose restarts resolve the same ssh executable |
| LifecycleTheorems.StopIsNeverWedged | internal/agent/tensorfold_recipe.go:236-256 | in such runs no crash point leaves a non-stopped head that stop would refuse at its source check |
| LifecycleActors.StaleActorIsHarmless | internal/agent/tensorfold_recipe.go:285-296 | a waiter, reconciler, observer or prober bound to launch L changes no record and no process of another launch and touches no container; a stop it enters is a stop of L |
| LifecycleActors.StopTouchesItsLaunch | internal/agent/tensorfold_recipe.go:298-372 | inside stop only records and processes of the stopped launch change |
| LifecycleActors.StampIsGone | internal/agent/tensorfold_recipe.go:1181-1219 | a replaced record stamp never comes back |
| LifecycleActors.StampedIsSame | internal/agent/tensorfold_recipe.go:1181-1219 | while a stamp is in force the whole record is the one that was read |
| LifecycleActors.CompareSawEveryWrite | internal/agent/tensorfold_recipe.go:672-687 | a compare-and-write that succeeds had no other write of the record since its read |
| LifecycleActors.OnlyStopRemoves | internal/agent/tensorfold_recipe.go:338-346 | the agent changes containers only in the removal of a stop |
| LifecycleActors.NamedAreOwned | internal/agent/tensorfold_recipe.go:317-337 | when stop reaches its removal every container under the fixed name is wholly the record's own |
| LifecycleActors.RemovalIsExact | internal/agent/tensorfold_probe.go:146-255 | whatever container the agent stops or removes carries the record's launch ID, pinned policy, rank and recorded container ID |
| LifecycleActors.MismatchProtectsBothNodes | internal/agent/tensorfold_recipe.go:317-328 | while a container that is not the record's own holds the fixed name on either node nothing is removed on any node |
| LifecycleActors.UnnamedIsRefused | internal/agent/tensorfold_probe.go:153-168 | no inspection answers while the recorded container ID exists without the fixed name |
| LifecycleActors.RecordedWithoutNameRemovesNothing | internal/agent/tensorfold_recipe.go:317-328 | a stop that has yet to look at such a container's node never gets to its removal, and nothing is removed on any node |
| LifecycleActors.JoinCanFinish | internal/agent/tensorfold_recipe.go:395-420 | a join that waits for `done` never needs the lock to be released: the waiter can close it and the join completes |
| LifecycleActors.JoinerTakesEntry | internal/agent/tensorfold_recipe.go:401-415 | after the joiner removed a launch's table entry, with or without an error, no entry is watched by its waiter |
| LifecycleActors.JoinedWaiterWritesNothing | internal/agent/tensorfold_recipe.go:797-813 | the waiter of a joined launch, however late and even if the join reported an error, only ends |
| LifecycleActors.WaiterTakesEntry | internal/agent/tensorfold_recipe.go:802-806 | a waiter that comes first removes the entry itself |
| LifecycleActors.OrphanPassExactly | internal/agent/tensorfold_recipe.go:543-577 | the orphan pass on the observations alone: "running" if and only if both containers run, the stop of exactly the generation read if and only if one is there without both running, the fence if and only if neither is there |
| LifecycleInterference.LocklessRun | internal/agent/tensorfold_recipe.go:275-298 | whatever runs without the lock leaves files, lock, history and the holder's goroutine alone, and table entries may only become done |
| LifecycleInterference.LockExcludes | internal/agent/tensorfold_recipe.go:275-298 | while the lock is held the only possible steps are its holder's, those that need no lock, and a crash |
| LifecycleInterference.OthersKeepActor | internal/agent/tensorfold_recipe.go:765-795 | nobody acts for a goroutine but itself, short of a crash |
| LifecycleFencePath.FencePathCleanExactly | internal/agent/tensorfold_recipe.go:550-603 | with the lock free and the checks of the fence path passing, every run to its mark leaves both nodes clean if and only if no process of the launch is alive and both nodes are clean |
| LifecycleFencePath.FencePathCleanWithoutLauncher | internal/agent/tensorfold_recipe.go:547-603 | no process of the launch at the first inspection, both inspections empty and the record still current: then both nodes are clean after the mark, whatever ran in between |
| LifecycleFencePath.MarksOverContainer | internal/agent/tensorfold_recipe.go:550-603 | a live launcher can always get a container in before the mark |
| LifecycleLimits.OverlappingRestartsLaunchTwice | internal/agent/tensorfold_handlers.go:331-386 | two overlapping restarts of a stopped head leave two unfenced launches alive |
| LifecycleLimits.FencePathMayLeaveContainer | internal/agent/tensorfold_recipe.go:550-603 | a run in which the fence path writes "stopped" over a container |
| LifecycleLimits.AnotherSshWedgesStop | internal/agent/tensorfold_recipe.go:944-990 | after an agent restart with another ssh executable no run releases that launch through the stop path |
| LifecycleWitnesses.FencePathLeavesContainer | internal/agent/tensorfold_recipe.go:484-603 | a run from a first start ends with "stopped" over a named container of the launch |
| LifecycleWitnesses.OverlapLaunchesTwice | internal/agent/tensorfold_handlers.go:331-386 | a run from a first start with overlapping restarts ends with two launches alive |
| LifecycleWitnesses.AnotherSshIsReached | internal/agent/tensorfold_recipe.go:944-990 | a run from a first start ends with a live head that no later stop can release |
| Manager.TensorFoldManager.constructor | internal/agent/tensorfold_recipe.go:162-176 | a first start satisfies the invariant |
| Manager.TensorFoldManager.KillAll | internal/agent/tensorfold_fence_linux.go:33-37 | after success none of the listed processes lives, and in a calm stretch exactly those are gone; records, table and lock are left alone |
| Manager.TensorFoldManager.FenceProcesses | internal/agent/tensorfold_fence_linux.go:20-40 | success means that no process carries the marker; in a calm stretch it succeeds, and exactly the processes with the marker are gone |
| Manager.TensorFoldManager.InspectRecipeContainerIdentity | internal/agent/tensorfold_probe.go:146-255 | it answers if and only if docker can be asked and the node holds nothing of the record or one container wholly its own, and then says which |
| Manager.TensorFoldManager.EnsureSingletonReservation | internal/agent/tensorfold_recipe.go:1281-1300 | it passes if and only if no other record exists |
| Manager.TensorFoldManager.WaiterReturns | internal/agent/tensorfold_recipe.go:797-800 | the waiter of an exited launcher closes `done` without the lock and touches nothing else |
| LifecycleActors.WriteMakesReadsStale | internal/agent/tensorfold_recipe.go:1181-1219 | a written record carries a stamp newer than every stored one, and nothing read before the write, however long ago, is current after it |
| Manager.TensorFoldManager.JoinInMemoryLaunch | internal/agent/tensorfold_recipe.go:395-420 | success means that no table entry of this launch is left; in a calm stretch it succeeds and kills only the process of that launch |
| Manager.TensorFoldManager.FenceLauncher | internal/agent/tensorfold_recipe.go:385-393 | success means that the launch is fenced and no process carries its marker; in a calm stretch it succeeds |
| Manager.TensorFoldManager.VerifySource | internal/agent/tensorfold_recipe.go:944-973 | it passes if and only if the checkout verifies and environment, config and wrapper are exactly this launch's |
| Manager.TensorFoldManager.InspectBoth | internal/agent/tensorfold_recipe.go:317-328 | success means that both nodes were seen to hold nothing or the record's own container, which still holds after the second look; in a calm stretch it succeeds if and only if both nodes can be answered for |
| Manager.TensorFoldManager.RecordContainerIds | internal/agent/tensorfold_recipe.go:329-337 | the observed container IDs, and nothing else, are made durable before the removal |
| Manager.TensorFoldManager.EstablishOwnership | internal/agent/tensorfold_recipe.go:306-337 | stop up to its second write; in a calm stretch it gets there if and only if the files match and both nodes hold nothing or the record's own container |
| Manager.TensorFoldManager.RemoveExactRecipeContainer | internal/agent/tensorfold_recipe.go:431-444 | only the inspected container changes, and it is gone on success; a calm stretch succeeds if and only if the container is there and does not run unseen |
| Manager.TensorFoldManager.RunStopScript | internal/agent/tensorfold_recipe.go:338-341 | whatever the script removes held the fixed name |
| Manager.TensorFoldManager.RemoveRecipeContainers | internal/agent/tensorfold_recipe.go:338-351 | nothing but named or inspected containers goes, and nothing at all if both nodes were empty; in a calm stretch both nodes are clean afterwards |
| Manager.TensorFoldManager.RemoveOwned | internal/agent/tensorfold_recipe.go:338-362 | stop from its second write to the absence checks; after two answered inspections a calm stretch always gets through |
| Manager.TensorFoldManager.VerifyRecipeContainerAbsent | internal/agent/tensorfold_recipe.go:446-465 | it passes if and only if docker can be asked and the node holds neither the fixed name nor the recorded ID |
| Manager.TensorFoldManager.VerifyBothAbsent | internal/agent/tensorfold_recipe.go:353-362 | success means that both nodes are free of the fixed name and the recorded IDs at the same moment |
| Manager.TensorFoldManager.Refuse | internal/agent/tensorfold_recipe.go:308-311 | a refusal leaves the record "stopping" or "failed" |
| Manager.TensorFoldManager.ReleaseHead | internal/agent/tensorfold_recipe.go:306-362 | the head part in its order: if it gets to the end, the launch is fenced and neither node holds the fixed name or a recorded ID; in a calm stretch it does so if and only if files and nodes allow it |
| Manager.TensorFoldManager.MarkReleased | internal/agent/tensorfold_recipe.go:363-371 | the last write makes only the status change, and a stopped head is fenced with nothing left |
| Manager.TensorFoldManager.FinishStop | internal/agent/tensorfold_recipe.go:363-371 | the end of every way through a stop: "stopped" if it was verified, otherwise "failed" where that can be written, and no container changes then |
| Manager.TensorFoldManager.BeginStop | internal/agent/tensorfold_recipe.go:275-305 | exactly which of missing, other generation, already stopped, unwritable and stopping applies |
| Manager.TensorFoldManager.StopResource | internal/agent/tensorfold_recipe.go:275-372 | success leaves a stopped record with nothing of any launch left; failure never leaves one reading "stopped". In a calm stretch a stop of a non-stopped head succeeds if and only if its files match and each node holds nothing or its own container, a worker always succeeds, and a stop that fails reads "failed" and leaves every container alone |
| Manager.TensorFoldManager.BeginObserve | internal/agent/tensorfold_recipe.go:765-769 | only a head that is starting or running is looked at |
| Manager.TensorFoldManager.BeginReconcile | internal/agent/tensorfold_recipe.go:500-521 | workers and stopped heads are left alone; a head past its readiness deadline is stopped without a look at its containers |
| Manager.TensorFoldManager.CheckLaunchActive | internal/agent/tensorfold_recipe.go:522-532 | the active pass if and only if the table has a launcher of this launch that is not done, otherwise the orphan pass |
| Manager.TensorFoldManager.Decide | internal/agent/tensorfold_recipe.go:525-577 | exactly when each pass saves, stops or fences: orphan saves iff both containers run, stops iff one is there without both running, fences iff neither is there; the others always save. "running" only when both run, "failed" only by observe, observed IDs kept, nothing else changed |
| Manager.TensorFoldManager.InspectAndDecide | internal/agent/tensorfold_recipe.go:765-795 | the same for the two inspections and whatever happens between them; an inspection that fails changes nothing, and in a calm stretch there is a decision if and only if both nodes can be answered for |
| Manager.TensorFoldManager.BeginProbe | internal/agent/tensorfold_probe.go:32-35 | only a head is probed, and the probe is bound to the record it read |
| Manager.TensorFoldManager.CompareAndWriteResource | internal/agent/tensorfold_recipe.go:672-687 | it writes only over exactly the record that was read, and always does in a calm stretch |
| Manager.TensorFoldManager.FenceAndMarkStopped | internal/agent/tensorfold_recipe.go:581-603 | "stopped" is written only after a fence of that launch; in a calm stretch if and only if the record is the one read and no launcher of it is active, and exactly that launch's processes are gone |
| Manager.TensorFoldManager.MarkLaunchReady | internal/agent/tensorfold_probe.go:113-128 | only the readiness deadline of the probed launch is retired, in a calm stretch whenever it is still recorded |
| Manager.TensorFoldManager.WaiterCleanup | internal/agent/tensorfold_recipe.go:802-817 | a waiter that is no longer in the table changes nothing; one that is removes its entry and takes the record over if and only if that is its launch's and no stop works or has worked on it |
| Manager.TensorFoldManager.WriteExited | internal/agent/tensorfold_recipe.go:810-817 | the record says how the launcher ended, and the waiter goes on to stop that generation whether or not that could be written |
| Manager.TensorFoldManager.RemoveReleased | internal/agent/tensorfold_recipe.go:641-666 | a record goes away only when it reads "stopped" for the generation read, after its fence; in a calm stretch if and only if it does, and the transport of a head with it |
| Manager.TensorFoldManager.WriteLaunchFiles | internal/agent/tensorfold_recipe.go:240-245 | environment, config and wrapper are all in place before the record, so that the source check of a later stop would pass; always so in a calm stretch |
| Manager.TensorFoldManager.WriteStartingRecord | internal/agent/tensorfold_recipe.go:246-251 | the record is written with a fresh stamp or not at all |
| Manager.TensorFoldManager.OpenLaunchLog | internal/agent/tensorfold_recipe.go:252-257 | what the caller says of log and undo: a failed create takes its record back if the undo succeeds, a failed restart never does |
| Manager.TensorFoldManager.RegisterLauncher | internal/agent/tensorfold_recipe.go:258-271 | the launcher, its table entry and its waiter name the same launch |
| Manager.TensorFoldManager.RecordFailedStart | internal/agent/tensorfold_recipe.go:259-264 | a failed start leaves no process and no table entry, and "failed" in the record if it can be written |
| Manager.TensorFoldManager.StartRecipe | internal/agent/tensorfold_recipe.go:258-272 | a started launcher with its record, files and table entry, or a launch that never started; started in a calm stretch |
| Manager.TensorFoldManager.VerifyHeadLaunchBoundary | internal/agent/tensorfold_handlers.go:312-329 | it passes only if neither node holds the fixed name; docker, images and fabric may fail it, but not in a calm stretch |
| Manager.TensorFoldManager.CreateWorker | internal/agent/tensorfold_recipe.go:228-233 | a worker is a reservation only: refused if and only if the node is reserved |
| Manager.TensorFoldManager.CreateHead | internal/agent/tensorfold_recipe.go:198-273 | refused if and only if the node is reserved; a failed check changes nothing; success leaves exactly one record with its files and launcher; otherwise no process of the new launch exists. In a calm stretch an unreserved create starts if and only if neither node holds the fixed name |
| Manager.TensorFoldManager.RequestStop | internal/agent/tensorfold_recipe.go:275-283 | a stop by name is bound to no generation |
| Manager.TensorFoldManager.BeginRestart | internal/agent/tensorfold_handlers.go:331-340 | a stopped record goes straight to its relaunch, any other through a stop first |
| Manager.TensorFoldManager.BeginRemove | internal/agent/tensorfold_recipe.go:633-642 | a stopped record goes straight to its removal, any other through a stop first |
| Manager.TensorFoldManager.RestartWorker | internal/agent/tensorfold_handlers.go:341-346 | a worker reservation reads "running" again and nothing else changes |
| Manager.TensorFoldManager.RestartHead | internal/agent/tensorfold_handlers.go:348-386 | a relaunch under a new launch ID: a failed check changes nothing; success leaves the record "starting", without container IDs, with a new readiness deadline, its files and its launcher; otherwise no process of the new launch exists. In a calm stretch it starts if and only if neither node holds the fixed name |
| QwenBootstrap.RerunsConverge | internal/agent/runtime_patch_qwen38.go:260-301 | from any acceptable state, whatever crashes happen, no start is refused and every start that reaches the server does so in one and the same state |
| QwenBootstrap.UnacceptableForever | internal/agent/runtime_patch_qwen38.go:260-270 | any other state is refused by every start and never changed |
| QwenBootstrap.Container.Preflight | internal/agent/runtime_patch_qwen38.go:256-270 | it passes if and only if every source is pristine or patched, every backup pristine, a backup stands behind every patched source, and the mounts match |
| QwenBootstrap.Container.BackUp | internal/agent/runtime_patch_qwen38.go:271-275 | a crash leaves an acceptable state; success leaves five pristine backups |
| QwenBootstrap.Container.PrepareWork | internal/agent/runtime_patch_qwen38.go:276-278 | the work directory holds exactly the Python assets |
| QwenBootstrap.Container.StageOriginal | internal/agent/runtime_patch_qwen38.go:281-281 | a tool's input is the pristine backup |
| QwenBootstrap.Container.RunTool | internal/agent/runtime_patch_qwen38.go:282-283 | a tool adds its pinned outputs when nothing goes wrong and it finds itself and its inputs in the work directory |
| QwenBootstrap.Container.Install | internal/agent/runtime_patch_qwen38.go:279-279 | only verified contents replace a live source |
| QwenBootstrap.Container.PatchModelOpt | internal/agent/runtime_patch_qwen38.go:281-285 | source 1 patched, or an acceptable state; patched when nothing goes wrong and the tools are staged |
| QwenBootstrap.Container.PatchMtp | internal/agent/runtime_patch_qwen38.go:286-289 | source 2 patched, or an acceptable state; patched when nothing goes wrong and the tools are staged |
| QwenBootstrap.Container.PatchQsa | internal/agent/runtime_patch_qwen38.go:290-293 | sources 3 and 4 patched, or an acceptable state; patched when nothing goes wrong and the tools are staged |
| QwenBootstrap.Container.BuildOverlay | internal/agent/runtime_patch_qwen38.go:294-301 | the overlay has exactly the model's children, all links but the two verified configurations |
| QwenBootstrap.Container.RewriteModel | internal/agent/runtime_patch_qwen38.go:302-305 | arguments are accepted if and only if the only --model names the model directory, and only its value changes |
| QwenBootstrap.Container.Run | internal/agent/runtime_patch_qwen38.go:249-307 | refused if and only if unacceptable, unchanged then; acceptable after any crash; the final state before exec; and exec is reached when nothing goes wrong |
| SglangPatch.RerunsConverge | internal/agent/runtime_patch.go:86-137 | for any list of sources, interrupted runs are never refused later and the first to reach the server leaves all of them patched and nothing else touched |
| SglangPatch.SecondRunChangesNothing | internal/agent/runtime_patch.go:94-105 | a run over patched sources changes no file |
| SglangPatch.PatchedIsFixed | internal/agent/runtime_patch.go:103-104 | a patched source is accepted and is its own candidate |
| SglangPatch.Find | internal/agent/runtime_patch.go:103-103 | the first occurrence that replace would change |
| SglangPatch.ReplaceFirstExactly | internal/agent/runtime_patch.go:105-105 | the replacement takes the place of the first occurrence and of nothing else |
| SglangPatch.CountAround | internal/agent/runtime_patch.go:100-104 | how often a line occurs in text put together from lines |
| SglangPatch.OneLinePatchExactly | internal/agent/runtime_patch.go:94-106 | a source whose two versions differ in one line, each counted once and the other not at all, is accepted in its original form if and only if the old line does not occur inside an earlier line |
| SglangPatch.UnspoiledIsReady | internal/agent/runtime_patch.go:94-106 | so a container whose sources are each in one of their two versions passes every check |
| SglangPatch.Container.ReadAll | internal/agent/runtime_patch.go:94-106 | it passes if and only if every source is original or patched and has a patched candidate |
| SglangPatch.Container.WriteAll | internal/agent/runtime_patch.go:117-123 | a crash leaves a mix of original and patched sources that is accepted again; success leaves all patched |
| SglangPatch.Container.VerifyAll | internal/agent/runtime_patch.go:124-130 | it passes if and only if every source reads back as patched |
| SglangPatch.Container.Run | internal/agent/runtime_patch.go:86-137 | nothing is written unless every source and the GPU limit pass; exec only with all patched and a command to run; untouched one-line patches with enough shared memory are never refused |
| Barriers.OperationBarrierRegistry.Begin | internal/agent/deployment_launch.go:39-46 | a name under way is refused, otherwise a new channel is registered |
| Barriers.OperationBarrierRegistry.Finish | internal/agent/deployment_launch.go:47-54 | only the channel that is active under the name is removed and closed |
| Barriers.LookIsExact | internal/agent/deployment_launch.go:57-63 | a look finds nothing if and only if every operation of the name so far is over, and otherwise the only one that is not |
| Barriers.OnePerName | internal/agent/deployment_launch.go:39-46 | at most one unsettled operation per name |
| Barriers.ClosedOnce | internal/agent/deployment_launch.go:47-54 | no channel is closed twice |
| Barriers.FinishIsExact | internal/agent/deployment_launch.go:47-54 | a finish ends its own operation once and never a newer one |
| Barriers.WaitOvertakesNothing | internal/agent/deployment_launch.go:57-70 | when wait returns, every operation registered under the name before the look has settled |
| Barriers.DeleteWaitsForLaunch | internal/agent/server.go:658-683 | a delete under the normalized name passes only after every launch registered before it looked has settled |
| Barriers.DeleteIsHeldExactly | internal/agent/server.go:453-464 | a delete right after a launch registered is held back if and only if its query is the normalized name |
| Barriers.SanitizedIsPlain | internal/agent/docker.go:971-985 | a sanitized name is non-empty, of plain characters, and does not end in a hyphen |
| Barriers.EveryNameHasACore | internal/agent/docker.go:971-985 | every name is a core between characters that sanitizing drops |
| Barriers.SanitizedExactly | internal/agent/docker.go:971-985 | sanitizing gives the core with each invalid character as a hyphen, and "unnamed" only when no core is left |
| Barriers.NormalizedExactly | internal/agent/docker.go:482-488 | normalization changes nothing if and only if the name is normal, and is idempotent |
| Barriers.NormalizedFully | internal/agent/docker.go:482-488 | the same core, prefixed unless it already is |
| Barriers.CleanIsPrefixed | internal/agent/docker.go:482-488 | a plain name without the prefix and without hyphens at its ends only gets the prefix |
| Barriers.CleanNamesStayApart | internal/agent/docker.go:482-488 | two such names never share a container name, and so never a barrier |
| Barriers.AgentAdmissionLock.Acquire | internal/agent/deployment_launch.go:25-33 | tokens plus unreleased holders stay one; entry if and only if nobody inside is unreleased |
| Barriers.AgentAdmissionLock.Release | internal/agent/deployment_launch.go:28-29 | a repeated release gives back nothing more |
| Store.DeploymentStore.Put | internal/deployments/store.go:86-116 | memory and file agree afterwards whether the write failed before or after its rename or succeeded |
| Store.DeploymentStore.Get | internal/deployments/store.go:64-73 | a copy of the first entry with the ID, or not found if there is none |
| Store.DeploymentStore.FindIdempotency | internal/deployments/store.go:75-84 | a copy of the first entry with the key, or none |
| Store.CloneIsCanonical | internal/deployments/store.go:175-181 | a copy survives JSON and equals its original if and only if that does; it differs only in an empty list becoming null, or, exactly for years outside 0 to 9999, in being blank but for the request hash |
| Store.ReplacedIsCanonical | internal/deployments/store.go:86-102 | whatever Put builds can be marshalled |
| Store.OpenedExactly | internal/deployments/store.go:27-52 | a missing file is an empty journal; only an unreadable one or a version other than 0 and 1 is an error; a null list is empty |
| Store.MarshalRoundTrip | internal/deployments/store.go:27-52 | opening a written document gives back what was written |
| Store.MemoryAgreesWithFile | internal/deployments/store.go:86-161 | after any sequence of Puts with any failures a fresh OpenStore loads exactly the document in memory |
| Store.PutChangesOneEntry | internal/deployments/store.go:89-99 | a promoted Put replaces the one entry with its ID or appends one |
| Store.PutKeepsIdsDistinctExactly | internal/deployments/store.go:175-181 | the exact condition under which IDs stay distinct |
| Store.UnencodablePutsCollide | internal/deployments/store.go:175-181 | two deployments JSON cannot hold end with the same empty ID |
| Store.IdsStayDistinct | internal/deployments/store.go:86-116 | IDs stay distinct over any sequence of Puts of encodable deployments |
| TailWriter.BoundedTailWriter.constructor | internal/agent/log_tail.go:27-32 | a negative limit counts as zero |
| TailWriter.BoundedTailWriter.Write | internal/agent/log_tail.go:34-55 | in place and within capacity, the window becomes the tail of window and data; truncated exactly if something was dropped |
| TailWriter.BoundedBuffer.Write | internal/agent/docker.go:933-942 | the buffer becomes the tail of buffer and data |
| TailWriter.WindowIsTail | internal/agent/log_tail.go:34-55 | after any writes the window is the last min(limit, total) bytes, truncated if and only if there were more |
| TailWriter.WriteBoth | internal/agent/docker.go:926-949 | for equal positive limits the window equals the simple buffer |
| TailWriter.DiscardPotentiallyPartialLogLine | internal/agent/log_tail.go:90-102 | what is kept starts at the first line start of the stream inside the window, for every stream the window may belong to |
| TailWriter.CaptureContainerLogTail | internal/agent/log_tail.go:77-88 | when it fails, what it cleans, and that an untruncated capture is the cleaned whole stream |
| LogBounds.KeepLastLogLines | internal/deployments/logs.go:60-79 | the longest suffix that starts a line and has at most n lines; truncated if and only if there were more |
| LogBounds.ValidExactly | internal/deployments/logs.go:50-52 | valid text is exactly what encoding some sequence of Unicode scalar values gives (section 3 of RFC 3629) |
| LogBounds.CodePointIsUtf8 | internal/deployments/logs.go:50-52 | wherever the model finds a code point there is the encoding of one scalar value |
| LogBounds.BoundaryExactly | internal/deployments/logs.go:50-52 | in valid UTF-8 the code-point boundaries are exactly the bytes that continue nothing |
| LogBounds.BoundaryNear | internal/deployments/logs.go:50-52 | a boundary is at most three bytes away |
| LogBounds.CutBytes | internal/deployments/logs.go:48-55 | within the limit, valid again, at most three bytes short, and the longest such suffix |
| LogBounds.BoundTail | internal/deployments/logs.go:47-57 | both bounds hold together and as much is kept as they allow: text within both bounds is kept whole; otherwise the longest run of at most 2000 last lines, or for valid text its longest valid suffix within the byte limit |
| ShellQuote.RemoteRoundTrip | internal/agent/tensorfold_probe.go:257-281 | the worker's shell splits the joined command into exactly the given words |
| ShellQuote.SplitQuoted | internal/agent/tensorfold_probe.go:274-281 | one quoted word, in any context, reads back as itself |
| ShellQuote.SafeIsPlain | internal/agent/tensorfold_probe.go:275-279 | no character that goes unquoted means anything to the shell |
| ShellQuote.QuotedOnlyIfNeeded | internal/agent/tensorfold_probe.go:274-281 | a word is sent as it is if and only if it is non-empty and needs no quotes |
| ShellQuote.RemoteIsInjective | internal/agent/tensorfold_probe.go:257-281 | different word lists are different commands |
| ResourceNames.MatchIsParsed | internal/daemon/deployments.go:626-636 | the pattern matches a name in at most one way, and parsing returns it |
| ResourceNames.ParsedExactly | internal/daemon/deployments.go:277-277 | a name parses if and only if the pattern matches and the number fits |
| ResourceNames.PrintParses | internal/agent/tensorfold_recipe.go:1399-1399 | every valid ID, generation and role comes back from its printed name |
| ResourceNames.PrintIsInjective | internal/daemon/deployments.go:600-600 | distinct triples never share a name |
| ResourceNames.DecimalExactly | internal/daemon/deployments.go:600-600 | the printed generation is the one numeral without leading zeros that has its value |
| ResourceNames.ValueIsPositional | internal/daemon/deployments.go:626-636 | the matched number is read in base ten |
| PageCache.FileTable.OpenVerified | internal/agent/page_cache.go:88-115 | a handle that fails its check is closed at once |
| PageCache.WeightsAreSafetensors | internal/agent/page_cache.go:72-78 | the weights are exactly the objects named *.safetensors |
| PageCache.FileTable.VerifyAll | internal/agent/page_cache.go:86-118 | all weights are held open, or the first failure leaves none open and each closed once |
| PageCache.FileTable.AdviseAll | internal/agent/page_cache.go:120-129 | every handle is advised and closed once; files and bytes count exactly those without an error |
| PageCache.FileTable.Release | internal/agent/page_cache.go:66-131 | on every path each opened handle is closed exactly once; a failed verification advises nothing and reports zero files and bytes; otherwise verified = expected = files + skipped |

## Left out

- HTTP handlers, Docker, SSH, git and nvidia-smi: their results are parameters or free choices of a step.
- Validation of requests, of the pinned checkout, of image provenance and of the fabric: each may fail at the point where the code calls it, and nothing else is said about it.
- Manager.TensorFoldManager.InspectRecipeContainerIdentity: the pinned image, environment and arguments are one flag of a container, its creation time is part of the launch marker check, and the docker commands of one inspection are one moment.
- LifecycleActors.JoinCanFinish: shows that the join can complete, not that the operating system reaps the launcher in time.
- LifecycleTheorems.StoppedMeansFenced: claims no container absence for the fence path; `FencePathCleanExactly` says when that holds.
- LifecycleLimits.AnotherSshWedgesStop: speaks about one changed executable; changing it back makes the check pass again.
- Names, launch IDs, container IDs and stamps are numbers, since the code only compares them.
- The resource that stop holds in memory carries the stamp just written, while the code keeps the older one; no step of stop reads it.
- Wall-clock limits, tickers and contexts: anything that waits may time out at any moment.
- Liveness of the agent loops; a launch that has just become ready may still be stopped by its deadline.
- Ownership, permission and symbolic-link checks on the state directory, which is taken to be untampered.
- Log files, metrics, the recipe store, launch authorization and the deployment engine.
- The patch tools of the Qwen bootstrap: they may write anything into the work directory and nothing elsewhere.
- Half-written files: a copy or a write is one step; a source left half-written is a state `UnacceptableForever` covers.
- Most fields of a deployment: the journal keeps one list of each kind, null or omitted, and the year of a time.
- Invalid UTF-8 in deployment fields, which JSON replaces.
- The redaction of log tails; only its bounding is modelled, and `clean` stands for it in the capture.
- The choice of the model repository mount and the label checks before the page-cache release.
- Shell rules other than unquoted characters, blanks and the two kinds of quotes; the reading of a first word as an assignment or a reserved word.
