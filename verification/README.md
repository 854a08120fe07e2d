# A model of the wasmux kernel

This project models the single-threaded, Linux-style kernel of wasmux and proves what it
guarantees. A session is a state machine: a slab of open file descriptions, a slab of pipes, a
process table, a list of running processes (each with its task, the vfork parents suspended in
it, and its waiting state), a queue of spawns and a memory account. Its moves are the system
calls, the scheduler's retry of a blocked call, process start, in-place exec, death, signals, host
commands, input and the wall clock.

The project has three layers.

- Functions from state to state say what each operation does (`Kernel`, `Syscalls`, `HostSteps`,
  `Signals`, `Machine`, and the specification functions of `Slabs`, `Fds`, `Paths`, `Resolvers`,
  `GuestMemory`, `StartBlocks`, `MemTrees`, `Dirents`, `Jumps`).
- Classes change the same state in place, with the loops of the source, and each method is tied
  to the function that specifies it (`SharedStates`, `Handlers`, `Schedulers`, and the classes
  `Slab`, `FdTable`, `Mem`, `MemVfs`, `MemFile`, `Directory`).
- Lemmas prove what holds of every call, every move and every run.

The straight-line handlers of the second layer have no row below: `Handlers.Context.Dispatch` and
`Schedulers.Scheduler.Move` say that the kernel changed in place goes where the state machine goes,
and what a call promises its callers is a lemma about the state machine.

A guest is an environment that makes any calls it likes. A call carries its arguments already
read out of guest memory, together with what the outside answers to it: a mounted filesystem, the
growth of the instance's memory, the copy back to the guest. A retry carries the same request and
asks the outside anew. The clock is an argument of each move. `Shared.log` is a history of what
pipes did that no operation reads; the in-place kernel keeps it as ghost state.

## Where the modules stand

- `Slab.dfy`, `FdTable.dfy`, `Kernel.dfy`, `Syscalls.dfy`, `HostStep.dfy`, `Signals.dfy`,
  `Machine.dfy`: the state machine.
- `SharedState.dfy`, `Handlers.dfy`, `Scheduler.dfy`: the kernel changed in place.
- `References.dfy`, `RefCalls.dfy`, `PipeCalls.dfy`, `SessionRefs.dfy`, `Books.dfy`,
  `RefTheorems.dfy`, `Bounds.dfy`: reference counts and pipe ends over every run.
- `Census.dfy`, `CensusCalls.dfy`, `CensusRuns.dfy`, `LifeFacts.dfy`, `Exits.dfy`, `ExecRuns.dfy`:
  processes and their parents, how they end and what they are made of.
- `Delivery.dfy`: pending signals over every run.
- `Memory.dfy`, `Mappings.dfy`, `Vfork.dfy`, `Stutter.dfy`, `Deadlock.dfy`, `DeadlockInput.dfy`,
  `Fifo.dfy`, `Steady.dfy`, `Streams.dfy`, `HostOnce.dfy`, `HostRuns.dfy`, `Jumps.dfy`: the other
  properties of whole runs.
- `CallFacts.dfy`, `Descriptors.dfy`, `Reads.dfy`, `Writes.dfy`, `Waits.dfy`: what the calls promise. `Witnesses.dfy`: short runs that show what the
  theorems leave open does happen.
- `Paths.dfy`, `Resolver.dfy`, `GuestMemory.dfy`, `StartBlock.dfy`, `MemVfs.dfy`, `Dirents.dfy`,
  `Words.dfy`, `SignalBits.dfy`: the cores around the kernel.
- `CallFrames.dfy`, `HostFrames.dfy`, `Sums.dfy`, `Base.dfy`: what operations leave alone, and
  shared vocabulary.

## Premises of the run theorems

- `RefTheorems.Tame`: at no moment do the slots naming one description, and the references to it
  that were lost, come to 2^32 - 1. `Bounds.LimitsTame` derives it from the session's limits and what
  the run lost, `Bounds.LimitsSuffice` from the limits alone when it lost nothing.
- `CensusRuns.PidsLeft`: fewer than 2^31 - 1 pids have been given out; past that the source gives
  the same pid again.
- `Memory`: the memory limit is below 2^64 - 1, so that the account itself cannot saturate.
- `RefTheorems.Lost`: the references a run loses are computed by the model, not assumed away; see
  the next section.

## What the proofs show about the source

- A reference is taken before its descriptor slot is found. When no slot is free `dup`, `fcntl`
  with `F_DUPFD` and reopening `/dev/fd/N` keep that reference for good, as `dup3` does when its
  target is out of range; and `pipe2` keeps whichever descriptions and pipe ends it had made, except
  the reading end it takes back. The
  count equals the slots exactly when none of this happened (`RefTheorems.CountIsSlots`);
  `Witnesses.DupLeaks` is a run of two calls that ends with a description nobody holds.
- A file mapping grows memory before it reads the file, so a mounted filesystem that answers
  `AGAIN` makes every retry grow it again, until one more mapping no longer fits and the retry is
  refused (`Mappings.RetriesGrow`, `Mappings.RetryRefused`). It is the one blocking call that is not
  a stutter (`Mappings.StutterExactly`).
- The `continue` arms of `next_signal` are never taken: a deliverable signal is never an ignored
  one (`SignalBits.DeliverableActs`).
- `sigsuspend` puts the old mask back before it tells the guest whether a signal is waiting
  (`Stutter.SuspendTellsOldMask`): a handler for a signal blocked in the old mask is not announced,
  as in the run of `Witnesses.SuspendUnannounced`.
- A host command that reads standard input from `/dev/zero`, `/dev/random` or `/dev/urandom` never
  leaves its reading loop, and these are the only cases short of a mounted file
  (`HostOnce.EndlessExactly`); from a mounted file it goes on as long as the filesystem gives bytes
  (`HostOnce.MountEndless`).
- A host command's pipe on descriptor 0 can be made non-blocking by any process that shares it; an
  empty pipe with writers then counts as the end of input (`HostOnce.DrainEarly`). The turn that hands
  the input over has met end of file if and only if its end of the pipe waits or the pipe has no
  writers left (`HostRuns.HandedIsAll`), and then every retry is handed the same
  (`HostRuns.SameInvocation`).
- `wait4`, `pipe2`, `read` and `getdents64` have done their work before the copy to the guest can
  fault, and do not undo it (`LifeFacts.Wait4Reaps`, `CallFacts.PipeFaultsLate`,
  `CallFacts.ReadFaultsLate`, `Dirents.EachEntryOnce`).
- `MemVfs.rename` moves over whatever is at the target, a directory with entries included
  (`MemTrees.MemVfs.Rename`).
- An untimed `pselect` on standard input never marks input as wanted, and an untimed `ppoll` does so
  only if its process has descriptor 0 open, whatever descriptor it watches. A session in which only
  such calls are outstanding is reported as a deadlock although one byte of input would get it going
  (`Witnesses.PselectUnheard`, `Witnesses.PpollUnheard`); with no such call outstanding a reported
  deadlock outlasts any input (`DeadlockInput.DeadlockBut`).
- An in-place `execve` that cannot start the new program ends the process with status 126 on its record
  without going through `finish_process`, so it never sets the session's status: when it was the last
  process the session ends without one, and reports zero (`ExecRuns.LastExecFails`).

## Model

| member | source | states |
|---|---|---|
| `RefTheorems.RunBooks` | crates/wasmux/src/kernel/mod.rs:1158-1212 | on every run each description's count is the number of descriptor slots naming it in running tasks, vfork parents, queued spawns and exec requests, plus the references lost by failed allocations; each pipe's ends are its live end descriptions plus the ends lost |
| `RefTheorems.SlotsAreLive` | crates/wasmux/src/kernel/mod.rs:1158-1194 | a key in any table anywhere is live, counted at least once per slot, and a pipe end's pipe is live and still counts that end |
| `RefTheorems.NoFalseEnd` | crates/wasmux/src/kernel/syscall.rs:2037-2059 | no read reports end of file while any table names a writing end, and no write reports a broken pipe while any names a reading end |
| `RefTheorems.CountIsSlots` | crates/wasmux/src/kernel/fd.rs:257-268 | a count equals the slots exactly when the run lost no reference to that description |
| `RefTheorems.EndsAreExact` | crates/wasmux/src/kernel/syscall.rs:2104-2124 | with nothing lost a pipe lives exactly while an end of it is held, end of file is reported exactly when the pipe is empty and nobody holds a writing end, and a broken pipe exactly when nobody holds a reading end |
| `RefTheorems.QuiescentIsEmpty` | crates/wasmux/src/kernel/mod.rs:940-975 | once nobody runs or waits to start, a description is left exactly if a reference to it was lost; with nothing lost both slabs are empty |
| `Witnesses.DupLeaks` | crates/wasmux/src/kernel/syscall.rs:1010-1028 | a run that fills its table, fails to dup and exits: one reference lost, and a description left over when nobody runs |
| `Bounds.LimitsTame` | crates/wasmux/src/kernel/mod.rs:1094-1101 | the slots naming a description and the references lost stay below 2^32 - 1 when processes times open files leaves room for the losses: the premise of the reference theorems follows from the limits |
| `Bounds.LimitsSuffice` | crates/wasmux/src/kernel/mod.rs:1094-1101 | for a run that lost nothing the limits alone suffice: the process limit times the descriptor limit below 2^32 - 1 |
| `Bounds.TasksAreLiving` | crates/wasmux/src/kernel/mod.rs:1094-1107 | there are as many tasks in the session as living processes in its table |
| `Bounds.SlotsBound` | crates/wasmux/src/kernel/fd.rs:177-211 | no description is named by more slots than the task limit times the descriptor limit |
| `CensusRuns.EveryoneIsCounted` | crates/wasmux/src/kernel/mod.rs:1087-1141 | on every run the living records and the tasks held by running processes, vfork stacks, the spawn queue and exec requests are the same processes, one task each; pids rise along the table, parents are older; while process 1 lives every other record has a living parent |
| `Census.ExitKeeps` | crates/wasmux/src/kernel/mod.rs:1118-1141 | a death takes exactly that process off the living and leaves every orphan, and every zombie, under a living parent |
| `Census.ForkKeeps` | crates/wasmux/src/kernel/mod.rs:1094-1107 | a new record adds exactly the next pid to the living, under a living parent |
| `Census.WithoutFinds` | crates/wasmux/src/kernel/mod.rs:1137-1140 | forgetting a pid removes that record and no other |
| `CensusCalls.DispatchOwned` | crates/wasmux/src/kernel/syscall.rs:82-115 | whatever a call does, the living are still exactly the tasks within reach and those held elsewhere |
| `LifeFacts.Wait4Reaps` | crates/wasmux/src/kernel/syscall.rs:581-624 | ECHILD exactly without a matching child, a wait exactly with living ones only, otherwise one matching dead child is taken out of the table and nothing else changes; the child is gone even when the copy to the caller faults, and a fault is the answer exactly then |
| `LifeFacts.GroupMoves` | crates/wasmux/src/kernel/syscall.rs:640-646 | setpgid fails exactly for a process that is not there; else that process alone is in the group asked for, and wait4 for that group finds it |
| `LifeFacts.SessionStarts` | crates/wasmux/src/kernel/syscall.rs:651-657 | after setsid the caller leads a session and a group of its own, and nobody else has moved |
| `LifeFacts.ExecveKeeps` | crates/wasmux/src/kernel/syscall.rs:1465-1501 | an in-place exec keeps the process, its masks and exactly the descriptors not marked close-on-exec; ignored signals stay ignored, every other handler is reset |
| `ExecRuns.ExecveHands` | crates/wasmux/src/kernel/syscall.rs:1465-1501 | the spawn that leaves an execve, to the end of the queue or into the exec request, carries the program, the path, the arguments and the environment of the call, each in its place, and the caller's own task less its close-on-exec descriptors; a vfork child's parent is back, with the child's pid |
| `ExecRuns.StepWaits` | crates/wasmux/src/kernel/syscall.rs:1465-1501 | no move puts a spawn in the queue or in an exec request but the execve that asks for just that spawn |
| `ExecRuns.NewbornAsked` | crates/wasmux/src/kernel/mod.rs:498-560 | on every run whatever a started process is made of was asked for by an execve of the run, by the process it is |
| `ExecRuns.ArgumentsReach` | crates/wasmux/src/kernel/mod.rs:767-800 | on every run the arguments, the environment and the directory a host command is handed are those of the execve that made it, made by the same pid, or those the session was told to start |
| `ExecRuns.StartsWhen` | crates/wasmux/src/kernel/mod.rs:498-582 | a spawn becomes a process exactly if it names a host command, or a guest that can be instantiated, fits the memory left and can grow by its stack-saving area |
| `ExecRuns.OldestStarts` | crates/wasmux/src/kernel/mod.rs:604-613 | the queue is served from the front: the oldest spawn becomes the last running process, or ends with status 126; the others stay queued and running in order |
| `ExecRuns.ReplacedOrEnded` | crates/wasmux/src/kernel/mod.rs:912-937 | an in-place exec puts the new program in the old one's place, or ends the process with status 126; no other process moves |
| `ExecRuns.LastExecFails` | crates/wasmux/src/kernel/mod.rs:912-937 | a run whose only process asks in place for a program that cannot be started leaves nobody and no session status |
| `ExecRuns.FirstProcess` | crates/wasmux/src/kernel/mod.rs:447-496 | the session begins with process 1 alone, reading standard input at descriptor 0, writing standard output at 1 and standard error at 2 |
| `LifeFacts.ChildIsCopy` | crates/wasmux/src/kernel/syscall.rs:512-531 | a vfork child is its parent but for the pid, and the parent's task is what is suspended |
| `LifeFacts.ForkTells` | crates/wasmux/src/kernel/mod.rs:1094-1107 | clone serves vfork alone, while there is room for one more living process; the child is on record under its parent, in its group and session, with nothing pending, and everybody else is as before |
| `LifeFacts.KillSends` | crates/wasmux/src/kernel/syscall.rs:1503-1534 | kill is refused exactly for what is no signal and for nobody; else the signal is pending for exactly those it is for, spelled out target by target, whose sleep is over; signal 0 changes nothing |
| `LifeFacts.KillInterrupts` | crates/wasmux/src/kernel/syscall.rs:1503-1534 | a signal sent to a process that neither ignores nor blocks it interrupts whatever it waits in |
| `LifeFacts.InterruptedHow` | crates/wasmux/src/kernel/syscall.rs:151-157 | a wait is interrupted exactly if some pending signal is neither blocked nor ignored, with SIGKILL and SIGSTOP never blocked |
| `Exits.ExitTells` | crates/wasmux/src/kernel/mod.rs:1118-1141 | an exit is seen in the process's own record, which keeps its first status or goes without a living parent; in its children, who go to process 1; in the parent, who has a SIGCHLD pending; and nowhere else |
| `Exits.ChildIsTold` | crates/wasmux/src/kernel/mod.rs:1118-1141 | after an exit a living parent has SIGCHLD more pending, and nobody else has anything more or less |
| `Exits.ParentIsWoken` | crates/wasmux/src/kernel/syscall.rs:808-821 | a parent that handles SIGCHLD and lets it through is interrupted by a child's exit: its sigsuspend ends with EINTR |
| `Exits.ParentReaps` | crates/wasmux/src/kernel/syscall.rs:581-624 | the living parent's wait4 for a process that has ended answers with its pid and takes the record |
| `Exits.ChildExits` | crates/wasmux/src/kernel/syscall.rs:499-511 | a vfork child that exits is on record with the low byte of its code, and its parent's task is back with its pid as the answer |
| `Exits.InstanceEnds` | crates/wasmux/src/kernel/mod.rs:940-962 | when an instance dies its process ends with the status given, each vfork child still inside as killed by signal 9, and nobody else |
| `Exits.SessionEndsWith` | crates/wasmux/src/kernel/mod.rs:963-975 | on every run the session's status is that of the first end which is of process 1 or leaves nobody running, or the wall clock's for those left, and stays |
| `Exits.OthersEndNone` | crates/wasmux/src/kernel/mod.rs:912-937 | neither a start nor a replacement sets the session's status, a failed one included |
| `Delivery.FetchTakes` | crates/wasmux/src/kernel/syscall.rs:445-489 | a fetch leaves pending exactly what is neither ignored nor the signal taken, and nobody else's record changes; the flag is down and nothing interrupts when none is left; a handler that asked for it is reset; a signal by default fatal ends the process |
| `Delivery.TakesTheLowest` | crates/wasmux/src/kernel/syscall.rs:445-462 | what is taken is the lowest pending signal that is neither blocked nor ignored; none is taken exactly if there is none |
| `Delivery.OnlyRaised` | crates/wasmux/src/kernel/task.rs:124-129 | a signal becomes pending only by a kill that is for that process, by the process's own write into a pipe nobody reads, or as SIGCHLD |
| `Delivery.NoneLost` | crates/wasmux/src/kernel/syscall.rs:445-489 | a pending signal stays pending until its process takes it, finds it ignored, or is gone from the table |
| `Delivery.DeliveredOnce` | crates/wasmux/src/kernel/syscall.rs:445-489 | on every run a signal is delivered to a process no more often than it was raised, once less while it is pending |
| `Vfork.BracketsMatch` | crates/wasmux/src/kernel/syscall.rs:499-531 | from clone to the child's exit or exec, at any nesting and whatever is called in between, the parent's whole task comes back as it was and clone returns the child's pid |
| `Vfork.ActUnder` | crates/wasmux/src/kernel/syscall.rs:512-531 | no act of a child, its own vfork children included, touches the tasks suspended below it |
| `Vfork.ActCloses` | crates/wasmux/src/kernel/syscall.rs:1465-1501 | the act that ends the bracket is the child's own exit or exec and restores exactly the suspended task |
| `Vfork.ServeIsAct` | crates/wasmux/src/kernel/mod.rs:703-734 | the acts of the vfork theorem are the scheduler's own moves on that process |
| `Memory.MemoryIsConserved` | crates/wasmux/src/kernel/mod.rs:1144-1155 | on every run the account is the total of the guests' memory, within the limit; each guest is its starting charge plus what it grew, within its cap; giving back at death is exact, so no saturating operation saturates |
| `Memory.MappingsAreDisjoint` | crates/wasmux/src/kernel/syscall.rs:1594-1598 | mappings of one guest do not overlap each other or the stack-saving area |
| `Memory.BrkMoves` | crates/wasmux/src/kernel/syscall.rs:1536-1570 | brk charges exactly what it grows and stays within the per-process limit rounded up to a page |
| `Memory.MmapMoves` | crates/wasmux/src/kernel/syscall.rs:1572-1598 | mmap charges exactly what it grows, hands out the new end of memory, and never shares it |
| `Memory.MmapIsFresh` | crates/wasmux/src/kernel/syscall.rs:1572-1598 | an anonymous mapping starts at the old end of memory, above every earlier mapping; a refused one changes nothing |
| `Mappings.MappingWaits` | crates/wasmux/src/kernel/syscall.rs:1572-1627 | a memory call blocks exactly if it maps a file, the mapping fits, the memory grows, the filesystem says come back later and no signal waits; by then the guest is larger by the mapping and charged for it |
| `Mappings.StutterExactly` | crates/wasmux/src/kernel/syscall.rs:82-115 | a blocked attempt leaves the session and the instance unchanged, up to records of who waits for what, if and only if it is not a file mapping; a blocked mapping has made the guest larger |
| `Mappings.RetriesGrow` | crates/wasmux/src/kernel/syscall.rs:1588-1627 | after n blocked attempts at a file mapping, whatever the rest of the session did in between, the guest is n mappings larger, which its limit bounds |
| `Mappings.RetryRefused` | crates/wasmux/src/kernel/syscall.rs:1579-1593 | the retry for which one more mapping no longer fits is refused with ENOMEM and takes nothing more |
| `Mappings.BrkAnswers` | crates/wasmux/src/kernel/syscall.rs:1536-1570 | brk answers with what was asked exactly if it is within the limits and the instance grows, by just enough whole pages; else with the end there is, and nothing changes |
| `Mappings.MmapAnswers` | crates/wasmux/src/kernel/syscall.rs:1572-1632 | an anonymous mmap answers with the old end of memory exactly if it is not empty, not fixed, fits the limits and the instance grows; the errors exactly |
| `CallFacts.ChargeUndone` | crates/wasmux/src/kernel/mod.rs:1144-1155 | memory is charged exactly if it fits the limit, a refused charge takes nothing, and giving a charge back undoes it |
| `CallFacts.OutputIsFront` | crates/wasmux/src/kernel/mod.rs:1215-1223 | however the writes are cut, the session keeps the front of everything written, up to the limit, and counts the rest |
| `Memory.PaysBack` | crates/wasmux/src/kernel/mod.rs:912-923 | what a dying process gives back is exactly what it took |
| `Stutter.BlockedIsStutter` | crates/wasmux/src/kernel/syscall.rs:82-115 | an attempt that blocks changes nothing but the call count, the reason for waiting, and its own deadline or displaced mask |
| `Stutter.RetriesAreOneCall` | crates/wasmux/src/kernel/syscall.rs:169-180 | blocking any number of times and then answering gives the answer and the state of one call made in the answering state, the deadline alone being the first attempt's; nothing survives into the next call |
| `Stutter.VectorBlocks` | crates/wasmux/src/kernel/syscall.rs:904-936 | readv and writev wait exactly when their first element asking for bytes does, before any byte has moved |
| `Stutter.ReadyIsNoWait` | crates/wasmux/src/kernel/syscall.rs:2245-2270 | a pipe end or standard input polls ready exactly when reading or writing it would not wait |
| `Stutter.SuspendTellsOldMask` | crates/wasmux/src/kernel/syscall.rs:808-821 | sigsuspend restores the old mask before it raises the signal flag, so the flag is up only if the old mask lets a signal through |
| `Witnesses.SuspendUnannounced` | crates/wasmux/src/kernel/syscall.rs:808-821 | a run whose process has a handler for a blocked, pending signal and suspends with nothing blocked: the wait ends with EINTR, the signal is still pending, and the guest is not told |
| `CallFacts.DeadlineIsFirst` | crates/wasmux/src/kernel/syscall.rs:169-180 | the first attempt of a timed wait fixes its deadline, whatever a later one would work out |
| `CallFacts.MaskMoves` | crates/wasmux/src/kernel/syscall.rs:784-801 | no request puts SIGKILL or SIGSTOP into the mask; of the others exactly those asked for join it, leave it, or make it up; an unknown request changes nothing |
| `CallFacts.ActionMoves` | crates/wasmux/src/kernel/syscall.rs:753-783 | after sigaction the signal has the action given and no other signal has another than before; SIGKILL and SIGSTOP keep theirs |
| `CallFacts.OwnMoves` | crates/wasmux/src/kernel/syscall.rs:670-674 | umask answers with the old mask and keeps nine bits of the new, chdir moves the caller, and nothing else changes |
| `CallFacts.FlagTells` | crates/wasmux/src/kernel/syscall.rs:119-148 | after every call that is over the guest's flag is up exactly if a signal that would do something is waiting |
| `Waits.SleepWaits` | crates/wasmux/src/kernel/syscall.rs:862-889 | a sleep is over when its time, fixed at the first attempt, has come; until then it waits with that time on record unless a signal ends it |
| `Waits.SuspendWaits` | crates/wasmux/src/kernel/syscall.rs:808-821 | sigsuspend waits under the mask given until a signal that mask lets through, and ends with EINTR and the old mask back |
| `Waits.EntryIsReady` | crates/wasmux/src/kernel/syscall.rs:2245-2270 | a poll entry is ready exactly as its kind of description is, or because it is not open; negative ones are passed over |
| `Waits.CountOne` | crates/wasmux/src/kernel/syscall.rs:2272-2388 | ppoll counts an entry that is ready, pselect each of the sets it is ready in |
| `Waits.CountAdds` | crates/wasmux/src/kernel/syscall.rs:2272-2388 | the count of a list is the sum over its parts |
| `Waits.PollWaits` | crates/wasmux/src/kernel/syscall.rs:2272-2322 | a poll answers how many of its first 1024 entries are ready once one is or its time is up; until then it waits with that time on record, or word that it waits for input, unless a signal ends it |
| `Descriptors.CloseFrees` | crates/wasmux/src/kernel/syscall.rs:897-903 | close frees that descriptor and no other, and refuses exactly one not open |
| `Descriptors.DupOpens` | crates/wasmux/src/kernel/syscall.rs:1010-1028 | the lowest descriptor free from the minimum up is opened onto the same description, marked as asked; refused exactly for a descriptor not open and a full table; every other descriptor is as it was |
| `Descriptors.Dup3Opens` | crates/wasmux/src/kernel/syscall.rs:1029-1051 | the second descriptor names the first's description, marked as asked; the error cases exactly; every other descriptor is as it was |
| `Descriptors.MarkMarks` | crates/wasmux/src/kernel/syscall.rs:1133-1136 | F_SETFD marks that descriptor and no other |
| `Descriptors.OpenOpens` | crates/wasmux/src/kernel/syscall.rs:1634-1806 | a fresh description of what was asked for at the lowest free descriptor, or nothing opened |
| `Descriptors.PipeOpens` | crates/wasmux/src/kernel/syscall.rs:1052-1108 | an empty pipe with one end of each kind at the two lowest free descriptors, reading first, marked and blocking as asked |
| `CallFacts.FlagsAreShared` | crates/wasmux/src/kernel/syscall.rs:1140-1146 | F_SETFL reaches every descriptor that shares the description, in whatever process, and nothing else |
| `CallFacts.ReadFaultsLate` | crates/wasmux/src/kernel/syscall.rs:1951-2063 | a read whose copy faults has read: bytes are lost exactly when the descriptor, not being a mounted file, is open for reading on a pipe, standard input or a generated file with bytes left, and then they are gone from the front; devices and end of file lose nothing |
| `Reads.ReadTakes` | crates/wasmux/src/kernel/syscall.rs:1968-2063 | a read of anything but a mounted file returns bytes off the front of what the descriptor has in store and takes exactly those: as many as it may, of standard input up to the end of a line; none if there are none, and from a device as many as asked for |
| `Reads.ScatterTakes` | crates/wasmux/src/kernel/syscall.rs:904-936 | a readv takes the front of what there is and answers with how many bytes it took, however its elements cut them up |
| `Writes.OutputLands` | crates/wasmux/src/kernel/mod.rs:1215-1223 | a write to one of the session's outputs is taken whole and goes to that output, as far as there is room, the rest counted |
| `Writes.PipeLands` | crates/wasmux/src/kernel/syscall.rs:2104-2124 | a write into a pipe goes behind what is there as far as there is room, waits or is told to come back without room, and with nobody to read fails and leaves the writer a SIGPIPE |
| `Writes.GatherMoves` | crates/wasmux/src/kernel/syscall.rs:904-936 | a writev into a pipe puts in the front of its elements taken together and answers with how many bytes that is; one that waits has put in nothing |
| `Streams.StreamsFlow` | crates/wasmux/src/kernel/mod.rs:175-186 | on every run what is left of the input is the end of everything fed, in order, closed exactly if it was closed; what either output keeps only grows, within the limit |
| `Streams.GoneComplains` | crates/wasmux/src/kernel/mod.rs:744-757 | a guest that traps is gone from the list and its complaint is at the end of standard error, as far as there is room |
| `CallFacts.PipeFaultsLate` | crates/wasmux/src/kernel/syscall.rs:1052-1108 | a pipe2 whose copy faults has made the pipe: two descriptors the caller was not told about are open, its two ends |
| `CallFrames.DispatchTidy` | crates/wasmux/src/kernel/syscall.rs:119-125 | a call that is over leaves neither a deadline nor a displaced mask |
| `Deadlock.PassLeavesAllBlocked` | crates/wasmux/src/kernel/mod.rs:625-666 | after a pass in which every process only retried and stayed stuck, every outstanding call is still blocked in the state at the end of the pass |
| `Deadlock.DeadlockIsFinal` | crates/wasmux/src/kernel/mod.rs:713-722 | when a pass in which every process stayed stuck, in whatever call, gets the verdict Deadlock, no process can ever step again without the wall clock or input, whatever a filesystem would answer |
| `DeadlockInput.DeadlockBut` | crates/wasmux/src/kernel/syscall.rs:2299-2317 | after such a verdict something other than the wall clock can still get the session going if and only if an outstanding call is an untimed pselect, or an untimed ppoll without descriptor 0 open, that asks whether standard input can be read |
| `Witnesses.PselectUnheard` | crates/wasmux/src/kernel/syscall.rs:2371-2382 | a run whose only process waits in an untimed pselect for standard input is called deadlocked with someone listening |
| `Witnesses.PpollUnheard` | crates/wasmux/src/kernel/syscall.rs:2308-2313 | a run whose only process waits in an untimed ppoll for standard input on descriptor 3 is called deadlocked with someone listening |
| `Deadlock.BlockedHow` | crates/wasmux/src/kernel/mod.rs:978-1000 | a blocked call either left word of waiting for time, a filesystem or input, or waits on the other processes |
| `Deadlock.EarliestIsLeast` | crates/wasmux/src/kernel/mod.rs:985-996 | the wake-up time reported is the least any record asks for |
| `Waits.VerdictSays` | crates/wasmux/src/kernel/mod.rs:978-1001 | each verdict characterised: a filesystem, else a host command, else the earliest wake-up, else input that can still come, and a deadlock exactly without any of these; the first two are told once |
| `Waits.HostLeavesWord` | crates/wasmux/src/kernel/mod.rs:767-862 | a host command that is run and has not answered leaves word of it, so the verdict is no deadlock |
| `Fifo.PipesAreFifo` | crates/wasmux/src/kernel/syscall.rs:2037-2059 | on every run bytes accepted by a pipe, in order, are the bytes returned followed by the buffer, which never exceeds 65536; after one end of file every later read reports it and no writing end is left |
| `Fifo.ReadPipeFifo` | crates/wasmux/src/kernel/syscall.rs:2037-2059 | a read returns the oldest bytes and the history records exactly those |
| `Fifo.WritePipeFifo` | crates/wasmux/src/kernel/syscall.rs:2104-2124 | a write is accepted behind what is buffered, up to the room, and the history records exactly that |
| `HostOnce.EndlessExactly` | crates/wasmux/src/kernel/syscall.rs:1968-2036 | the reading loop of a host command goes on for ever exactly when descriptor 0, not being a mounted file, is open for reading on /dev/zero or a source of random bytes |
| `HostOnce.DevicesNeverEnd` | crates/wasmux/src/kernel/syscall.rs:1997-2002 | with /dev/zero, /dev/random or /dev/urandom as standard input the loop is still going however often it has read |
| `HostOnce.MountEndless` | crates/wasmux/src/kernel/mod.rs:777-790 | from a mounted file the loop goes on exactly as long as the filesystem has bytes to give |
| `HostOnce.DrainReads` | crates/wasmux/src/kernel/mod.rs:777-790 | what is drained is what the reads returned, in order; once draining is over it has met end of file if and only if its end of the pipe waits or the pipe has no writers left |
| `HostOnce.DrainEnds` | crates/wasmux/src/kernel/mod.rs:777-790 | whatever else descriptor 0 is, open or not, draining ends within as many reads as there are bytes: those left of a generated file, those buffered by standard input or a pipe, none for everything else |
| `HostRuns.HandedIsAll` | crates/wasmux/src/kernel/mod.rs:776-796 | on every run a host command is handed its own arguments, environment and directory, and as standard input all that its own turns ever read, however often they blocked; the turn that hands it over has met end of file if and only if its end of the pipe waits or the pipe has no writers left |
| `HostRuns.HostReads` | crates/wasmux/src/kernel/mod.rs:777-790 | the buffer of a command still reading is byte for byte what the reads of its own turns returned |
| `HostRuns.SameInvocation` | crates/wasmux/src/kernel/mod.rs:776-827 | a command that met the end of its pipe and was told to come back is handed the identical invocation at every later retry, whatever the other processes do in between |
| `HostRuns.HostStays` | crates/wasmux/src/kernel/mod.rs:843-862 | on every run what a command's turns sent on descriptors 1 and 2 is, for each, a prefix of its answer in order with nothing repeated, measured by the cursors; nothing is sent before it answers |
| `HostRuns.HostEnds` | crates/wasmux/src/kernel/mod.rs:849-862 | the turn that ends a command reports its answer's status, and each output was sent whole exactly if no write of it failed in that turn |
| `HostRuns.HostWrites` | crates/wasmux/src/kernel/mod.rs:849-860 | when descriptor 1 or 2 is a pipe, the bytes the history says it took from the command are exactly those sent |
| `HostRuns.WritesNow` | crates/wasmux/src/kernel/mod.rs:849-860 | a write into a pipe fails exactly if there is something left and nobody reads the pipe, or it fills up and the descriptor does not wait |
| `HostRuns.AnsweredOnce` | crates/wasmux/src/kernel/mod.rs:797-827 | once a command has answered it is never run again |
| `HostRuns.OthersLeaveIt` | crates/wasmux/src/kernel/mod.rs:767-773 | no move but its own turns and the wall clock changes a host command |
| `HostRuns.EveryHostBegan` | crates/wasmux/src/kernel/mod.rs:498-543 | every host command of every run is the first process or was started by a move of the run, as starting leaves it, and has stood in the list from then on; the other results count from there |
| `HostOnce.TurnLog` | crates/wasmux/src/kernel/mod.rs:767-863 | a turn adds to the history what it does at its three descriptors and nothing else |
| `HostOnce.PipeFlush` | crates/wasmux/src/kernel/mod.rs:849-860 | a flush into a pipe puts in everything there is room for, or nothing without a reader, and the history records exactly that |
| `HostOnce.DrainEarly` | crates/wasmux/src/kernel/mod.rs:777-790 | an end that does not wait is drained no further than the bytes there are: an empty pipe with writers counts as the end |
| `Steady.StepKeeps` | crates/wasmux/src/kernel/mod.rs:1158-1194 | a description live before and after a move is the same thing open in the same way, whatever the move |
| `Steady.StepAdds` | crates/wasmux/src/kernel/syscall.rs:2037-2124 | while a pipe lives its history only grows |
| `Jumps.LongjmpReturns` | crates/wasmux/src/kernel/mod.rs:885-899 | longjmp succeeds exactly if its jmp_buf was set in this instance; then the area is byte for byte what the latest setjmp on it left and that call returns the given value at its own stack pointer |
| `Jumps.ReadsWhatWasUnwound` | crates/wasmux/src/kernel/mod.rs:1251-1267 | what is copied out of the area is its header and all the frames saved, and no more |
| `Jumps.SetjmpReturnsZero` | crates/wasmux/src/kernel/mod.rs:877-884 | setjmp itself first returns zero on the stack it was called from |
| `Slabs.InsertedFresh` | crates/wasmux/src/slab.rs:25-39 | insert yields a key nobody held and disturbs nothing else; it refuses exactly when every slot is live and the cap is reached |
| `Slabs.RemovedExact` | crates/wasmux/src/slab.rs:49-57 | remove takes one live entry out, once, and leaves the others |
| `Slabs.StoredExact` | crates/wasmux/src/slab.rs:45-47 | writing through a key changes that entry alone |
| `Slabs.LenCountsLive` | crates/wasmux/src/slab.rs:60-62 | slots less free entries is the number of live entries |
| `Slabs.Slab.Len` | crates/wasmux/src/slab.rs:60-62 | the length reported is the number of live entries |
| `Fds.FdTable.Alloc` | crates/wasmux/src/kernel/fd.rs:177-196 | the descriptor returned is the lowest free one at or above the minimum; EMFILE, changing nothing, exactly when every one in range is open |
| `Fds.FdTable.DrainCloexec` | crates/wasmux/src/kernel/fd.rs:232-244 | exactly the marked descriptors go, in order |
| `Fds.FdTable.DrainAll` | crates/wasmux/src/kernel/fd.rs:246-255 | the table is emptied and every description that lost a slot is returned once per slot |
| `Fds.FdTable.Duplicate` | crates/wasmux/src/kernel/fd.rs:257-268 | the copy has the same slots and every description one more reference per slot |
| `Fds.CountSplitOnExec` | crates/wasmux/src/kernel/fd.rs:232-244 | what close-on-exec releases and what stays add up to what was open |
| `Fds.CountPlaced` | crates/wasmux/src/kernel/fd.rs:177-211 | placing an entry counts one more slot for its description and one fewer for the entry it overwrites |
| `Fds.CountTaken` | crates/wasmux/src/kernel/fd.rs:213-222 | taking an entry counts one slot fewer for its description |
| `Fds.DrainedCounts` | crates/wasmux/src/kernel/fd.rs:246-255 | draining yields each description once per slot naming it |
| `SharedStates.SharedState.Position` | crates/wasmux/src/kernel/mod.rs:1109-1115 | the first record of a pid |
| `SharedStates.SharedState.Find` | crates/wasmux/src/kernel/mod.rs:1109-1111 | the first record of a pid, if any |
| `SharedStates.SharedState.SetExit` | crates/wasmux/src/kernel/mod.rs:1118-1141 | the exit is recorded once, orphans go to process 1, the living parent is signalled or the record goes |
| `SharedStates.SharedState.Reparent` | crates/wasmux/src/kernel/mod.rs:1126-1130 | exactly the children of the dead process get process 1 as their parent |
| `SharedStates.SharedState.Forget` | crates/wasmux/src/kernel/mod.rs:1137-1140 | every record of the pid goes and no other |
| `References.ReleaseRefs` | crates/wasmux/src/kernel/mod.rs:1158-1168 | one reference fewer on the description released and on no other, gone at zero |
| `References.ReleasePipes` | crates/wasmux/src/kernel/mod.rs:1181-1192 | closing the last reference to an end takes that end off its pipe's count, and a pipe without ends goes |
| `SharedStates.SharedState.ReleaseFds` | crates/wasmux/src/kernel/mod.rs:1208-1212 | every descriptor is released once |
| `SharedStates.SharedState.ReadStdin` | crates/wasmux/src/kernel/syscall.rs:2002-2036 | up to and including a newline; nothing at the end; a wait, remembered, on an empty open input |
| `Handlers.Context.Wait4` | crates/wasmux/src/kernel/syscall.rs:581-624 | the loop over the table finds the first dead matching child |
| `Handlers.Context.Kill` | crates/wasmux/src/kernel/syscall.rs:1503-1534 | the signal is raised on exactly the targets, whose sleep ends; ESRCH without one |
| `Handlers.Context.CountReady` | crates/wasmux/src/kernel/syscall.rs:2281-2298 | how many entries are ready |
| `Handlers.Context.Vectored` | crates/wasmux/src/kernel/syscall.rs:904-936 | element by element, stopping at the first that comes up short |
| `Handlers.Context.Dispatch` | crates/wasmux/src/kernel/syscall.rs:82-115 | one call served or retried, a wait ended by a deliverable signal |
| `RefCalls.DispatchRefs` | crates/wasmux/src/kernel/syscall.rs:82-115 | whatever the call, references move with the slots within reach, up to what it is named to lose |
| `RefCalls.CloseRefs` | crates/wasmux/src/kernel/syscall.rs:897-901 | the slot and its reference go together |
| `RefCalls.DupRefs` | crates/wasmux/src/kernel/syscall.rs:1010-1028 | the reference is taken before the slot is found and is the one lost when none is |
| `RefCalls.OpenRefs` | crates/wasmux/src/kernel/syscall.rs:1788-1805 | a description that finds no descriptor goes again |
| `RefCalls.PipeRefs` | crates/wasmux/src/kernel/syscall.rs:1052-1108 | a pipe's descriptions account for their descriptors, or are named as lost |
| `RefCalls.Dup3Refs` | crates/wasmux/src/kernel/syscall.rs:1029-1051 | one reference moves to the new slot and the replaced one goes, or one is lost |
| `PipeCalls.DispatchPipes` | crates/wasmux/src/kernel/syscall.rs:82-115 | whatever the call, a pipe counts its live ends and those lost |
| `Schedulers.Scheduler.SpawnFirst` | crates/wasmux/src/kernel/mod.rs:447-495 | process 1 on its three streams, or no session |
| `Schedulers.Scheduler.FinishProcess` | crates/wasmux/src/kernel/mod.rs:940-968 | memory given back, vfork children ended innermost first, then the process; the session's status set by process 1 or the last one |
| `Schedulers.Scheduler.KillAll` | crates/wasmux/src/kernel/mod.rs:970-975 | every process ended, the first status kept |
| `Schedulers.Scheduler.Drain` | crates/wasmux/src/kernel/mod.rs:779-790 | the reading loop of a host command |
| `Schedulers.Scheduler.Flush` | crates/wasmux/src/kernel/mod.rs:849-860 | the writing loop of one stream, resumable where it stops |
| `Schedulers.Scheduler.WhyIdle` | crates/wasmux/src/kernel/mod.rs:978-1000 | the verdict, its flag consumed, the earliest wake-up found by the loop |
| `Schedulers.Scheduler.RetryPass` | crates/wasmux/src/kernel/mod.rs:625-657 | the pass over a list of stuck processes leaves each still waiting |
| `Schedulers.Scheduler.Move` | crates/wasmux/src/kernel/mod.rs:595-674 | every move of the scheduler takes the session where the state machine takes it |
| `SignalBits.Triage` | crates/wasmux/src/kernel/task.rs:158-176 | deliverable and ignored are disjoint parts of pending, exactly as specified by the actions and the mask |
| `SignalBits.TrailingZeros` | crates/wasmux/src/kernel/syscall.rs:462-462 | the lowest signal in the word |
| `SignalBits.Take` | crates/wasmux/src/kernel/syscall.rs:445-489 | the next delivery on the kernel's words is the one specified on sets |
| `SignalBits.NextSignalTakes` | crates/wasmux/src/kernel/syscall.rs:445-489 | ignored signals go, the lowest deliverable goes and is delivered, blocked ones stay; on none, none is left |
| `SignalBits.DeliverableActs` | crates/wasmux/src/kernel/syscall.rs:466-475 | a deliverable signal is never ignored and never harmless by default, so the loop never goes round |
| `SignalBits.Raises` | crates/wasmux/src/kernel/task.rs:124-138 | raising sets exactly one signal's bit, and none for what is not a signal |
| `SignalBits.Clears` | crates/wasmux/src/kernel/syscall.rs:451-455 | clearing bits takes away exactly those signals |
| `Paths.Normalize` | crates/wasmux/src/kernel/path.rs:257-280 | the two loops are one fold, and the result is clean |
| `Paths.NormalizedIsClean` | crates/wasmux/src/kernel/path.rs:257-280 | no component is empty, a dot, two dots or holds a slash |
| `Paths.NormalizedIsOneFold` | crates/wasmux/src/kernel/path.rs:257-280 | one stack fold over the base's components and then the path's |
| `Paths.DotsGoUp` | crates/wasmux/src/kernel/path.rs:257-280 | after clean components two dots go up one, and stay at the root; a dot or nothing stays; anything else goes down; and the clean rest follows |
| `Paths.TailGoesOn` | crates/wasmux/src/kernel/path.rs:257-280 | clean components after any path are added to what it normalizes to |
| `Paths.TwoStages` | crates/wasmux/src/kernel/path.rs:257-280 | normalizing in two stages is normalizing the concatenation |
| `Paths.JoinRoundTrip` | crates/wasmux/src/kernel/path.rs:283-294 | normalizing a joined clean path gives its components back |
| `Paths.JoinParts` | crates/wasmux/src/kernel/path.rs:283-294 | a slash before every component; a slash alone for none |
| `Paths.SortedKeeps` | crates/wasmux/src/kernel/path.rs:44-48 | the mount table is the same mounts, longest mount point first |
| `Paths.Find` | crates/wasmux/src/kernel/path.rs:55-70 | the first mount in the table that owns the path |
| `Paths.FindIsLongest` | crates/wasmux/src/kernel/path.rs:55-70 | the mount with the most components in common; mount point and remainder reassemble the path and the remainder is normalized |
| `Paths.OwnedByParts` | crates/wasmux/src/kernel/path.rs:57-67 | a mount owns exactly the paths whose components begin with its own |
| `Resolvers.Resolve` | crates/wasmux/src/kernel/path.rs:308-355 | the splice-and-restart loop, which ends on every filesystem by hops left and then components left |
| `Resolvers.ResolveSettles` | crates/wasmux/src/kernel/path.rs:308-355 | on a stable filesystem the result has no symlink at any prefix, is never one of the kernel's links, names its path, and resolves to itself again from anywhere |
| `Resolvers.ResolveUnfollowed` | crates/wasmux/src/kernel/path.rs:326-350 | without following the last component no proper prefix is a symlink |
| `Resolvers.LinkLeads` | crates/wasmux/src/kernel/path.rs:331-345 | a path through a symlink means the target, taken from the directory the link stands in, with the rest of the path after it: resolving the one is resolving the other, too many links aside |
| `Resolvers.PlainPath` | crates/wasmux/src/kernel/path.rs:308-355 | a path through no link at all is what is there |
| `Resolvers.ClassifyWhen` | crates/wasmux/src/kernel/path.rs:358-402 | a program wins over whatever is mounted there, a mounted node is of the longest mount point that owns the path, and ENOENT is the answer exactly if nothing has that name |
| `Resolvers.FdPaths` | crates/wasmux/src/kernel/path.rs:408-425 | /proc/self/fd/N, and the same under the caller's pid, is the caller's descriptor N |
| `Resolvers.LoopsExactly` | crates/wasmux/src/kernel/path.rs:331-334 | on any filesystem, changing ones included, ELOOP is the answer exactly when there are more than 40 links to follow |
| `Resolvers.CyclesLoop` | crates/wasmux/src/kernel/path.rs:331-334 | links that lead into a circle, after however many links, of whatever length and at whatever component, end in ELOOP |
| `Resolvers.ProbesAreNormalized` | crates/wasmux/src/kernel/path.rs:308-355 | for every filesystem and every path, each question the whole resolution puts to a mount, spliced paths included, is about a normalized path inside that mount |
| `Resolvers.AskedIsAll` | crates/wasmux/src/kernel/path.rs:358-468 | those are all the questions: two filesystems that agree on them resolve alike |
| `Resolvers.ClassifyNames` | crates/wasmux/src/kernel/path.rs:358-402 | the node names the path it was classified from and is never a link |
| `GuestMemory.Mem.Put` | crates/wasmux/src/kernel/mem.rs:93-97 | all the bytes, or none and a fault |
| `GuestMemory.Mem.Get` | crates/wasmux/src/kernel/mem.rs:53-57 | a little-endian word, or a fault |
| `GuestMemory.Mem.GetString` | crates/wasmux/src/kernel/mem.rs:132-141 | the bytes before the first zero within the cap, or an error |
| `GuestMemory.Mem.GetArray` | crates/wasmux/src/kernel/mem.rs:150-181 | the strings up to the null pointer, or the first error |
| `GuestMemory.ArrayIsOk` | crates/wasmux/src/kernel/mem.rs:150-181 | whatever is read is within every cap and holds no zero byte |
| `StartBlocks.StartBlock` | crates/wasmux/src/kernel/syscall.rs:346-408 | the loops print the specified block |
| `StartBlocks.ArgumentsSurvive` | crates/wasmux/src/kernel/syscall.rs:346-408 | argv and envp read from the block are byte for byte what exec read from the caller's memory, and the count is right |
| `StartBlocks.FileNameReads` | crates/wasmux/src/kernel/syscall.rs:387-399 | AT_EXECFN points at the program's own name |
| `StartBlocks.LengthIsFixed` | crates/wasmux/src/kernel/syscall.rs:346-408 | the length does not depend on the base |
| `StartBlocks.BlockIsSelfContained` | crates/wasmux/src/kernel/syscall.rs:346-408 | every offset lands inside the block |
| `MemTrees.MemVfs.Rename` | crates/wasmux/src/vfs/mem.rs:330-354 | succeeds exactly with a source, a directory to move into and that directory not inside the source; then every path under the target is the old one under the source, nothing is left at the source, all else is untouched; a failure changes nothing |
| `MemTrees.MemVfs.Mkdir` | crates/wasmux/src/vfs/mem.rs:287-299 | exactly one path becomes a directory, or an error and no change |
| `MemTrees.MemVfs.Symlink` | crates/wasmux/src/vfs/mem.rs:356-368 | exactly one path becomes a link, or an error and no change |
| `MemTrees.MemVfs.Unlink` | crates/wasmux/src/vfs/mem.rs:301-313 | exactly one file or link goes, or an error and no change |
| `MemTrees.MemVfs.Rmdir` | crates/wasmux/src/vfs/mem.rs:315-328 | exactly one empty directory goes, or an error and no change |
| `MemTrees.MemVfs.Open` | crates/wasmux/src/vfs/mem.rs:204-247 | which opens succeed, what they create or truncate, and that a file keeps its identity |
| `MemTrees.MemVfs.WriteFile` | crates/wasmux/src/vfs/mem.rs:136-159 | the contents replaced, missing directories made and nothing else; a failure changes nothing |
| `MemTrees.MemVfs.MkdirAll` | crates/wasmux/src/vfs/mem.rs:86-97 | only missing directories on the way are added |
| `MemTrees.MemVfs.ReadFile` | crates/wasmux/src/vfs/mem.rs:162-169 | the contents of a file, or an error |
| `MemTrees.MemVfs.Readdir` | crates/wasmux/src/vfs/mem.rs:267-285 | exactly the names that lead somewhere from the directory |
| `MemTrees.MemVfs.Locate` | crates/wasmux/src/vfs/mem.rs:54-63 | the walk from the root |
| `MemTrees.PrefixClosed` | crates/wasmux/src/vfs/mem.rs:54-63 | whatever has something below it is a directory |
| `MemTrees.PutBack` | crates/wasmux/src/vfs/mem.rs:345-352 | what was cut out and put back leaves the tree as it was |
| `MemTrees.MadeDirsReach` | crates/wasmux/src/vfs/mem.rs:86-97 | afterwards the path is a directory, unless something else is in the way, and then nothing changed |
| `MemTrees.MemFile.Read` | crates/wasmux/src/vfs/mem.rs:388-399 | the next bytes and the position past them |
| `MemTrees.MemFile.Write` | crates/wasmux/src/vfs/mem.rs:401-420 | bytes at the position, or at the end when appending, any gap filled with zeros |
| `Dirents.Directory.Getdents` | crates/wasmux/src/kernel/syscall.rs:1155-1190 | the loop fills the buffer as specified |
| `Dirents.EachEntryOnce` | crates/wasmux/src/kernel/syscall.rs:1155-1194 | successive calls with any buffers list every entry exactly once and in order if and only if no copy faulted with records in it; those entries no later call gives |
| `Dirents.ParseRecords` | crates/wasmux/src/kernel/syscall.rs:1172-1186 | parsing by record length recovers the entries |
| `Dirents.CallsProgress` | crates/wasmux/src/kernel/syscall.rs:1164-1171 | nothing is returned exactly at the end, blocks are 8-aligned and within the buffer, a refusal moves nothing |

## Left out

- The engines, the toolchain, wasm itself: an instance is a size, a stack-saving area and a list of mappings.
- `HostVfs`, the command line, terminals, tracing, random bytes (they read as zeros), corpus and build scripts.
- Calls that only compute an answer (`uname`, `sysinfo`, `statx`, resource limits, `/proc` texts, `ioctl`): one constructor, `Plainly`; calls that only ask a filesystem: one constructor, `FileCall`.
- Decoding of arguments from guest memory inside the state machine: arguments arrive decoded, faults are answers. The accessors themselves are modelled in `GuestMemory`.
- File contents and positions of mounted files, `lseek` and `ftruncate`: a mounted file answers as it likes. The position of an open directory is modelled in `Dirents` only.
- The cast of an answer to 32 bits: `brk` and `mmap` addresses are plain numbers.
- Text decoding: a command's name is kept as bytes, and a path is a list of characters each standing for one byte.
- The skipping of parked processes and the slice budget: they decide when a move is made, not what it does.
- Waking a guest by rewinding its stack is one state, `Running`; what the rewind restores is modelled in `Jumps`.
- A guest that traps, returns from `main` or jumps to a `jmp_buf` never set is one move, `Gone`, with the status and the complaint given.
- `spawn_first` failing after it has made a record: the session does not begin.
- `Overlay::new`: the directories implied by program paths are given to the resolver as a set.
- `MemVfs::stat` following a link, `readlink`, `snapshot`, and the lock around the tree. The tree is edited by rebuilding the path from the root, not through a cursor into it.
- The order of names in a directory listing of `MemVfs`: a set.
- Conversion of relative directory arguments, `linkat`, modes and times.
- `Handlers.Context` borrows: a process's context and a task's descriptor table are objects while an operation works on them and values between operations.
- `Jumps`: memory is a value, and what a guest writes while it unwinds is one overlay of its area.
- HostRuns.HostWrites: is about pipes, the one kind of descriptor the history records; for the others what was sent is what the writes said they accepted.
- Deadlock.PassLeavesAllBlocked: leaves out file mappings, which are not stutters (`Mappings.StutterExactly`).
- Stutter.RetriesAreOneCall: leaves out file mappings, for which it is false.
