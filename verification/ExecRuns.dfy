/** What an `execve` asks for is what the new program gets: the program, its arguments and its
    environment, from the call to the process that starts, over whole runs. */
module ExecRuns {
  import opened Base
  import opened Slabs
  import opened Sums
  import opened Fds
  import opened Kernel
  import opened Syscalls
  import opened HostSteps
  import opened Signals
  import opened Machine
  import opened References
  import opened CallFrames
  import opened HostFrames
  import opened SessionRefs
  import opened Books
  import opened RefTheorems
  import opened CensusRuns
  import opened HostOnce
  import opened Exits
  import opened HostRuns

  // ----- one call ------------------------------------------------------------------------

  /** The task the new program starts with: the caller's own, less the descriptors marked
      close-on-exec. */
  ghost predicate CarriedOver(before: Task, after: Task) {
    && after == before.(fds := after.fds)
    && forall fd :: IsOpen(after.fds, fd) <==> IsOpen(before.fds, fd) && !before.fds[fd].value.cloexec
  }

  /** An `execve` queues a process, or asks for the instance to be replaced: with the program, the
      path, the arguments and the environment of the call, each in its place, and with the task of the
      caller. A `vfork` child goes to the end of the queue and its parent is back, with its pid. */
  lemma ExecveHands(c: Cpu, program: nat, exe: string, argv: seq<seq<byte>>, envp: seq<seq<byte>>)
    ensures
      var (a, after) := DoExecve(c, program, exe, argv, envp);
      var n, m := |c.ctx.vforkStack|, |c.sh.spawn|;
      && (n > 0 ==>
            && a == Value(c.ctx.task.pid) && after.ctx.execRequest == c.ctx.execRequest
            && after.ctx.task == c.ctx.vforkStack[n - 1] && after.ctx.vforkStack == c.ctx.vforkStack[..n - 1]
            && |after.sh.spawn| == m + 1 && after.sh.spawn[..m] == c.sh.spawn)
      && (n == 0 ==> a == Execs && after.sh.spawn == c.sh.spawn && after.ctx.execRequest.Some?)
      && var s := if n > 0 then after.sh.spawn[m] else after.ctx.execRequest.value;
         && s.program == program && s.exe == exe && s.argv == argv && s.envp == envp
         && CarriedOver(c.ctx.task, s.task)
  {
    hide ReleaseAll, DrainedCloexec;
    ReleaseAllFrame(c.sh, DrainedCloexec(c.ctx.task.fds));
  }

  /** A guest or a host command that starts knows itself by the path and the first argument it was
      started with, and a host command has the arguments and the environment. */
  lemma LaunchGives(k: Session, spawn: Spawn, launch: Launch)
    requires Start(k, spawn, launch).1
    ensures
      var after := Start(k, spawn, launch).0;
      && |after.procs| == |k.procs| + 1
      && var p := after.procs[|k.procs|];
         && p.ctx.task == spawn.task.(exe := spawn.exe, comm := p.ctx.task.comm, sigact := p.ctx.task.sigact)
         && p.ctx.task.comm == (if |spawn.argv| > 0 then spawn.argv[0] else [])
         && p.ctx.vforkStack == [] && p.ctx.execRequest == None
         && (p.body.Host? ==> p.body.argv == spawn.argv && p.body.envp == spawn.envp)
  {
    hide ReleaseFds, Charged;
  }

  // ----- who asked -----------------------------------------------------------------------

  /** The spawn is due: in the queue, or to replace the instance that asked for it. */
  ghost predicate Due(k: Session, s: Spawn) {
    s in k.sh.spawn || exists i :: 0 <= i < |k.procs| && k.procs[i].ctx.execRequest == Some(s)
  }

  /** The move is the `execve` that asks for it. */
  ghost predicate AsksFor(k: Session, m: Move, s: Spawn) {
    && Enabled(k, m) && (m.Syscall? || m.Retry?)
    && m.call == Life(Execve(s.program, s.exe, s.argv, s.envp))
    && CarriedOver(k.procs[m.i].ctx.task, s.task)
  }

  lemma ExecveAsks(c: Cpu, call: Call, now: nat, s: Spawn)
    requires var after := Dispatch(c, call, now).1; s in after.sh.spawn || after.ctx.execRequest == Some(s)
    ensures
      || s in c.sh.spawn || c.ctx.execRequest == Some(s)
      || (call == Life(Execve(s.program, s.exe, s.argv, s.envp)) && CarriedOver(c.ctx.task, s.task))
  {
    hide Finished, DoExecve, CarriedOver, Handle;
    var after := Handle(Counted(c), call, now).1;
    FinishFrame(after);
    if call.Life? && call.life.Execve? {
      var e := call.life;
      ExecveHands(Counted(c), e.program, e.exe, e.argv, e.envp);
      HandlesExecve(Counted(c), e, now);
      if |c.ctx.vforkStack| > 0 && s in after.sh.spawn {
        assert after.sh.spawn == c.sh.spawn + [after.sh.spawn[|c.sh.spawn|]];
      }
    } else {
      OthersQueueNothing(Counted(c), call, now);
    }
  }

  lemma HandlesExecve(c: Cpu, e: LifeCall, now: nat)
    requires e.Execve?
    ensures Handle(c, Life(e), now) == DoExecve(c, e.program, e.exe, e.argv, e.envp)
  {
    hide DoExecve;
  }

  lemma OthersQueueNothing(c: Cpu, call: Call, now: nat)
    requires !(call.Life? && call.life.Execve?)
    ensures var after := Handle(c, call, now).1;
      after.sh.spawn == c.sh.spawn && after.ctx.execRequest == c.ctx.execRequest
  {
    hide HandleFiles, HandleMem, HandleWait, HandleOwn, HandleBytes, ReleaseFds, ExitTable, Bumped, Drained, LiveCount;
    if call.Life? {
      ReleaseFdsFrame(c.sh, c.ctx.task.fds);
    } else {
      HandleIdentity(c, call, now);
    }
  }

  // ----- the moves -----------------------------------------------------------------------

  lemma FewerWait(k: Session, i: nat, status: int, s: Spawn)
    requires i < |k.procs| && Due(FinishProcess(k, i, status), s)
    ensures Due(k, s)
  {
    hide StackEnds;
    var p := k.procs[i];
    var after := FinishProcess(k, i, status);
    StackQueue(Uncharged(k.sh, AddU64(p.charged, p.ctx.exec.grown)), p.ctx.task, p.ctx.vforkStack, status);
    if s !in after.sh.spawn {
      var j :| 0 <= j < |after.procs| && after.procs[j].ctx.execRequest == Some(s);
      assert after.procs[j] == k.procs[if j < i then j else j + 1];
    }
  }

  lemma {:induction false} StackQueue(sh: Shared, task: Task, stack: seq<Task>, status: int)
    ensures StackEnds(sh, task, stack, status).spawn == sh.spawn
    decreases |stack|
  {
    hide ReleaseFds, ExitTable;
    ReleaseFdsFrame(sh, task.fds);
    var n := |stack|;
    if n > 0 {
      StackQueue(TaskEnds(sh, task, StatusSignaled(SIGKILL)), stack[n - 1], stack[..n - 1], status);
    }
  }

  lemma {:induction false} NobodyWaits(k: Session, status: int, s: Spawn)
    requires Due(KillAll(k, status), s)
    ensures Due(k, s)
    decreases |k.procs|
  {
    hide FinishProcess, Due;
    if |k.procs| > 0 {
      FinishPlaces(k, 0, status, 0);
      NobodyWaits(FinishProcess(k, 0, status), status, s);
      FewerWait(k, 0, status, s);
    } else {
      SameWait(k, KillAll(k, status), s);
    }
  }

  lemma SameWait(k: Session, after: Session, s: Spawn)
    requires after.sh.spawn == k.sh.spawn && Due(after, s)
    requires forall j :: 0 <= j < |after.procs| && after.procs[j].ctx.execRequest.Some? ==>
      exists i :: 0 <= i < |k.procs| && k.procs[i].ctx.execRequest == after.procs[j].ctx.execRequest
    ensures Due(k, s)
  {
  }

  lemma ServeWaits(k: Session, i: nat, call: Call, now: nat, s: Spawn)
    requires i < |k.procs| && Due(Serve(k, i, call, now), s)
    ensures Due(k, s)
      || (call == Life(Execve(s.program, s.exe, s.argv, s.envp)) && CarriedOver(k.procs[i].ctx.task, s.task))
  {
    hide Dispatch, FinishProcess, CarriedOver;
    var p := k.procs[i];
    var (a, after) := Dispatch(CpuAt(k, i), call, now);
    var p' := p.(ctx := after.ctx, inst := after.inst, resume := if a.Block? then BlockedIn(call) else Running);
    var served := k.(sh := after.sh, procs := k.procs[i := p']);
    if a.Exits? {
      FewerWait(served, i, a.status, s);
    }
    if s in served.sh.spawn || p'.ctx.execRequest == Some(s) {
      ExecveAsks(CpuAt(k, i), call, now, s);
    } else {
      var j :| 0 <= j < |served.procs| && served.procs[j].ctx.execRequest == Some(s);
      assert k.procs[j].ctx.execRequest == Some(s);
    }
  }

  lemma FetchWaits(k: Session, i: nat, s: Spawn)
    requires i < |k.procs| && Due(Fetch(k, i), s)
    ensures Due(k, s)
  {
    hide NextSignal, FinishProcess, WithRecord;
    var p := k.procs[i];
    var pid := p.ctx.task.pid;
    var (d, left, t) := NextSignal(Pending(k.sh, pid), p.ctx.task);
    var r := Find(k.sh.table, pid);
    var sh := if r.Some? then k.sh.(table := WithRecord(k.sh.table, pid, r.value.(pending := left))) else k.sh;
    var exec := if d.NoSignal? && p.ctx.exec.hasFlag then p.ctx.exec.(flag := false) else p.ctx.exec;
    var fetched := k.(sh := sh, procs := k.procs[i := p.(ctx := p.ctx.(task := t, exec := exec))]);
    if d.Fatal? {
      FewerWait(fetched, i, d.status, s);
    }
    if s !in fetched.sh.spawn {
      var j :| 0 <= j < |fetched.procs| && fetched.procs[j].ctx.execRequest == Some(s);
      assert k.procs[j].ctx.execRequest == Some(s);
    }
  }

  lemma HostWaits(k: Session, i: nat, o: HostOracle, s: Spawn)
    requires i < |k.procs| && k.procs[i].body.Host? && PhaseOk(k.procs[i].body.phase)
    requires Due(HostTurn(k, i, o), s)
    ensures Due(k, s)
  {
    hide StepHost, FinishProcess;
    var p := k.procs[i];
    HostFrame(k.sh, p.ctx.task, p.body.readsStdin, p.body.phase, o);
    match StepHost(k.sh, p.ctx.task, p.body.readsStdin, p.body.phase, o)
    case None =>
    case Some((step, phase, sh)) =>
      var stepped := k.(sh := sh, procs := k.procs[i := p.(body := p.body.(phase := phase))]);
      if step.EndedWith? {
        FewerWait(stepped, i, step.status, s);
      }
      if s !in stepped.sh.spawn {
        var j :| 0 <= j < |stepped.procs| && stepped.procs[j].ctx.execRequest == Some(s);
        assert k.procs[j].ctx.execRequest == Some(s);
      }
  }

  lemma StartWaits(k: Session, spawn: Spawn, launch: Launch)
    ensures var (after, ok) := Start(k, spawn, launch);
      && after.sh.spawn == k.sh.spawn
      && (forall j :: 0 <= j < |k.procs| ==> j < |after.procs| && after.procs[j] == k.procs[j])
      && |after.procs| == |k.procs| + Unit(ok)
      && (ok ==> after.procs[|k.procs|].ctx.execRequest == None)
  {
    hide ReleaseFds;
    ReleaseFdsFrame(k.sh, spawn.task.fds);
    if launch.GuestRuns? {
      var charge := AddU64(launch.Size(), ASYNCIFY_PAGES * PAGE);
      ReleaseFdsFrame(Uncharged(Charged(k.sh, charge).0, charge), spawn.task.fds);
    }
  }

  lemma StartNextWaits(k: Session, launch: Launch, s: Spawn)
    requires |k.sh.spawn| > 0 && Due(StartNext(k, launch), s)
    ensures Due(k, s)
  {
    hide Start, ExitTable;
    var popped := k.(sh := k.sh.(spawn := k.sh.spawn[1..]));
    StartWaits(popped, k.sh.spawn[0], launch);
    var after := StartNext(k, launch);
    if s !in after.sh.spawn {
      var j :| 0 <= j < |after.procs| && after.procs[j].ctx.execRequest == Some(s);
      assert k.procs[j].ctx.execRequest == Some(s);
    }
  }

  lemma ReplaceWaits(k: Session, i: nat, launch: Launch, s: Spawn)
    requires i < |k.procs| && k.procs[i].ctx.execRequest.Some? && Due(ReplaceInstance(k, i, launch), s)
    ensures Due(k, s)
  {
    hide Start, ExitTable, Dropped;
    var p := k.procs[i];
    var freed := k.(procs := Dropped(k.procs, i), sh := Uncharged(k.sh, AddU64(p.charged, p.ctx.exec.grown)));
    StartWaits(freed, p.ctx.execRequest.value, launch);
    var (started, ok) := Start(freed, p.ctx.execRequest.value, launch);
    MovedDue(started, ReplaceInstance(k, i, launch), s);
    StartedDue(freed, started, Unit(ok), s);
    DroppedDue(k, i, freed, s);
  }

  lemma MovedDue(k: Session, after: Session, s: Spawn)
    requires Due(after, s) && after.sh.spawn == k.sh.spawn
    requires forall j :: 0 <= j < |after.procs| ==> after.procs[j] in k.procs
    ensures Due(k, s)
  {
  }

  lemma StartedDue(k: Session, started: Session, more: nat, s: Spawn)
    requires Due(started, s) && started.sh.spawn == k.sh.spawn && more <= 1 && |started.procs| == |k.procs| + more
    requires forall j :: 0 <= j < |k.procs| ==> started.procs[j] == k.procs[j]
    requires more == 1 ==> started.procs[|k.procs|].ctx.execRequest == None
    ensures Due(k, s)
  {
  }

  lemma DroppedDue(k: Session, i: nat, freed: Session, s: Spawn)
    requires i < |k.procs| && freed.procs == Dropped(k.procs, i) && freed.sh.spawn == k.sh.spawn && Due(freed, s)
    ensures Due(k, s)
  {
    if s !in freed.sh.spawn {
      var j :| 0 <= j < |freed.procs| && freed.procs[j].ctx.execRequest == Some(s);
      assert freed.procs[j] == k.procs[if j < i then j else j + 1];
    }
  }

  /** Nobody waits to become anything but what an `execve` has asked for. */
  lemma StepWaits(k: Session, m: Move, s: Spawn)
    requires Due(Step(k, m), s)
    ensures Due(k, s) || AsksFor(k, m, s)
  {
    hide Serve, FinishProcess, ReplaceInstance, StartNext, Fetch, HostTurn, KillAll, Due, CarriedOver;
    if Enabled(k, m) {
      match m
      case Syscall(i, call, now) => ServeWaits(k, i, call, now, s);
      case Retry(i, call, now) => ServeWaits(k, i, call, now, s);
      case Replace(i, launch) => ReplaceWaits(k, i, launch, s);
      case FetchSignal(i) => FetchWaits(k, i, s);
      case Gone(i, status, complaint) =>
        FewerWait(k.(sh := WriteOutput(k.sh, 2, complaint)), i, status, s);
        SameWait(k, k.(sh := WriteOutput(k.sh, 2, complaint)), s);
      case StartSpawn(launch) => StartNextWaits(k, launch, s);
      case HostMove(i, o) => HostWaits(k, i, o, s);
      case WallClock(status) => NobodyWaits(k, status, s);
      case Init(i) => InitWaits(k, i, s);
      case _ => SameWait(k, Step(k, m), s);
    }
  }

  lemma InitWaits(k: Session, i: nat, s: Spawn)
    requires Enabled(k, Init(i)) && Due(Step(k, Init(i)), s)
    ensures Due(k, s)
  {
  }

  /** Starting the spawn makes a process that has its arguments. */
  ghost predicate StartedAs(p: Proc, s: Spawn) {
    && p.ctx.task.exe == s.exe && p.ctx.task.comm == (if |s.argv| > 0 then s.argv[0] else [])
    && p.ctx.task.pid == s.task.pid && p.ctx.task.cwd == s.task.cwd
    && (p.body.Host? ==> p.body.argv == s.argv && p.body.envp == s.envp)
  }

  // ----- starting and failing to -----------------------------------------------------------

  /** A spawn becomes a process exactly if it names a host command, or a guest whose instance can be made,
      fits what is left of the session's memory and can grow by its stack-saving area. */
  lemma StartsWhen(k: Session, spawn: Spawn, launch: Launch)
    requires k.sh.limits.memory < U64_MAX
    ensures Start(k, spawn, launch).1 <==>
      || launch.HostCommand?
      || (launch.GuestRuns? && launch.grows && k.sh.memoryUsed + (launch.pages + 16) * 65536 <= k.sh.limits.memory)
  {
    hide ReleaseFds;
  }

  lemma FailsQuietly(k: Session, spawn: Spawn, launch: Launch)
    requires !Start(k, spawn, launch).1
    ensures var after := Start(k, spawn, launch).0;
      after.procs == k.procs && after.sh.table == k.sh.table && after.sh.spawn == k.sh.spawn
      && after.exitStatus == k.exitStatus
  {
    hide ReleaseFds, Charged, Uncharged;
    ReleaseFdsFrame(k.sh, spawn.task.fds);
    if launch.GuestRuns? {
      var charge := AddU64(launch.Size(), ASYNCIFY_PAGES * PAGE);
      ReleaseFdsFrame(Uncharged(Charged(k.sh, charge).0, charge), spawn.task.fds);
      ChargeTable(k.sh, charge);
    }
  }

  lemma ChargeTable(sh: Shared, bytes: nat)
    ensures var after := Uncharged(Charged(sh, bytes).0, bytes); after.table == sh.table && after.spawn == sh.spawn
  {
  }

  /** The queue is served from the front: the oldest spawn becomes the last of the running processes, or
      ends with status 126 if it cannot start; the others stay queued, and running, in order. */
  lemma OldestStarts(k: Session, launch: Launch)
    requires Enabled(k, StartSpawn(launch)) && Find(k.sh.table, k.sh.spawn[0].task.pid).Some?
    ensures
      var s, after := k.sh.spawn[0], Step(k, StartSpawn(launch));
      var popped := k.(sh := k.sh.(spawn := k.sh.spawn[1..]));
      && after.sh.spawn == k.sh.spawn[1..]
      && (if Start(popped, s, launch).1 then
            && |after.procs| == |k.procs| + 1 && after.procs[..|k.procs|] == k.procs
            && StartedAs(after.procs[|k.procs|], s) && after.sh.table == k.sh.table
          else
            && after.procs == k.procs
            && EndOf(after.sh.table, s.task.pid) ==
               if Find(after.sh.table, s.task.pid).None? then None
               else if EndOf(k.sh.table, s.task.pid).Some? then EndOf(k.sh.table, s.task.pid)
               else Some(126 * 256))
  {
    hide Start, ExitTable, Find;
    var s := k.sh.spawn[0];
    var popped := k.(sh := k.sh.(spawn := k.sh.spawn[1..]));
    StartWaits(popped, s, launch);
    if Start(popped, s, launch).1 {
      LaunchGives(popped, s, launch);
      StartKeepsTable(popped, s, launch);
    } else {
      FailsQuietly(popped, s, launch);
      ExitTells(Start(popped, s, launch).0.sh, s.task.pid, StatusExited(126));
    }
  }

  lemma StartKeepsTable(k: Session, spawn: Spawn, launch: Launch)
    requires Start(k, spawn, launch).1
    ensures var after := Start(k, spawn, launch).0;
      after == k.(procs := after.procs, sh := k.sh.(memoryUsed := after.sh.memoryUsed))
  {
    hide ReleaseFds;
  }

  /** An `execve` in place ends with the new program in the place of the old, or, once the old one is gone,
      with the process ended with status 126; either way no other process moves. */
  lemma ReplacedOrEnded(k: Session, i: nat, launch: Launch)
    requires Enabled(k, Replace(i, launch)) && Find(k.sh.table, k.procs[i].ctx.execRequest.value.task.pid).Some?
    ensures
      var s, after := k.procs[i].ctx.execRequest.value, Step(k, Replace(i, launch));
      if |after.procs| == |k.procs| then
        && after.procs[..i] == k.procs[..i] && after.procs[i + 1..] == k.procs[i + 1..]
        && StartedAs(after.procs[i], s) && after.sh.table == k.sh.table
      else
        && after.procs == k.procs[..i] + k.procs[i + 1..]
        && EndOf(after.sh.table, s.task.pid) ==
           if Find(after.sh.table, s.task.pid).None? then None
           else if EndOf(k.sh.table, s.task.pid).Some? then EndOf(k.sh.table, s.task.pid)
           else Some(126 * 256)
  {
    hide Start, ExitTable, Find, StartedAs;
    var p := k.procs[i];
    var s := p.ctx.execRequest.value;
    var freed := k.(procs := Dropped(k.procs, i), sh := Uncharged(k.sh, AddU64(p.charged, p.ctx.exec.grown)));
    StartWaits(freed, s, launch);
    if Start(freed, s, launch).1 {
      LaunchedAs(freed, s, launch);
      StartKeepsTable(freed, s, launch);
      BackInPlace(k.procs, i, Start(freed, s, launch).0.procs);
    } else {
      FailsQuietly(freed, s, launch);
      ExitTells(Start(freed, s, launch).0.sh, s.task.pid, StatusExited(126));
    }
  }

  lemma LaunchedAs(k: Session, spawn: Spawn, launch: Launch)
    requires Start(k, spawn, launch).1
    ensures var procs := Start(k, spawn, launch).0.procs;
      |procs| == |k.procs| + 1 && StartedAs(procs[|k.procs|], spawn)
  {
    hide Start;
    LaunchGives(k, spawn, launch);
  }

  /** The last of the list put where one was taken out. */
  lemma BackInPlace(procs: seq<Proc>, i: nat, started: seq<Proc>)
    requires i < |procs| == |started|
    requires forall j :: 0 <= j < |procs| - 1 ==> started[j] == Dropped(procs, i)[j]
    ensures var n := |started| - 1;
      var after := started[..Min(i, n)] + [started[n]] + started[Min(i, n)..n];
      |after| == |procs| && after[..i] == procs[..i] && after[i] == started[n] && after[i + 1..] == procs[i + 1..]
  {
  }

  // ----- every run -----------------------------------------------------------------------

  /** The spawn was asked for in the run: an `execve` of it, by the process it is to be. */
  ghost predicate Asked(k: Session, moves: seq<Move>, s: Spawn) {
    exists n :: 0 <= n < |moves| && AsksFor(Run(k, moves[..n]), moves[n], s)
  }

  lemma AskedStays(k: Session, moves: seq<Move>, m: Move, s: Spawn)
    requires Asked(k, moves, s) || AsksFor(Run(k, moves), m, s)
    ensures Asked(k, moves + [m], s)
  {
    hide Run, AsksFor;
    var all := moves + [m];
    if Asked(k, moves, s) {
      var n :| 0 <= n < |moves| && AsksFor(Run(k, moves[..n]), moves[n], s);
      assert all[..n] == moves[..n] && all[n] == moves[n];
    } else {
      assert all[..|moves|] == moves && all[|moves|] == m;
    }
  }

  lemma {:induction false} WaitersAsked(k: Session, moves: seq<Move>, s: Spawn)
    requires Due(Run(k, moves), s)
    ensures Due(k, s) || Asked(k, moves, s)
  {
    hide Step, Due, AsksFor, Asked;
    if |moves| > 0 {
      var before, m := moves[..|moves| - 1], moves[|moves| - 1];
      StepWaits(Run(k, before), m, s);
      if Due(Run(k, before), s) {
        WaitersAsked(k, before, s);
      }
      assert moves == before + [m];
      if !Due(k, s) {
        AskedStays(k, before, m, s);
      }
    }
  }

  lemma NobodyYet(u: Setup, s: Spawn)
    requires Begin(u).Some?
    ensures !Due(Begin(u).value, s)
  {
    hide Streams, Start;
    var (sh, fds) := Streams(EmptyShared(u.limits)).value;
    StreamsQueue(u.limits);
    var s0 := Session(sh.(nextPid := 2, table := [NewRecord(1, 0, 1, 1)]), [], None);
    StartWaits(s0, Spawn(FirstTask(fds, u.cwd), u.program, u.exe, u.argv, u.envp), u.launch);
  }

  lemma StreamsQueue(limits: Limits)
    ensures Streams(EmptyShared(limits)).Some? ==> Streams(EmptyShared(limits)).value.0.spawn == []
  {
    hide Inserted, Allocated;
  }

  /** A process a move starts is made of a spawn that was waiting. */
  lemma NewbornIsDue(k: Session, m: Move, n: nat) returns (s: Spawn)
    requires Newborn(k, m, n)
    ensures Due(k, s) && n < |Step(k, m).procs| && StartedAs(Step(k, m).procs[n], s)
  {
    hide Start, ExitTable;
    match m
    case StartSpawn(launch) =>
      s := k.sh.spawn[0];
      var popped := k.(sh := k.sh.(spawn := k.sh.spawn[1..]));
      StartWaits(popped, s, launch);
      LaunchGives(popped, s, launch);
    case Replace(j, launch) =>
      var p := k.procs[j];
      s := p.ctx.execRequest.value;
      var freed := k.(procs := Dropped(k.procs, j), sh := Uncharged(k.sh, AddU64(p.charged, p.ctx.exec.grown)));
      StartWaits(freed, s, launch);
      LaunchGives(freed, s, launch);
  }

  /** What `spawn_first` is told to start. */
  ghost predicate FirstSpawn(u: Setup, s: Spawn) {
    s.program == u.program && s.exe == u.exe && s.argv == u.argv && s.envp == u.envp && s.task.pid == 1
    && s.task.cwd == u.cwd
  }

  /** On every run, what a process started by it is made of was asked for by an `execve` of the run. */
  lemma NewbornAsked(u: Setup, moves: seq<Move>, m: Move, n: nat) returns (s: Spawn)
    requires Begin(u).Some? && Newborn(Run(Begin(u).value, moves), m, n)
    ensures Asked(Begin(u).value, moves, s)
    ensures var k := Step(Run(Begin(u).value, moves), m); n < |k.procs| && StartedAs(k.procs[n], s)
  {
    hide Begin, Step, Run, Newborn, StartedAs, Due, Asked;
    s := NewbornIsDue(Run(Begin(u).value, moves), m, n);
    WaitersAsked(Begin(u).value, moves, s);
    NobodyYet(u, s);
  }

  lemma FirstIsAsTold(u: Setup, n: nat) returns (s: Spawn)
    requires Begin(u).Some? && n < |Begin(u).value.procs|
    ensures FirstSpawn(u, s) && StartedAs(Begin(u).value.procs[n], s)
  {
    hide Streams, Start;
    var (sh, fds) := Streams(EmptyShared(u.limits)).value;
    var s0 := Session(sh.(nextPid := 2, table := [NewRecord(1, 0, 1, 1)]), [], None);
    s := Spawn(FirstTask(fds, u.cwd), u.program, u.exe, u.argv, u.envp);
    LaunchGives(s0, s, u.launch);
  }

  /** On every run, whatever a host command is handed as its arguments, its environment and its
      directory is what the `execve` that made it was called with, by the process it is, in the
      directory that one was in; or what the session was told to start. */
  lemma ArgumentsReach(u: Setup, moves: seq<Move>, n: nat, o: HostOracle) returns (s: Spawn)
    requires Begin(u).Some? && HostAt(Run(Begin(u).value, moves), n)
    requires Handed(Run(Begin(u).value, moves), n, o).Some?
    ensures FirstSpawn(u, s) || Asked(Begin(u).value, moves, s)
    ensures var k := Run(Begin(u).value, moves);
      var given := Handed(k, n, o).value;
      && given.argv == s.argv && given.envp == s.envp && given.cwd == s.task.cwd
      && k.procs[n].ctx.task.pid == s.task.pid && k.procs[n].ctx.task.exe == s.exe
  {
    hide Begin, Step, Run, Place, Where, Newborn, Asked, Drawn;
    var at, i := EveryHostBegan(u, moves, n);
    if at == 0 {
      assert moves[..at] == [];
      RunNothing(Begin(u).value);
      s := FirstIsAsTold(u, i);
    } else {
      s := NewbornAsked(u, moves[..at - 1], moves[at - 1], i);
      RunOneMore(Begin(u).value, moves, at);
      AskedMore(Begin(u).value, moves, at - 1, s);
    }
    HostStays(u, moves[..at], i, moves[at..]);
    RunConcat(Begin(u).value, moves[..at], moves[at..]);
    assert moves == moves[..at] + moves[at..];
  }

  lemma RunNothing(k: Session)
    ensures Run(k, []) == k
  {
  }

  lemma RunOneMore(k: Session, moves: seq<Move>, at: nat)
    requires 0 < at <= |moves|
    ensures Run(k, moves[..at]) == Step(Run(k, moves[..at - 1]), moves[at - 1])
  {
    hide Step;
    assert moves[..at][..at - 1] == moves[..at - 1];
  }

  lemma AskedMore(k: Session, moves: seq<Move>, at: nat, s: Spawn)
    requires at <= |moves| && Asked(k, moves[..at], s)
    ensures Asked(k, moves, s)
  {
    hide Run, AsksFor;
    var n :| 0 <= n < at && AsksFor(Run(k, moves[..at][..n]), moves[..at][n], s);
    assert moves[..at][..n] == moves[..n] && moves[..at][n] == moves[n];
  }

  // ----- the first process ---------------------------------------------------------------

  /** The open file description descriptor `fd` of a task names. */
  ghost function Behind(sh: Shared, t: Task, fd: int): Option<Desc> {
    if IsOpen(t.fds, fd) then At(sh.descs, t.fds[fd].value.desc) else None
  }

  lemma StreamAdded(sh: Shared, t: Task, d: Desc)
    requires sh.descs.free == [] && |t.fds| == |sh.descs.slots| < sh.limits.openFiles <= U32_MAX
    requires forall i :: 0 <= i < |t.fds| ==> t.fds[i] == Some(Fd(i, false))
    ensures var (after, fds, ok) := AddStream(sh, t.fds, d);
      && ok && fds == t.fds + [Some(Fd(|t.fds|, false))] && after == sh.(descs := after.descs)
      && after.descs == SlabState(sh.descs.slots + [Some(d)], [])
  {
    var n := |t.fds|;
    var free := LowestFree(t.fds, 0, sh.limits.openFiles);
    assert !IsOpen(t.fds, n);
    assert forall j :: 0 <= j < n ==> IsOpen(t.fds, j);
    assert free == Some(n);
    assert Padded(t.fds, n) == t.fds + [None];
  }

  /** With room for its streams and its program the session begins: process 1, child of nobody, in a group and
      a session of its own, reading standard input at descriptor 0, writing standard output at 1 and standard
      error at 2, and nothing else open. */
  lemma FirstProcess(u: Setup)
    requires Begin(u).Some? && 3 <= u.limits.openFiles <= U32_MAX
    ensures
      var k := Begin(u).value;
      && |k.procs| == 1 && k.sh.spawn == [] && k.sh.nextPid == 2 && k.exitStatus == None
      && k.sh.table == [Record(1, 0, 1, 1, {}, None, None)]
      && var t := k.procs[0].ctx.task;
         && t.pid == 1 && t.cwd == u.cwd && t.sigmask == {} && |t.fds| == 3
         && Behind(k.sh, t, 0) == Some(Desc(Other(Plain.Stdin), ReadOnly, false, false, 1))
         && Behind(k.sh, t, 1) == Some(Desc(Other(Plain.Stdout(1)), WriteOnly, false, false, 1))
         && Behind(k.sh, t, 2) == Some(Desc(Other(Plain.Stdout(2)), WriteOnly, false, false, 1))
  {
    hide AddStream, Start;
    var sh0 := EmptyShared(u.limits);
    StreamAdded(sh0, NewTask(1, []), Stream(Stdin, ReadOnly));
    var (sh1, fds1, _) := AddStream(sh0, [], Stream(Stdin, ReadOnly));
    StreamAdded(sh1, NewTask(1, fds1), Stream(Stdout(1), WriteOnly));
    var (sh2, fds2, _) := AddStream(sh1, fds1, Stream(Stdout(1), WriteOnly));
    StreamAdded(sh2, NewTask(1, fds2), Stream(Stdout(2), WriteOnly));
    var (sh, fds, _) := AddStream(sh2, fds2, Stream(Stdout(2), WriteOnly));
    var s0 := Session(sh.(nextPid := 2, table := [NewRecord(1, 0, 1, 1)]), [], None);
    var spawn := Spawn(FirstTask(fds, u.cwd), u.program, u.exe, u.argv, u.envp);
    LaunchGives(s0, spawn, u.launch);
    StartKeepsTable(s0, spawn, u.launch);
  }

  /** A run whose only process asks for a program that cannot be started: nobody is left, and the session has
      no status to end with. */
  lemma LastExecFails(u: Setup, exec: LifeCall, now: nat)
    requires Begin(u).Some? && u.launch.GuestRuns? && exec.Execve?
    ensures
      var k := Run(Begin(u).value, [Syscall(0, Life(exec), now), Replace(0, NoProgram)]);
      k.procs == [] && k.sh.spawn == [] && k.exitStatus == None
  {
    hide Begin, Step;
    var a, b := Syscall(0, Life(exec), now), Replace(0, NoProgram);
    var k0 := Begin(u).value;
    assert [a, b][..1] == [a] && [a][..0] == [];
    GuestBegins(u);
    var k1 := Step(k0, a);
    ExecServed(k0, exec, now);
    assert Run(k0, [a]) == k1 by { RunNothing(k0); }
    NothingStarts(k1);
  }

  lemma GuestBegins(u: Setup)
    requires Begin(u).Some? && u.launch.GuestRuns?
    ensures var k := Begin(u).value;
      && |k.procs| == 1 && Settled(k) && Runs(k, 0) && k.procs[0].ctx.vforkStack == []
      && k.sh.spawn == [] && k.exitStatus == None
  {
    hide Streams, Charged, ReleaseFds, Launched;
    StreamsQueue(u.limits);
    ChargeQueue(Streams(EmptyShared(u.limits)).value.0, AddU64(u.launch.Size(), ASYNCIFY_PAGES * PAGE));
  }

  lemma ChargeQueue(sh: Shared, bytes: nat)
    ensures forall table, next ::
      Charged(sh.(nextPid := next, table := table), bytes).0.spawn == sh.spawn
  {
  }

  lemma ExecServed(k: Session, exec: LifeCall, now: nat)
    requires |k.procs| == 1 && Settled(k) && Runs(k, 0) && k.procs[0].ctx.vforkStack == []
    requires exec.Execve?
    ensures var after := Step(k, Syscall(0, Life(exec), now));
      |after.procs| == 1 && after.procs[0].ctx.execRequest.Some? && after.sh.spawn == k.sh.spawn
      && after.exitStatus == k.exitStatus
  {
    hide DoExecve, Handle;
    var c := Counted(CpuAt(k, 0));
    HandlesExecve(c, exec, now);
    ExecveHands(c, exec.program, exec.exe, exec.argv, exec.envp);
  }

  lemma NothingStarts(k: Session)
    requires |k.procs| == 1 && k.procs[0].ctx.execRequest.Some?
    ensures var after := Step(k, Replace(0, NoProgram));
      after.procs == [] && after.sh.spawn == k.sh.spawn && after.exitStatus == k.exitStatus
  {
    hide ReleaseFds, ExitTable;
    var p := k.procs[0];
    var freed := k.(procs := Dropped(k.procs, 0), sh := Uncharged(k.sh, AddU64(p.charged, p.ctx.exec.grown)));
    FailsQuietly(freed, p.ctx.execRequest.value, NoProgram);
  }
}
