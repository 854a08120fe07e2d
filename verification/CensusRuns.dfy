/** Ownership and parenthood over whole runs: the living processes of the table are exactly the
    tasks of the session, each held in one place. */
module CensusRuns {
  import opened Base
  import opened Slabs
  import opened Sums
  import opened Fds
  import opened Kernel
  import opened Syscalls
  import opened HostSteps
  import opened Signals
  import opened Machine
  import opened References
  import opened CallFrames
  import opened HostFrames
  import opened SessionRefs
  import opened Books
  import opened RefTheorems
  import opened Census
  import opened CensusCalls

  ghost function ProcsPids(procs: seq<Proc>, x: int): nat {
    Sum(procs, ProcPids(x))
  }

  ghost function ProcPids(x: int): Proc -> nat {
    (p: Proc) => CtxPids(p.ctx, x)
  }

  /** How many tasks of pid `x` the session holds: in running processes, under vfork, in the spawn
      queue and in exec requests. */
  ghost function Owners(s: Session, x: int): nat {
    ProcsPids(s.procs, x) + SpawnPids(s.sh.spawn, x)
  }

  /** The living are counted by their owners; `o` counts a task on its way between two owners. */
  ghost predicate Counts(sh: Shared, o: int -> nat) {
    TableOk(sh.table, sh.nextPid) && forall x :: Unit(Alive(sh.table, x)) == o(x)
  }

  ghost predicate Peopled(s: Session) {
    TableOk(s.sh.table, s.sh.nextPid) && forall x :: Unit(Alive(s.sh.table, x)) == Owners(s, x)
  }

  // ----- deaths --------------------------------------------------------------------------

  /** The end of a task that is counted takes it off the count. */
  lemma EndCounts(sh: Shared, pid: int, status: int, before: int -> nat, o: int -> nat)
    requires Counts(sh, before) && forall x :: before(x) == o(x) + Unit(pid == x)
    ensures Counts(SetExit(sh, pid, status), o)
  {
    hide TableOk, ExitTable;
    assert before(pid) >= 1;
    ExitKeeps(sh.table, sh.nextPid, pid, status);
  }

  lemma TaskEndsCounts(sh: Shared, t: Task, status: int, before: int -> nat, o: int -> nat)
    requires Counts(sh, before) && forall x :: before(x) == o(x) + Unit(t.pid == x)
    ensures var after := TaskEnds(sh, t, status);
      Counts(after, o) && after.spawn == sh.spawn && after.nextPid == sh.nextPid
  {
    hide ReleaseFds, TableOk, ExitTable;
    ReleaseFdsFrame(sh, t.fds);
    EndCounts(ReleaseFds(sh, t.fds), t.pid, status, before, o);
  }

  lemma {:induction false} StackEndsCounts(sh: Shared, task: Task, stack: seq<Task>, status: int, before: int -> nat,
    o: int -> nat)
    requires Counts(sh, before) && forall x :: before(x) == o(x) + Unit(task.pid == x) + StackPids(stack, x)
    ensures var after := StackEnds(sh, task, stack, status);
      Counts(after, o) && after.spawn == sh.spawn && after.nextPid == sh.nextPid
    decreases |stack|
  {
    hide TaskEnds, Counts;
    var n := |stack|;
    if n == 0 {
      TaskEndsCounts(sh, task, status, before, o);
    } else {
      var after := TaskEnds(sh, task, StatusSignaled(SIGKILL));
      var rest := x => before(x) - Unit(task.pid == x);
      var left: int -> nat := x => o(x) + Unit(stack[n - 1].pid == x) + StackPids(stack[..n - 1], x);
      TaskEndsCounts(sh, task, StatusSignaled(SIGKILL), before, left);
      StackEndsCounts(after, stack[n - 1], stack[..n - 1], status, left, o);
    }
  }

  lemma FinishPeopled(s: Session, i: nat, status: int)
    requires i < |s.procs| && s.procs[i].ctx.execRequest.None? && Peopled(s)
    ensures Peopled(FinishProcess(s, i, status)) && FinishProcess(s, i, status).sh.nextPid == s.sh.nextPid
  {
    hide StackEnds, Dropped, TableOk;
    var p := s.procs[i];
    var before := x => Owners(s, x);
    var o := x => ProcsPids(Dropped(s.procs, i), x) + SpawnPids(s.sh.spawn, x);
    forall x ensures before(x) == o(x) + Unit(p.ctx.task.pid == x) + StackPids(p.ctx.vforkStack, x) {
      SumDropped(s.procs, i, ProcPids(x));
    }
    StackEndsCounts(Uncharged(s.sh, AddU64(p.charged, p.ctx.exec.grown)), p.ctx.task, p.ctx.vforkStack,
      status, before, o);
  }

  lemma {:induction false} KillPeopled(s: Session, status: int)
    requires Settled(s) && Peopled(s)
    ensures Peopled(KillAll(s, status))
    decreases |s.procs|
  {
    hide Peopled, FinishProcess;
    if |s.procs| > 0 {
      FinishPeopled(s, 0, status);
      DroppedSettled(s, 0, status);
      KillPeopled(FinishProcess(s, 0, status), status);
    } else {
      SamePeople(s, KillAll(s, status));
    }
  }

  /** The same tasks in the same places, and a table of the same shape. */
  lemma SamePeople(s: Session, after: Session)
    requires Peopled(s) && SameShape(s.sh.table, after.sh.table) && after.sh.nextPid == s.sh.nextPid
    requires forall x :: Owners(after, x) == Owners(s, x)
    ensures Peopled(after)
  {
    hide TableOk;
    ShapeKeeps(s.sh.table, after.sh.table, s.sh.nextPid);
  }

  // ----- births --------------------------------------------------------------------------

  /** A spawn that starts puts its task in the list; one that cannot leaves its record to be ended. */
  lemma StartOwners(s: Session, spawn: Spawn, launch: Launch)
    ensures var (after, ok) := Start(s, spawn, launch);
      && after.sh.table == s.sh.table && after.sh.nextPid == s.sh.nextPid && after.sh.spawn == s.sh.spawn
      && (ok ==> |after.procs| > 0)
      && forall x :: Owners(after, x) == Owners(s, x) + Unit(ok && spawn.task.pid == x)
  {
    hide ReleaseFds, Sum, FreshCtx;
    var (after, ok) := Start(s, spawn, launch);
    ReleaseFdsFrame(s.sh, spawn.task.fds);
    if launch.GuestRuns? {
      var charge := AddU64(launch.Size(), ASYNCIFY_PAGES * PAGE);
      ReleaseFdsFrame(Uncharged(Charged(s.sh, charge).0, charge), spawn.task.fds);
    }
    if ok {
      FreshOwner(spawn);
      forall x ensures ProcsPids(after.procs, x) == ProcsPids(s.procs, x) + Unit(spawn.task.pid == x) {
        SumPush(s.procs, after.procs[|s.procs|], ProcPids(x));
      }
    }
  }

  /** A process that starts holds one task, the one it was queued with. */
  lemma FreshOwner(spawn: Spawn)
    ensures forall x :: CtxPids(FreshCtx(spawn), x) == Unit(spawn.task.pid == x)
  {
  }

  /** A spawn taken from wherever it was counted ends up a process, or ended. */
  lemma LaunchedPeopled(s: Session, spawn: Spawn, launch: Launch, status: int)
    requires TableOk(s.sh.table, s.sh.nextPid)
    requires forall x :: Unit(Alive(s.sh.table, x)) == Owners(s, x) + Unit(spawn.task.pid == x)
    ensures var (after, ok) := Start(s, spawn, launch);
      Peopled(if ok then after else after.(sh := SetExit(after.sh, spawn.task.pid, status)))
  {
    hide Start, TableOk, ExitTable;
    var (after, ok) := Start(s, spawn, launch);
    StartOwners(s, spawn, launch);
    if !ok {
      EndCounts(after.sh, spawn.task.pid, status, x => Owners(s, x) + Unit(spawn.task.pid == x), x => Owners(s, x));
    }
  }

  lemma StartNextPeopled(s: Session, launch: Launch)
    requires |s.sh.spawn| > 0 && Peopled(s)
    ensures Peopled(StartNext(s, launch))
  {
    hide Start, TableOk, ExitTable;
    var popped := s.(sh := s.sh.(spawn := s.sh.spawn[1..]));
    forall x ensures Owners(s, x) == Owners(popped, x) + Unit(s.sh.spawn[0].task.pid == x) {
      SumPop(s.sh.spawn, QueuedPid(x));
    }
    LaunchedPeopled(popped, s.sh.spawn[0], launch, StatusExited(126));
  }

  /** A process about to be replaced counts for the task in its exec request and nothing else. */
  lemma RequestOwner(s: Session, i: nat, sh: Shared, x: int)
    requires i < |s.procs| && s.procs[i].ctx.execRequest.Some? && s.procs[i].ctx.vforkStack == []
      && sh.spawn == s.sh.spawn
    ensures var freed := s.(procs := Dropped(s.procs, i), sh := sh);
      Owners(s, x) == Owners(freed, x) + Unit(s.procs[i].ctx.execRequest.value.task.pid == x)
  {
    SumDropped(s.procs, i, ProcPids(x));
  }

  lemma ReplacePeopled(s: Session, i: nat, launch: Launch)
    requires i < |s.procs| && s.procs[i].ctx.execRequest.Some? && s.procs[i].ctx.vforkStack == [] && Peopled(s)
    ensures Peopled(ReplaceInstance(s, i, launch))
  {
    hide Start, TableOk, ExitTable, Dropped, AddU64, Sum;
    var p := s.procs[i];
    var spawn := p.ctx.execRequest.value;
    var sh := Uncharged(s.sh, AddU64(p.charged, p.ctx.exec.grown));
    var freed := s.(procs := Dropped(s.procs, i), sh := sh);
    forall x ensures Owners(s, x) == Owners(freed, x) + Unit(spawn.task.pid == x) {
      RequestOwner(s, i, sh, x);
    }
    LaunchedPeopled(freed, spawn, launch, StatusExited(126));
    StartOwners(freed, spawn, launch);
    var (started, ok) := Start(freed, spawn, launch);
    if ok && |started.procs| > 0 {
      var after := ReplaceInstance(s, i, launch);
      forall x ensures Owners(after, x) == Owners(started, x) {
        SumMoved(started.procs, Min(i, |started.procs| - 1), ProcPids(x));
      }
      SamePeople(started, after);
    }
  }

  // ----- the other moves -----------------------------------------------------------------

  lemma ServePeopled(s: Session, i: nat, call: Call, now: nat)
    requires i < |s.procs| && s.procs[i].ctx.execRequest.None? && Peopled(s) && s.sh.nextPid < I32_MAX
    ensures Peopled(Serve(s, i, call, now))
  {
    hide Dispatch, FinishProcess, TableOk;
    var p := s.procs[i];
    var c := Cpu(s.sh, p.ctx, p.inst);
    var o := x => ProcsPids(Dropped(s.procs, i), x);
    forall x ensures ProcsPids(s.procs, x) == o(x) + CtxPids(p.ctx, x) {
      SumDropped(s.procs, i, ProcPids(x));
    }
    DispatchOwned(c, call, now, o);
    var (a, after) := Dispatch(c, call, now);
    var p' := p.(ctx := after.ctx, inst := after.inst, resume := if a.Block? then BlockedIn(call) else Running);
    var served := s.(sh := after.sh, procs := s.procs[i := p']);
    forall x ensures Owners(served, x) == o(x) + CpuPids(after, x) {
      SumUpdate(s.procs, i, p', ProcPids(x));
    }
    if a.Exits? {
      ExitsKeepsRequest(c, call, now);
      FinishPeopled(served, i, a.status);
    }
  }

  /** Replacing a process by one with the same tasks changes no owner. */
  lemma UpdateOwners(s: Session, i: nat, p: Proc)
    requires i < |s.procs|
    requires p.ctx.task.pid == s.procs[i].ctx.task.pid && p.ctx.vforkStack == s.procs[i].ctx.vforkStack
    requires p.ctx.execRequest == s.procs[i].ctx.execRequest
    ensures forall x :: ProcsPids(s.procs[i := p], x) == ProcsPids(s.procs, x)
  {
    forall x ensures ProcsPids(s.procs[i := p], x) == ProcsPids(s.procs, x) {
      SumUpdate(s.procs, i, p, ProcPids(x));
    }
  }

  lemma FetchPeopled(s: Session, i: nat)
    requires i < |s.procs| && s.procs[i].ctx.execRequest.None? && Peopled(s)
    ensures Peopled(Fetch(s, i))
  {
    hide NextSignal, FinishProcess, WithRecord, TableOk;
    var p := s.procs[i];
    var pid := p.ctx.task.pid;
    FetchedTask(Pending(s.sh, pid), p.ctx.task);
    var (d, left, t) := NextSignal(Pending(s.sh, pid), p.ctx.task);
    var r := Find(s.sh.table, pid);
    var sh := if r.Some? then s.sh.(table := WithRecord(s.sh.table, pid, r.value.(pending := left))) else s.sh;
    if r.Some? {
      WithShape(s.sh.table, pid, r.value.(pending := left));
    }
    var exec := if d.NoSignal? && p.ctx.exec.hasFlag then p.ctx.exec.(flag := false) else p.ctx.exec;
    var p' := p.(ctx := p.ctx.(task := t, exec := exec));
    var fetched := s.(sh := sh, procs := s.procs[i := p']);
    UpdateOwners(s, i, p');
    SamePeople(s, fetched);
    if d.Fatal? {
      FinishPeopled(fetched, i, d.status);
    }
  }

  lemma HostPeopled(s: Session, i: nat, o: HostOracle)
    requires i < |s.procs| && s.procs[i].body.Host? && PhaseOk(s.procs[i].body.phase)
    requires s.procs[i].ctx.execRequest.None? && Peopled(s)
    ensures Peopled(HostTurn(s, i, o))
  {
    hide StepHost, FinishProcess, TableOk;
    var q := s.procs[i];
    HostFrame(s.sh, q.ctx.task, q.body.readsStdin, q.body.phase, o);
    match StepHost(s.sh, q.ctx.task, q.body.readsStdin, q.body.phase, o)
    case None =>
    case Some((step, phase, sh)) =>
      var q' := q.(body := q.body.(phase := phase));
      var stepped := s.(sh := sh, procs := s.procs[i := q']);
      UpdateOwners(s, i, q');
      SamePeople(s, stepped);
      if step.EndedWith? {
        FinishPeopled(stepped, i, step.status);
      }
  }

  lemma QuietPeopled(s: Session, m: Move)
    requires Enabled(s, m) && (m.Init? || m.Feed? || m.CloseStdin?) && Peopled(s)
    ensures Peopled(Step(s, m))
  {
    hide TableOk;
    if m.Init? {
      var p := s.procs[m.i];
      UpdateOwners(s, m.i, p.(ctx := p.ctx.(exec := p.ctx.exec.(hasFlag := true))));
    }
    SamePeople(s, Step(s, m));
  }

  lemma StepPeopled(s: Session, m: Move)
    requires Orderly(s) && Peopled(s) && s.sh.nextPid < I32_MAX
    ensures Peopled(Step(s, m))
  {
    hide Serve, FinishProcess, ReplaceInstance, StartNext, Fetch, HostTurn, KillAll, Peopled;
    if Enabled(s, m) {
      match m
      case Syscall(i, call, now) => ServePeopled(s, i, call, now);
      case Retry(i, call, now) => ServePeopled(s, i, call, now);
      case Replace(i, launch) => ReplacePeopled(s, i, launch);
      case FetchSignal(i) => FetchPeopled(s, i);
      case Gone(i, status, complaint) => GonePeopled(s, i, status, complaint);
      case StartSpawn(launch) => StartNextPeopled(s, launch);
      case HostMove(i, o) => HostPeopled(s, i, o);
      case WallClock(status) => KillPeopled(s, status);
      case _ => QuietPeopled(s, m);
    }
  }

  lemma GonePeopled(s: Session, i: nat, status: int, complaint: seq<byte>)
    requires i < |s.procs| && s.procs[i].ctx.execRequest.None? && Peopled(s)
    ensures Peopled(FinishProcess(s.(sh := WriteOutput(s.sh, 2, complaint)), i, status))
  {
    hide FinishProcess, TableOk;
    var told := s.(sh := WriteOutput(s.sh, 2, complaint));
    SamePeople(s, told);
    FinishPeopled(told, i, status);
  }

  // ----- every run -----------------------------------------------------------------------

  lemma BeginPeopled(u: Setup)
    requires Begin(u).Some?
    ensures Peopled(Begin(u).value)
  {
    hide Start, Streams, TableOk;
    StreamsBooks(u, 0, 0);
    var (sh, fds) := Streams(EmptyShared(u.limits)).value;
    var table := [NewRecord(1, 0, 1, 1)];
    var s0 := Session(sh.(nextPid := 2, table := table), [], None);
    var spawn := Spawn(FirstTask(fds, u.cwd), u.program, u.exe, u.argv, u.envp);
    FirstTable();
    LaunchedPeopled(s0, spawn, u.launch, 0);
  }

  lemma FirstTable()
    ensures var table := [NewRecord(1, 0, 1, 1)];
      TableOk(table, 2) && forall x :: Alive(table, x) == (x == 1)
  {
  }

  /** Fewer than 2^31 - 1 pids have been given out, so no pid is given out twice. */
  ghost predicate PidsLeft(s: Session, moves: seq<Move>) {
    && (|moves| > 0 ==> PidsLeft(s, moves[..|moves| - 1]))
    && Run(s, moves).sh.nextPid < I32_MAX
  }

  lemma {:induction false} RunOrderly(u: Setup, moves: seq<Move>)
    requires Begin(u).Some?
    ensures Orderly(Run(Begin(u).value, moves))
  {
    hide Step, Begin, Orderly;
    if |moves| == 0 {
      BeginBooks(u, 0, 0);
    } else {
      RunOrderly(u, moves[..|moves| - 1]);
      StepOrderly(Run(Begin(u).value, moves[..|moves| - 1]), moves[|moves| - 1]);
    }
  }

  /** On every run the living records of the process table and the tasks of the session are the
      same processes, one task each, held in one place; pids rise along the table, a parent is
      older than its child; and while process 1 lives every other process, dead ones not yet
      waited for included, has a living parent. */
  lemma {:induction false} EveryoneIsCounted(u: Setup, moves: seq<Move>)
    requires Begin(u).Some? && PidsLeft(Begin(u).value, moves)
    ensures var s := Run(Begin(u).value, moves);
      && (forall x :: Owners(s, x) == Unit(Alive(s.sh.table, x)))
      && Ranked(s.sh.table, s.sh.nextPid) && Parented(s.sh.table)
  {
    RunPeopled(u, moves);
  }

  lemma {:induction false} RunPeopled(u: Setup, moves: seq<Move>)
    requires Begin(u).Some? && PidsLeft(Begin(u).value, moves)
    ensures Peopled(Run(Begin(u).value, moves))
  {
    hide Step, Begin, Peopled;
    if |moves| == 0 {
      BeginPeopled(u);
    } else {
      RunOrderly(u, moves[..|moves| - 1]);
      RunPeopled(u, moves[..|moves| - 1]);
      StepPeopled(Run(Begin(u).value, moves[..|moves| - 1]), moves[|moves| - 1]);
    }
  }
}
