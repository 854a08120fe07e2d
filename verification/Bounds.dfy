/** What a session's limits bound: descriptor tables, the number of tasks, and with them every
    reference count. */
module Bounds {
  import opened Base
  import opened Slabs
  import opened Sums
  import opened Fds
  import opened Kernel
  import opened Syscalls
  import opened HostSteps
  import opened Signals
  import opened Machine
  import opened References
  import opened CallFrames
  import opened RefCalls
  import opened PipeCalls
  import opened HostFrames
  import opened SessionRefs
  import opened Books
  import opened RefTheorems
  import opened Census
  import opened CensusCalls
  import opened CensusRuns

  // ----- descriptor tables ---------------------------------------------------------------

  /** No table is longer than the descriptor limit. */
  ghost predicate CtxBounded(ctx: Ctx, max: nat) {
    && |ctx.task.fds| <= max
    && (forall t :: t in ctx.vforkStack ==> |t.fds| <= max)
    && (ctx.execRequest.Some? ==> |ctx.execRequest.value.task.fds| <= max)
  }

  ghost predicate QueueBounded(spawn: seq<Spawn>, max: nat) {
    forall s :: s in spawn ==> |s.task.fds| <= max
  }

  ghost predicate CpuBounded(c: Cpu) {
    CtxBounded(c.ctx, c.sh.limits.openFiles) && QueueBounded(c.sh.spawn, c.sh.limits.openFiles)
  }

  lemma LifeBounded(c: Cpu, call: LifeCall)
    requires CpuBounded(c)
    ensures CpuBounded(HandleLife(c, call).1)
  {
    hide ReleaseFds, ReleaseAll, ExitTable, Bumped, Drained, DrainedCloexec, LiveCount, SignalTable, FirstDead,
      Without, Find;
    match call
    case ExitCall(code) => ReleaseFdsFrame(c.sh, c.ctx.task.fds);
    case Execve(program, exe, argv, envp) => ReleaseAllFrame(c.sh, DrainedCloexec(c.ctx.task.fds));
    case _ =>
  }

  lemma PlacedBound(fds: Slots, i: nat, entry: Fd, max: nat)
    requires |fds| <= max && i < max
    ensures |Placed(fds, i, entry)| <= max
  {
  }

  lemma FilesBounded(c: Cpu, call: FdCall)
    requires CpuBounded(c)
    ensures CpuBounded(HandleFiles(c, call).1)
  {
    hide ReleaseDesc, BumpedOne, Inserted, Placed, DoPipe2;
    FilesFrame(c, call);
    var fds, max := c.ctx.task.fds, c.sh.limits.openFiles;
    match call
    case DupAt(fd, min, cloexec) =>
      if IsOpen(fds, fd) && LowestFree(fds, Max(min, 0), max).Some? {
        PlacedBound(fds, LowestFree(fds, Max(min, 0), max).value, Fd(fds[fd].value.desc, cloexec), max);
      }
    case Dup3(from, to, cloexec) =>
      if IsOpen(fds, from) && 0 <= to < max {
        PlacedBound(fds, to, Fd(fds[from].value.desc, cloexec), max);
      }
    case Pipe2(cloexec, nonblock, copyOk) => PipeBounded(c, cloexec, nonblock, copyOk);
    case Open(plain, access, append, nonblock, cloexec) =>
      var key := Inserted(c.sh.descs, Desc(Other(plain), access, append, nonblock, 1), max * 4).1;
      if key.Some? && LowestFree(fds, 0, max).Some? {
        PlacedBound(fds, LowestFree(fds, 0, max).value, Fd(key.value, cloexec), max);
      }
    case _ =>
  }

  lemma PipeBounded(c: Cpu, cloexec: bool, nonblock: bool, copyOk: bool)
    requires |c.ctx.task.fds| <= c.sh.limits.openFiles
    ensures |DoPipe2(c, cloexec, nonblock, copyOk).1.ctx.task.fds| <= c.sh.limits.openFiles
  {
    hide Inserted, PipeFds;
    var limit := c.sh.limits.openFiles;
    var (pipes, p) := Inserted(c.sh.pipes, Pipe([], 1, 1), limit);
    if p.Some? {
      var c1 := WithPipe(c, pipes, p.value);
      var (descs1, r) := Inserted(c1.sh.descs, ReadEnd(p.value, nonblock), limit * 4);
      if r.Some? {
        var c2 := WithDescs(c1, descs1);
        var (descs2, w) := Inserted(c2.sh.descs, WriteEnd(p.value, nonblock), limit * 4);
        if w.Some? {
          PipeFdsBounded(WithDescs(c2, descs2), r.value, w.value, cloexec, copyOk);
        }
      }
    }
  }

  lemma PipeFdsBounded(c: Cpu, r: nat, w: nat, cloexec: bool, copyOk: bool)
    requires |c.ctx.task.fds| <= c.sh.limits.openFiles
    ensures |PipeFds(c, r, w, cloexec, copyOk).1.ctx.task.fds| <= c.sh.limits.openFiles
  {
    hide ReleaseDesc;
  }

  lemma HandleBounded(c: Cpu, call: Call, now: nat)
    requires CpuBounded(c)
    ensures CpuBounded(Handle(c, call, now).1)
  {
    hide HandleLife, HandleFiles, HandleMem, HandleWait, HandleOwn, HandleBytes;
    match call {
      case Life(life) => LifeFrame(c, life); LifeBounded(c, life);
      case Own(own) => OwnFrame(c, own);
      case Wait(wait) => WaitFrame(c, wait, now);
      case Mem(mem) => MemFrame(c, mem);
      case Files(files) => FilesFrame(c, files); FilesBounded(c, files);
      case Bytes(bytes) => BytesFrame(c, bytes);
      case FileCall(vfs) =>
      case Plainly(result) =>
    }
  }

  // ----- tasks ---------------------------------------------------------------------------

  /** A process holds its own task and those suspended in it. */
  ghost function Held(): Proc -> nat {
    (p: Proc) => 1 + |p.ctx.vforkStack|
  }

  ghost function Tasks(s: Session): nat {
    Sum(s.procs, Held()) + |s.sh.spawn|
  }

  ghost function CpuTasks(c: Cpu): nat {
    1 + |c.ctx.vforkStack| + |c.sh.spawn|
  }

  /** Only a `clone` below the process limit adds a task. */
  lemma HandleTasks(c: Cpu, call: Call, now: nat)
    ensures var after := Handle(c, call, now).1;
      && after.sh.limits == c.sh.limits
      && (CpuTasks(after) <= CpuTasks(c)
          || (CpuTasks(after) == CpuTasks(c) + 1 && LiveCount(c.sh.table) < c.sh.limits.processes))
  {
    hide ReleaseFds, ReleaseAll, ExitTable, Bumped, Drained, DrainedCloexec, KeptOnExec, LiveCount, Find;
    if ChangesIdentity(call) {
      assert Handle(c, call, now) == HandleLife(c, call.life);
      ReleaseFdsFrame(c.sh, c.ctx.task.fds);
      ReleaseAllFrame(c.sh, DrainedCloexec(c.ctx.task.fds));
    } else {
      hide Handle;
      HandleIdentity(c, call, now);
    }
  }

  // ----- sessions ------------------------------------------------------------------------

  /** Every table within the descriptor limit, and no more tasks than the process limit, process 1
      aside. */
  ghost predicate Limited(s: Session, limits: Limits) {
    && s.sh.limits == limits
    && (forall p :: p in s.procs ==> CtxBounded(p.ctx, limits.openFiles))
    && QueueBounded(s.sh.spawn, limits.openFiles)
    && Tasks(s) <= Max(1, limits.processes)
  }

  lemma {:induction false} StackEndsQueue(sh: Shared, task: Task, stack: seq<Task>, status: int)
    ensures var after := StackEnds(sh, task, stack, status); after.spawn == sh.spawn && after.limits == sh.limits
    decreases |stack|
  {
    hide ReleaseFds, ExitTable;
    ReleaseFdsFrame(sh, task.fds);
    if |stack| > 0 {
      StackEndsQueue(TaskEnds(sh, task, StatusSignaled(SIGKILL)), stack[|stack| - 1], stack[..|stack| - 1], status);
    }
  }

  lemma FinishLimited(s: Session, i: nat, status: int, limits: Limits)
    requires i < |s.procs| && Limited(s, limits)
    ensures Limited(FinishProcess(s, i, status), limits)
  {
    hide StackEnds, AddU64, CtxBounded, Sum;
    var p := s.procs[i];
    StackEndsQueue(Uncharged(s.sh, AddU64(p.charged, p.ctx.exec.grown)), p.ctx.task, p.ctx.vforkStack, status);
    SumDropped(s.procs, i, Held());
  }

  lemma {:induction false} KillLimited(s: Session, status: int, limits: Limits)
    requires Limited(s, limits)
    ensures Limited(KillAll(s, status), limits)
    decreases |s.procs|
  {
    hide StackEnds, Limited;
    if |s.procs| > 0 {
      FinishLimited(s, 0, status, limits);
      KillLimited(FinishProcess(s, 0, status), status, limits);
    } else {
      KilledLimited(s, status, limits);
    }
  }

  lemma KilledLimited(s: Session, status: int, limits: Limits)
    requires Limited(s, limits)
    ensures Limited(s.(exitStatus := FirstStatus(s.exitStatus, status)), limits)
  {
  }

  /** A spawn that was counted becomes a process that is counted, or goes. */
  lemma StartLimited(s: Session, spawn: Spawn, launch: Launch, limits: Limits)
    requires s.sh.limits == limits && (forall p :: p in s.procs ==> CtxBounded(p.ctx, limits.openFiles))
    requires QueueBounded(s.sh.spawn, limits.openFiles) && |spawn.task.fds| <= limits.openFiles
    requires Tasks(s) + 1 <= Max(1, limits.processes)
    ensures Limited(Start(s, spawn, launch).0, limits)
    ensures Start(s, spawn, launch).1 ==> |Start(s, spawn, launch).0.procs| > 0
  {
    hide ReleaseFds, Sum;
    ReleaseFdsFrame(s.sh, spawn.task.fds);
    if launch.GuestRuns? {
      var charge := AddU64(launch.Size(), ASYNCIFY_PAGES * PAGE);
      ReleaseFdsFrame(Uncharged(Charged(s.sh, charge).0, charge), spawn.task.fds);
    }
    var (after, ok) := Start(s, spawn, launch);
    if ok {
      SumPush(s.procs, after.procs[|s.procs|], Held());
    }
  }

  lemma EndedLimited(s: Session, pid: int, status: int, limits: Limits)
    requires Limited(s, limits)
    ensures Limited(s.(sh := SetExit(s.sh, pid, status)), limits)
  {
    hide ExitTable, CtxBounded;
  }

  lemma StartNextLimited(s: Session, launch: Launch, limits: Limits)
    requires |s.sh.spawn| > 0 && Limited(s, limits)
    ensures Limited(StartNext(s, launch), limits)
  {
    hide Start, SetExit, CtxBounded, Sum;
    var popped := s.(sh := s.sh.(spawn := s.sh.spawn[1..]));
    var first := s.sh.spawn[0];
    StartLimited(popped, first, launch, limits);
    EndedLimited(Start(popped, first, launch).0, first.task.pid, StatusExited(126), limits);
  }

  lemma ReplaceLimited(s: Session, i: nat, launch: Launch, limits: Limits)
    requires i < |s.procs| && s.procs[i].ctx.execRequest.Some? && Limited(s, limits)
    ensures Limited(ReplaceInstance(s, i, launch), limits)
  {
    hide Start, SetExit, AddU64, Sum;
    var p := s.procs[i];
    var spawn := p.ctx.execRequest.value;
    var freed := s.(procs := Dropped(s.procs, i), sh := Uncharged(s.sh, AddU64(p.charged, p.ctx.exec.grown)));
    SumDropped(s.procs, i, Held());
    assert p in s.procs;
    StartLimited(freed, spawn, launch, limits);
    var (started, ok) := Start(freed, spawn, launch);
    if ok && |started.procs| > 0 {
      SumMoved(started.procs, Min(i, |started.procs| - 1), Held());
    } else {
      EndedLimited(started, spawn.task.pid, StatusExited(126), limits);
    }
  }

  /** A process changed, with the tables and tasks it holds within bounds. */
  lemma UpdatedLimited(s: Session, i: nat, p: Proc, sh: Shared, limits: Limits)
    requires i < |s.procs| && Limited(s, limits) && sh.limits == limits
    requires CtxBounded(p.ctx, limits.openFiles) && QueueBounded(sh.spawn, limits.openFiles)
    requires |p.ctx.vforkStack| + |sh.spawn| <= |s.procs[i].ctx.vforkStack| + |s.sh.spawn|
      || (Tasks(s) < Max(1, limits.processes)
          && |p.ctx.vforkStack| + |sh.spawn| <= |s.procs[i].ctx.vforkStack| + |s.sh.spawn| + 1)
    ensures Limited(s.(sh := sh, procs := s.procs[i := p]), limits)
  {
    hide CtxBounded, Sum;
    SumUpdate(s.procs, i, p, Held());
  }

  // ----- move by move --------------------------------------------------------------------

  lemma ServeLimited(s: Session, i: nat, call: Call, now: nat, limits: Limits)
    requires i < |s.procs| && Limited(s, limits) && Tasks(s) == LiveCount(s.sh.table)
    ensures Limited(Serve(s, i, call, now), limits)
  {
    hide Dispatch, FinishProcess, Sum, LiveCount, CtxBounded;
    var p := s.procs[i];
    assert p in s.procs;
    var c := Cpu(s.sh, p.ctx, p.inst);
    DispatchLimited(c, call, now);
    var (a, after) := Dispatch(c, call, now);
    var p' := p.(ctx := after.ctx, inst := after.inst, resume := if a.Block? then BlockedIn(call) else Running);
    UpdatedLimited(s, i, p', after.sh, limits);
    if a.Exits? {
      FinishLimited(s.(sh := after.sh, procs := s.procs[i := p']), i, a.status, limits);
    }
  }

  lemma DispatchLimited(c: Cpu, call: Call, now: nat)
    requires CpuBounded(c)
    ensures var after := Dispatch(c, call, now).1;
      && after.sh.limits == c.sh.limits && CpuBounded(after)
      && (CpuTasks(after) <= CpuTasks(c)
          || (CpuTasks(after) == CpuTasks(c) + 1 && LiveCount(c.sh.table) < c.sh.limits.processes))
  {
    hide Handle, Finished, LiveCount;
    HandleBounded(Counted(c), call, now);
    HandleTasks(Counted(c), call, now);
    FinishFrame(Handle(Counted(c), call, now).1);
  }

  lemma FetchLimited(s: Session, i: nat, limits: Limits)
    requires i < |s.procs| && Limited(s, limits)
    ensures Limited(Fetch(s, i), limits)
  {
    hide NextSignal, FinishProcess, WithRecord, Limited, Sum;
    var p := s.procs[i];
    var pid := p.ctx.task.pid;
    FetchedTask(Pending(s.sh, pid), p.ctx.task);
    var (d, left, t) := NextSignal(Pending(s.sh, pid), p.ctx.task);
    var r := Find(s.sh.table, pid);
    var sh := if r.Some? then s.sh.(table := WithRecord(s.sh.table, pid, r.value.(pending := left))) else s.sh;
    var exec := if d.NoSignal? && p.ctx.exec.hasFlag then p.ctx.exec.(flag := false) else p.ctx.exec;
    var p' := p.(ctx := p.ctx.(task := t, exec := exec));
    SameTables(s, i, p', sh, limits);
    if d.Fatal? {
      FinishLimited(s.(sh := sh, procs := s.procs[i := p']), i, d.status, limits);
    }
  }

  lemma SameTables(s: Session, i: nat, p: Proc, sh: Shared, limits: Limits)
    requires i < |s.procs| && Limited(s, limits) && sh.limits == s.sh.limits && sh.spawn == s.sh.spawn
    requires p.ctx.task.fds == s.procs[i].ctx.task.fds && p.ctx.vforkStack == s.procs[i].ctx.vforkStack
    requires p.ctx.execRequest == s.procs[i].ctx.execRequest
    ensures Limited(s.(sh := sh, procs := s.procs[i := p]), limits)
  {
    assert s.procs[i] in s.procs;
    UpdatedLimited(s, i, p, sh, limits);
  }

  lemma HostLimited(s: Session, i: nat, o: HostOracle, limits: Limits)
    requires i < |s.procs| && s.procs[i].body.Host? && PhaseOk(s.procs[i].body.phase) && Limited(s, limits)
    ensures Limited(HostTurn(s, i, o), limits)
  {
    hide StepHost, FinishProcess, Limited;
    var q := s.procs[i];
    HostFrame(s.sh, q.ctx.task, q.body.readsStdin, q.body.phase, o);
    match StepHost(s.sh, q.ctx.task, q.body.readsStdin, q.body.phase, o)
    case None =>
    case Some((step, phase, sh)) =>
      var q' := q.(body := q.body.(phase := phase));
      SameTables(s, i, q', sh, limits);
      if step.EndedWith? {
        FinishLimited(s.(sh := sh, procs := s.procs[i := q']), i, step.status, limits);
      }
  }

  lemma GoneLimited(s: Session, i: nat, status: int, complaint: seq<byte>, limits: Limits)
    requires i < |s.procs| && Limited(s, limits)
    ensures Limited(FinishProcess(s.(sh := WriteOutput(s.sh, 2, complaint)), i, status), limits)
  {
    hide FinishProcess, CtxBounded;
    FinishLimited(s.(sh := WriteOutput(s.sh, 2, complaint)), i, status, limits);
  }

  lemma QuietLimited(s: Session, m: Move, limits: Limits)
    requires Enabled(s, m) && (m.Init? || m.Feed? || m.CloseStdin?) && Limited(s, limits)
    ensures Limited(Step(s, m), limits)
  {
    hide CtxBounded;
    if m.Init? {
      var p := s.procs[m.i];
      SameTables(s, m.i, p.(ctx := p.ctx.(exec := p.ctx.exec.(hasFlag := true))), s.sh, limits);
    }
  }

  lemma StepLimited(s: Session, m: Move, limits: Limits)
    requires Limited(s, limits) && Peopled(s)
    ensures Limited(Step(s, m), limits)
  {
    hide Serve, FinishProcess, ReplaceInstance, StartNext, Fetch, HostTurn, KillAll, Limited, Peopled;
    TasksAreLiving(s);
    if Enabled(s, m) {
      match m
      case Syscall(i, call, now) => ServeLimited(s, i, call, now, limits);
      case Retry(i, call, now) => ServeLimited(s, i, call, now, limits);
      case Replace(i, launch) => ReplaceLimited(s, i, launch, limits);
      case FetchSignal(i) => FetchLimited(s, i, limits);
      case Gone(i, status, complaint) => GoneLimited(s, i, status, complaint, limits);
      case StartSpawn(launch) => StartNextLimited(s, launch, limits);
      case HostMove(i, o) => HostLimited(s, i, o, limits);
      case WallClock(status) => KillLimited(s, status, limits);
      case _ => QuietLimited(s, m, limits);
    }
  }

  // ----- as many tasks as living records -------------------------------------------------

  /** The sum of `f` over the pids below `n`. */
  ghost function Total(f: int -> nat, n: nat): nat {
    if n == 0 then 0 else Total(f, n - 1) + f(n - 1)
  }

  lemma {:induction false} TotalSame(f: int -> nat, g: int -> nat, n: nat)
    requires forall x :: 0 <= x < n ==> f(x) == g(x)
    ensures Total(f, n) == Total(g, n)
  {
    if n > 0 {
      TotalSame(f, g, n - 1);
    }
  }

  lemma {:induction false} TotalPlus(f: int -> nat, g: int -> nat, h: int -> nat, n: nat)
    requires forall x :: 0 <= x < n ==> h(x) == f(x) + g(x)
    ensures Total(h, n) == Total(f, n) + Total(g, n)
  {
    if n > 0 {
      TotalPlus(f, g, h, n - 1);
    }
  }

  lemma {:induction false} TotalOne(pid: int, f: int -> nat, n: nat)
    requires forall x :: f(x) == Unit(pid == x)
    ensures Total(f, n) == Unit(0 <= pid < n)
  {
    if n > 0 {
      TotalOne(pid, f, n - 1);
    }
  }

  /** Summing a list's counts over all pids is summing, over the list, each element's total. */
  lemma {:induction false} TotalOfSum<T>(s: seq<T>, f: int -> T -> nat, total: T -> nat, all: int -> nat, n: nat)
    requires forall x :: all(x) == Sum(s, f(x))
    requires forall t, g: int -> nat :: t in s && (forall x :: g(x) == f(x)(t)) ==> Total(g, n) == total(t)
    ensures Total(all, n) == Sum(s, total)
  {
    if |s| == 0 {
      TotalSame(all, x => 0, n);
      TotalNone(n);
    } else {
      var k := |s| - 1;
      var front: int -> nat := x => Sum(s[..k], f(x));
      var last: int -> nat := x => f(x)(s[k]);
      TotalOfSum(s[..k], f, total, front, n);
      assert Total(last, n) == total(s[k]);
      hide Total;
      TotalPlus(front, last, all, n);
    }
  }

  lemma {:induction false} TotalNone(n: nat)
    ensures Total(x => 0, n) == 0
  {
    if n > 0 {
      TotalNone(n - 1);
    }
  }

  lemma {:induction false} LiveTotal(table: seq<Record>, n: nat, alive: int -> nat)
    requires Ranked(table, n) && forall x :: alive(x) == Unit(Alive(table, x))
    ensures Total(alive, n) == LiveCount(table)
  {
    if |table| == 0 {
      TotalSame(alive, x => 0, n);
      TotalNone(n);
    } else {
      var rest: int -> nat := x => Unit(Alive(table[1..], x));
      var first: int -> nat := x => Unit(table[0].exit.None? && table[0].pid == x);
      LiveTotal(table[1..], n, rest);
      forall x ensures alive(x) == rest(x) + first(x) {
        FirstAlive(table, n, x);
      }
      TotalPlus(rest, first, alive, n);
      if table[0].exit.None? {
        TotalOne(table[0].pid, first, n);
      } else {
        TotalSame(first, x => 0, n);
        TotalNone(n);
      }
    }
  }

  lemma FirstAlive(table: seq<Record>, n: nat, x: int)
    requires Ranked(table, n) && |table| > 0
    ensures Unit(Alive(table, x)) == Unit(Alive(table[1..], x)) + Unit(table[0].exit.None? && table[0].pid == x)
  {
    if table[0].pid == x {
      assert forall i :: 0 <= i < |table[1..]| ==> table[1..][i] == table[i + 1];
    }
  }

  /** The pid a process runs under, or keeps in its exec request. */
  ghost function OwnTaskPid(ctx: Ctx): int {
    if ctx.execRequest.Some? then ctx.execRequest.value.task.pid else ctx.task.pid
  }

  lemma CtxTotal(ctx: Ctx, n: nat, pids: int -> nat)
    requires forall x :: pids(x) == CtxPids(ctx, x)
    requires 0 <= OwnTaskPid(ctx) < n && forall t :: t in ctx.vforkStack ==> 0 <= t.pid < n
    ensures Total(pids, n) == 1 + |ctx.vforkStack|
  {
    var stack: int -> nat := x => StackPids(ctx.vforkStack, x);
    var own: int -> nat := x => Unit(OwnTaskPid(ctx) == x);
    var ones: Task -> nat := t => 1;
    forall t, g: int -> nat | t in ctx.vforkStack
      && (forall x :: g(x) == TaskPid(x)(t)) ensures Total(g, n) == ones(t) {
      TotalOne(t.pid, g, n);
    }
    TotalOfSum(ctx.vforkStack, TaskPid, ones, stack, n);
    SumOnes(ctx.vforkStack, ones);
    TotalOne(OwnTaskPid(ctx), own, n);
    TotalPlus(stack, own, pids, n);
  }

  /** Every task counted has a living record, so its pid has been given out. */
  lemma PidsInRange(s: Session)
    requires Peopled(s)
    ensures var n := s.sh.nextPid;
      && (forall p :: p in s.procs ==> 0 <= OwnTaskPid(p.ctx) < n && forall t :: t in p.ctx.vforkStack ==>
        0 <= t.pid < n)
      && (forall q :: q in s.sh.spawn ==> 0 <= q.task.pid < n)
  {
    hide Sum, Parented;
    var n := s.sh.nextPid;
    forall p | p in s.procs ensures 0 <= OwnTaskPid(p.ctx) < n && forall t :: t in p.ctx.vforkStack ==> 0 <= t.pid < n {
      var i :| 0 <= i < |s.procs| && s.procs[i] == p;
      var own := OwnTaskPid(p.ctx);
      SumMember(s.procs, i, ProcPids(own));
      OwnedInRange(s, own);
      forall t | t in p.ctx.vforkStack ensures 0 <= t.pid < n {
        var j :| 0 <= j < |p.ctx.vforkStack| && p.ctx.vforkStack[j] == t;
        SumMember(p.ctx.vforkStack, j, TaskPid(t.pid));
        SumMember(s.procs, i, ProcPids(t.pid));
        OwnedInRange(s, t.pid);
      }
    }
    forall q | q in s.sh.spawn ensures 0 <= q.task.pid < n {
      var i :| 0 <= i < |s.sh.spawn| && s.sh.spawn[i] == q;
      SumMember(s.sh.spawn, i, QueuedPid(q.task.pid));
      OwnedInRange(s, q.task.pid);
    }
  }

  lemma OwnedInRange(s: Session, x: int)
    requires Peopled(s) && Owners(s, x) > 0
    ensures 0 <= x < s.sh.nextPid
  {
    assert Unit(Alive(s.sh.table, x)) > 0;
    AliveIn(s.sh.table, s.sh.nextPid, x);
  }

  /** There are as many tasks in the session as living processes in its table. */
  lemma TasksAreLiving(s: Session)
    requires Peopled(s)
    ensures Tasks(s) == LiveCount(s.sh.table)
  {
    hide Sum, Parented;
    var n := s.sh.nextPid;
    PidsInRange(s);
    var procs: int -> nat := x => ProcsPids(s.procs, x);
    var queue: int -> nat := x => SpawnPids(s.sh.spawn, x);
    var all: int -> nat := x => Owners(s, x);
    var ones: Spawn -> nat := q => 1;
    forall p, g: int -> nat | p in s.procs && (forall x :: g(x) == ProcPids(x)(p)) ensures Total(g, n) == Held()(p) {
      CtxTotal(p.ctx, n, g);
    }
    TotalOfSum(s.procs, ProcPids, Held(), procs, n);
    forall q, g: int -> nat | q in s.sh.spawn && (forall x :: g(x) == QueuedPid(x)(q)) ensures Total(g, n) == ones(q) {
      TotalOne(q.task.pid, g, n);
    }
    TotalOfSum(s.sh.spawn, QueuedPid, ones, queue, n);
    SumOnes(s.sh.spawn, ones);
    TotalPlus(procs, queue, all, n);
    LiveTotal(s.sh.table, n, all);
  }

  // ----- reference counts ----------------------------------------------------------------

  lemma {:induction false} CountBound(fds: Slots, k: nat)
    ensures Count(fds, k) <= |fds|
  {
    if |fds| > 0 {
      CountBound(fds[..|fds| - 1], k);
    }
  }

  /** A list each of whose elements counts for at most `max` apiece. */
  lemma {:induction false} SumBound<T>(s: seq<T>, f: T -> nat, g: T -> nat, max: nat)
    requires forall x :: x in s ==> f(x) <= max * g(x)
    ensures Sum(s, f) <= max * Sum(s, g)
  {
    if |s| > 0 {
      SumBound(s[..|s| - 1], f, g, max);
      assert max * Sum(s, g) == max * Sum(s[..|s| - 1], g) + max * g(s[|s| - 1]);
    }
  }

  lemma CtxSlots(ctx: Ctx, max: nat, k: nat)
    requires CtxBounded(ctx, max) && (ctx.execRequest.Some? ==> ctx.task.fds == [])
    ensures CtxCount(ctx, k) <= max * (1 + |ctx.vforkStack|)
  {
    hide Sum;
    CountBound(ctx.task.fds, k);
    if ctx.execRequest.Some? {
      CountBound(ctx.execRequest.value.task.fds, k);
    }
    forall t | t in ctx.vforkStack ensures Count(t.fds, k) <= max {
      CountBound(t.fds, k);
    }
    SumBound(ctx.vforkStack, TaskSlots(k), t => 1, max);
    SumOnes(ctx.vforkStack, t => 1);
  }

  /** No description is named by more slots than tasks times the descriptor limit. */
  lemma SlotsBound(s: Session, limits: Limits, k: nat)
    requires Limited(s, limits) && Orderly(s)
    ensures SlotCount(s, k) <= limits.openFiles * Max(1, limits.processes)
  {
    hide Sum, CtxBounded;
    var max := limits.openFiles;
    forall p | p in s.procs ensures ProcSlots(k)(p) <= max * Held()(p) {
      assert ProcOk(p);
      CtxSlots(p.ctx, max, k);
    }
    SumBound(s.procs, ProcSlots(k), Held(), max);
    forall q | q in s.sh.spawn ensures QueuedSlots(k)(q) <= max {
      CountBound(q.task.fds, k);
    }
    SumBound(s.sh.spawn, QueuedSlots(k), q => 1, max);
    SumOnes(s.sh.spawn, q => 1);
    Within(max, Sum(s.procs, Held()), |s.sh.spawn|, Max(1, limits.processes));
  }

  lemma Within(max: nat, a: nat, b: nat, bound: int)
    requires a + b <= bound
    ensures max * a + max * b <= max * bound
  {
  }

  lemma BeginLimited(u: Setup)
    requires Begin(u).Some?
    ensures Limited(Begin(u).value, u.limits)
  {
    hide Start, Streams, Sum;
    StreamsBooks(u, 0, 0);
    StreamsShort(u);
    var (sh, fds) := Streams(EmptyShared(u.limits)).value;
    var s0 := Session(sh.(nextPid := 2, table := [NewRecord(1, 0, 1, 1)]), [], None);
    SumOnes(s0.procs, p => 1);
    NothingHeld();
    StartLimited(s0, Spawn(FirstTask(fds, u.cwd), u.program, u.exe, u.argv, u.envp), u.launch, u.limits);
  }

  lemma NothingHeld()
    ensures Sum([], Held()) == 0
  {
  }

  lemma StreamsShort(u: Setup)
    requires Streams(EmptyShared(u.limits)).Some?
    ensures |Streams(EmptyShared(u.limits)).value.1| <= u.limits.openFiles
  {
    hide Inserted;
  }

  lemma {:induction false} RunLimited(u: Setup, moves: seq<Move>)
    requires Begin(u).Some? && PidsLeft(Begin(u).value, moves)
    ensures Limited(Run(Begin(u).value, moves), u.limits)
  {
    hide Step, Begin, Limited, Peopled;
    if |moves| == 0 {
      BeginLimited(u);
    } else {
      var n := |moves| - 1;
      RunLimited(u, moves[..n]);
      RunPeopled(u, moves[..n]);
      StepLimited(Run(Begin(u).value, moves[..n]), moves[n], u.limits);
    }
  }

  /** Room under a 32-bit count, whatever the run: all the slots the limits allow, and what the
      run has lost. */
  ghost predicate RoomFor(u: Setup, moves: seq<Move>)
    requires Begin(u).Some?
  {
    && (|moves| > 0 ==> RoomFor(u, moves[..|moves| - 1]))
    && forall k: nat :: u.limits.openFiles * Max(1, u.limits.processes) + Lost(u, moves, k) < U32_MAX
  }

  /** With that room no reference count ever saturates: the premise of the theorems about
      references follows from the limits a session is given. */
  lemma {:induction false} LimitsTame(u: Setup, moves: seq<Move>)
    requires Begin(u).Some? && PidsLeft(Begin(u).value, moves) && RoomFor(u, moves)
    ensures Tame(u, moves)
  {
    hide Step, Begin, Limited, Lost, Orderly;
    if |moves| > 0 {
      LimitsTame(u, moves[..|moves| - 1]);
    }
    RunLimited(u, moves);
    RunOrderly(u, moves);
    forall k: nat ensures SlotCount(Run(Begin(u).value, moves), k) + Lost(u, moves, k) < U32_MAX {
      SlotsBound(Run(Begin(u).value, moves), u.limits, k);
    }
  }

  /** What a run has not lost by its end it had not lost before. */
  lemma {:induction false} LostGrows(u: Setup, moves: seq<Move>, k: nat)
    requires Begin(u).Some? && |moves| > 0
    ensures Lost(u, moves[..|moves| - 1], k) <= Lost(u, moves, k)
  {
    hide Begin, LostBy;
    assert Lost(u, moves, k) ==
      Lost(u, moves[..|moves| - 1], k) + LostBy(Run(Begin(u).value, moves[..|moves| - 1]), moves[|moves| - 1], k);
  }

  /** For a run that lost nothing it is enough that the limits themselves leave room: the
      process limit times the descriptor limit below 2^32 - 1. */
  lemma {:induction false} LimitsSuffice(u: Setup, moves: seq<Move>)
    requires Begin(u).Some? && PidsLeft(Begin(u).value, moves)
    requires forall k: nat :: Lost(u, moves, k) == 0
    requires u.limits.openFiles * Max(1, u.limits.processes) < U32_MAX
    ensures Tame(u, moves)
  {
    hide Begin, Lost, Tame, Run;
    RoomWithoutLoss(u, moves);
    LimitsTame(u, moves);
  }

  lemma {:induction false} RoomWithoutLoss(u: Setup, moves: seq<Move>)
    requires Begin(u).Some? && (forall k: nat :: Lost(u, moves, k) == 0)
    requires u.limits.openFiles * Max(1, u.limits.processes) < U32_MAX
    ensures RoomFor(u, moves)
  {
    hide Begin, Lost, Run;
    if |moves| > 0 {
      var before := moves[..|moves| - 1];
      forall k: nat ensures Lost(u, before, k) == 0 {
        LostGrows(u, moves, k);
      }
      RoomWithoutLoss(u, before);
    }
  }
}
