/** The memory account: what the session has charged is what its guests occupy, on every run. */
module Memory {
  import opened Base
  import opened Slabs
  import opened Sums
  import opened Fds
  import opened Kernel
  import opened Syscalls
  import opened HostSteps
  import opened Signals
  import opened Machine
  import opened References
  import opened CallFrames
  import opened HostFrames
  import opened SessionRefs
  import opened Books
  import opened RefTheorems

  const AREA: nat := ASYNCIFY_PAGES * PAGE

  function RoundUp(bytes: nat): nat {
    Pages(bytes) * PAGE
  }

  /** Mappings lie above the stack-saving area, within the memory, each after the one before. */
  ghost predicate MapsOk(inst: Inst) {
    && inst.asyncify + AREA <= inst.size
    && (forall i :: 0 <= i < |inst.maps| ==> inst.asyncify + AREA <= inst.maps[i].0 < inst.maps[i].1 <= inst.size)
    && (forall i, j :: 0 <= i < j < |inst.maps| ==> inst.maps[i].1 <= inst.maps[j].0)
  }

  /** What an instance occupies is what it was charged at the start and what it has grown by, in
      whole pages, within its cap. */
  ghost predicate Sized(inst: Inst, charged: nat, grown: nat, limits: Limits) {
    && inst.size == charged + grown
    && inst.size % PAGE == 0
    && inst.size <= Max(charged, RoundUp(limits.memoryPerProcess))
  }

  ghost predicate ProcMemory(p: Proc, limits: Limits) {
    && Sized(p.inst, p.charged, p.ctx.exec.grown, limits)
    && (p.body.Guest? ==> p.charged == p.inst.asyncify + AREA && MapsOk(p.inst))
    && (p.body.Host? ==> p.inst.size == 0)
  }

  ghost function MemorySum(procs: seq<Proc>): nat {
    Sum(procs, SizeOf())
  }

  ghost function SizeOf(): Proc -> nat {
    (p: Proc) => p.inst.size
  }

  ghost predicate Solvent(s: Session, limits: Limits) {
    && s.sh.limits == limits
    && s.sh.memoryUsed == MemorySum(s.procs) <= limits.memory
    && forall i :: 0 <= i < |s.procs| ==> ProcMemory(s.procs[i], limits)
  }

  // ----- growing one instance ------------------------------------------------------------

  lemma PagesCover(bytes: nat)
    ensures bytes <= RoundUp(bytes) < bytes + PAGE && RoundUp(bytes) % PAGE == 0
  {
  }

  lemma RoundUpMonotone(a: nat, b: nat)
    requires a <= b
    ensures RoundUp(a) <= RoundUp(b)
  {
  }

  /** From a whole number of pages, growing to reach `request` ends at `request` rounded up. */
  lemma GrowthRounds(current: nat, request: nat)
    requires current % PAGE == 0 && current < request
    ensures current + RoundUp(request - current) == RoundUp(request)
  {
  }

  /** The account moves with the instance: what is charged is what is grown, exactly. */
  ghost predicate Moves(c: Cpu, after: Cpu) {
    && after.sh.limits == c.sh.limits
    && c.inst.size <= after.inst.size
    && after.sh.memoryUsed == c.sh.memoryUsed + (after.inst.size - c.inst.size)
    && after.ctx.exec.grown == c.ctx.exec.grown + (after.inst.size - c.inst.size)
    && after.sh.memoryUsed <= after.sh.limits.memory
    && after.inst.asyncify == c.inst.asyncify
  }

  ghost predicate WithinAccount(c: Cpu) {
    && c.ctx.exec.grown <= c.inst.size <= c.sh.memoryUsed <= c.sh.limits.memory < U64_MAX
    && c.inst.size % PAGE == 0
  }

  lemma BrkMoves(c: Cpu, request: nat, grows: bool)
    requires WithinAccount(c)
    ensures var after := DoBrk(c, request, grows).1;
      && Moves(c, after) && after.inst.maps == c.inst.maps
      && after.inst.size % PAGE == 0
      && after.inst.size <= Max(c.inst.size, RoundUp(c.sh.limits.memoryPerProcess))
  {
    if c.inst.size < request <= c.sh.limits.memoryPerProcess {
      GrowthRounds(c.inst.size, request);
      RoundUpMonotone(request, c.sh.limits.memoryPerProcess);
    }
  }

  lemma MmapMoves(c: Cpu, length: nat, fixed: bool, anonymous: bool, fd: int, grows: bool, vfs: Vfs)
    requires WithinAccount(c)
    ensures var after := DoMmap(c, length, fixed, anonymous, fd, grows, vfs).1;
      && Moves(c, after)
      && after.inst.size % PAGE == 0
      && after.inst.size <= Max(c.inst.size, RoundUp(c.sh.limits.memoryPerProcess))
      && (if after.inst.size == c.inst.size then after.inst == c.inst
          else after.inst.maps == c.inst.maps + [(c.inst.size, after.inst.size)])
  {
    PagesCover(length);
    PagesCover(c.sh.limits.memoryPerProcess);
    var bytes := Pages(length) * PAGE;
    var at := c.inst.size;
    var grown := Grown(c, Charged(c.sh, bytes).0, bytes);
    MapFileFrame(grown.(inst := grown.inst.(maps := grown.inst.maps + [(at, at + bytes)])), at, fd, vfs);
  }

  /** An anonymous mapping's address starts a range no one had: the whole of it is new memory. */
  lemma MmapIsFresh(c: Cpu, length: nat, fixed: bool, fd: int, grows: bool, vfs: Vfs)
    requires WithinAccount(c) && MapsOk(c.inst)
    ensures var (a, after) := DoMmap(c, length, fixed, true, fd, grows, vfs);
      && MapsOk(after.inst)
      && (a.Value? ==>
            && a.v == c.inst.size && after.inst.size >= a.v + length
            && forall i :: 0 <= i < |c.inst.maps| ==> c.inst.maps[i].1 <= a.v)
      && (!a.Value? ==> after.inst == c.inst && after.sh.memoryUsed == c.sh.memoryUsed)
  {
    PagesCover(length);
    MmapMoves(c, length, fixed, true, fd, grows, vfs);
  }

  // ----- any call ------------------------------------------------------------------------

  /** A growing step keeps whole pages, the cap and the order of the mappings. */
  ghost predicate Grows(c: Cpu, after: Cpu) {
    && Moves(c, after) && after.inst.size % PAGE == 0
    && after.inst.size <= Max(c.inst.size, RoundUp(c.sh.limits.memoryPerProcess))
    && (MapsOk(c.inst) ==> MapsOk(after.inst))
  }

  lemma MemGrows(c: Cpu, call: MemCall)
    requires WithinAccount(c)
    ensures Grows(c, HandleMem(c, call).1)
  {
    hide DoBrk, DoMmap, RoundUp;
    match call
    case Brk(request, grows) => BrkMoves(c, request, grows);
    case Mmap(length, fixed, anonymous, fd, grows, vfs) => MmapMoves(c, length, fixed, anonymous, fd, grows, vfs);
  }

  lemma WaitKeepsGrown(c: Cpu, call: WaitCall, now: nat)
    ensures HandleWait(c, call, now).1.ctx.exec.grown == c.ctx.exec.grown
  {
    hide ReadyCount, WokenAt;
  }

  lemma HandleGrows(c: Cpu, call: Call, now: nat)
    requires WithinAccount(c)
    ensures Grows(c, Handle(c, call, now).1)
  {
    hide HandleLife, HandleFiles, HandleWait, HandleOwn, HandleBytes, HandleMem, RoundUp;
    match call {
      case Life(life) => LifeFrame(c, life);
      case Own(own) => OwnFrame(c, own);
      case Wait(wait) => WaitFrame(c, wait, now); WaitKeepsGrown(c, wait, now);
      case Mem(mem) => MemGrows(c, mem);
      case Files(files) => FilesFrame(c, files);
      case Bytes(bytes) => BytesFrame(c, bytes);
      case FileCall(vfs) =>
      case Plainly(result) =>
    }
  }

  lemma DispatchGrows(c: Cpu, call: Call, now: nat)
    requires WithinAccount(c)
    ensures Grows(c, Dispatch(c, call, now).1)
  {
    hide Handle, Finished, MapsOk;
    HandleGrows(Counted(c), call, now);
    FinishFrame(Handle(Counted(c), call, now).1);
  }

  // ----- move by move --------------------------------------------------------------------

  /** Neither the account nor the limits. */
  ghost predicate SameAccount(sh: Shared, after: Shared) {
    after.memoryUsed == sh.memoryUsed && after.limits == sh.limits
  }

  lemma {:induction false} StackEndsAccount(sh: Shared, task: Task, stack: seq<Task>, status: int)
    ensures SameAccount(sh, StackEnds(sh, task, stack, status))
    decreases |stack|
  {
    hide ReleaseFds, ExitTable;
    ReleaseFdsFrame(sh, task.fds);
    if |stack| > 0 {
      StackEndsAccount(TaskEnds(sh, task, StatusSignaled(SIGKILL)), stack[|stack| - 1], stack[..|stack| - 1], status);
    }
  }

  /** What a process gives back at its death is all it ever took: the subtraction is exact. */
  lemma PaysBack(s: Session, i: nat, limits: Limits)
    requires i < |s.procs| && Solvent(s, limits) && limits.memory < U64_MAX
    ensures var p := s.procs[i];
      && AddU64(p.charged, p.ctx.exec.grown) == p.charged + p.ctx.exec.grown == p.inst.size <= s.sh.memoryUsed
      && Uncharged(s.sh, AddU64(p.charged, p.ctx.exec.grown)).memoryUsed == MemorySum(Dropped(s.procs, i))
  {
    SumDropped(s.procs, i, SizeOf());
  }

  lemma FinishSolvent(s: Session, i: nat, status: int, limits: Limits)
    requires i < |s.procs| && Solvent(s, limits) && limits.memory < U64_MAX
    ensures Solvent(FinishProcess(s, i, status), limits)
  {
    hide StackEnds, ProcMemory, AddU64;
    var p := s.procs[i];
    PaysBack(s, i, limits);
    SumDropped(s.procs, i, SizeOf());
    StackEndsAccount(Uncharged(s.sh, AddU64(p.charged, p.ctx.exec.grown)), p.ctx.task, p.ctx.vforkStack, status);
  }

  lemma {:induction false} KillSolvent(s: Session, status: int, limits: Limits)
    requires Solvent(s, limits) && limits.memory < U64_MAX
    ensures Solvent(KillAll(s, status), limits)
    decreases |s.procs|
  {
    hide ProcMemory, StackEnds;
    if |s.procs| > 0 {
      FinishSolvent(s, 0, status, limits);
      KillSolvent(FinishProcess(s, 0, status), status, limits);
    }
  }

  lemma AbandonedAccount(s: Session, spawn: Spawn)
    ensures SameAccount(s.sh, Abandoned(s, spawn).sh) && Abandoned(s, spawn).procs == s.procs
  {
    ReleaseFdsFrame(s.sh, spawn.task.fds);
  }

  lemma StartSolvent(s: Session, spawn: Spawn, launch: Launch, limits: Limits)
    requires Solvent(s, limits) && limits.memory < U64_MAX
    ensures Solvent(Start(s, spawn, launch).0, limits)
  {
    hide Abandoned, RoundUp;
    AbandonedAccount(s, spawn);
    var charge := AddU64(launch.Size(), AREA);
    AbandonedAccount(s.(sh := Uncharged(Charged(s.sh, charge).0, charge)), spawn);
    var (after, ok) := Start(s, spawn, launch);
    if ok {
      SumPush(s.procs, after.procs[|s.procs|], SizeOf());
    }
  }

  lemma StartNextSolvent(s: Session, launch: Launch, limits: Limits)
    requires |s.sh.spawn| > 0 && Solvent(s, limits) && limits.memory < U64_MAX
    ensures Solvent(StartNext(s, launch), limits)
  {
    hide Start, ExitTable, ProcMemory;
    StartSolvent(s.(sh := s.sh.(spawn := s.sh.spawn[1..])), s.sh.spawn[0], launch, limits);
  }

  lemma ReplaceSolvent(s: Session, i: nat, launch: Launch, limits: Limits)
    requires i < |s.procs| && s.procs[i].ctx.execRequest.Some? && Solvent(s, limits) && limits.memory < U64_MAX
    ensures Solvent(ReplaceInstance(s, i, launch), limits)
  {
    hide Start, ExitTable, ProcMemory, AddU64;
    var p := s.procs[i];
    var freed := s.(procs := Dropped(s.procs, i), sh := Uncharged(s.sh, AddU64(p.charged, p.ctx.exec.grown)));
    PaysBack(s, i, limits);
    SumDropped(s.procs, i, SizeOf());
    assert Solvent(freed, limits);
    StartSolvent(freed, p.ctx.execRequest.value, launch, limits);
    var (started, ok) := Start(freed, p.ctx.execRequest.value, launch);
    if ok && |started.procs| > 0 {
      SumMoved(started.procs, Min(i, |started.procs| - 1), SizeOf());
    }
  }

  lemma ServeSolvent(s: Session, i: nat, call: Call, now: nat, limits: Limits)
    requires i < |s.procs| && s.procs[i].body.Guest? && Solvent(s, limits) && limits.memory < U64_MAX
    ensures Solvent(Serve(s, i, call, now), limits)
  {
    hide Dispatch, FinishProcess, RoundUp, MapsOk;
    var p := s.procs[i];
    var c := Cpu(s.sh, p.ctx, p.inst);
    SumDropped(s.procs, i, SizeOf());
    DispatchGrows(c, call, now);
    var (a, after) := Dispatch(c, call, now);
    var p' := p.(ctx := after.ctx, inst := after.inst, resume := if a.Block? then BlockedIn(call) else Running);
    var served := s.(sh := after.sh, procs := s.procs[i := p']);
    SumUpdate(s.procs, i, p', SizeOf());
    assert ProcMemory(p', limits);
    if a.Exits? {
      FinishSolvent(served, i, a.status, limits);
    }
  }

  /** A process changed in nothing that has to do with memory. */
  lemma SameSolvent(s: Session, i: nat, p: Proc, sh: Shared, limits: Limits)
    requires i < |s.procs| && Solvent(s, limits) && SameAccount(s.sh, sh)
    requires p.inst == s.procs[i].inst && p.charged == s.procs[i].charged
      && p.ctx.exec.grown == s.procs[i].ctx.exec.grown
    requires p.body.Guest? == s.procs[i].body.Guest?
    ensures Solvent(s.(sh := sh, procs := s.procs[i := p]), limits)
  {
    hide Sized, MapsOk;
    SumUpdate(s.procs, i, p, SizeOf());
  }

  lemma FetchSolvent(s: Session, i: nat, limits: Limits)
    requires i < |s.procs| && Solvent(s, limits) && limits.memory < U64_MAX
    ensures Solvent(Fetch(s, i), limits)
  {
    hide NextSignal, FinishProcess, WithRecord, Solvent;
    var p := s.procs[i];
    var pid := p.ctx.task.pid;
    var (d, left, t) := NextSignal(Pending(s.sh, pid), p.ctx.task);
    var r := Find(s.sh.table, pid);
    var sh := if r.Some? then s.sh.(table := WithRecord(s.sh.table, pid, r.value.(pending := left))) else s.sh;
    var exec := if d.NoSignal? && p.ctx.exec.hasFlag then p.ctx.exec.(flag := false) else p.ctx.exec;
    var p' := p.(ctx := p.ctx.(task := t, exec := exec));
    SameSolvent(s, i, p', sh, limits);
    if d.Fatal? {
      FinishSolvent(s.(sh := sh, procs := s.procs[i := p']), i, d.status, limits);
    }
  }

  lemma HostSolvent(s: Session, i: nat, o: HostOracle, limits: Limits)
    requires i < |s.procs| && s.procs[i].body.Host? && PhaseOk(s.procs[i].body.phase)
    requires Solvent(s, limits) && limits.memory < U64_MAX
    ensures Solvent(HostTurn(s, i, o), limits)
  {
    hide StepHost, FinishProcess, Solvent;
    var q := s.procs[i];
    HostFrame(s.sh, q.ctx.task, q.body.readsStdin, q.body.phase, o);
    match StepHost(s.sh, q.ctx.task, q.body.readsStdin, q.body.phase, o)
    case None =>
    case Some((step, phase, sh)) =>
      var q' := q.(body := q.body.(phase := phase));
      SameSolvent(s, i, q', sh, limits);
      if step.EndedWith? {
        FinishSolvent(s.(sh := sh, procs := s.procs[i := q']), i, step.status, limits);
      }
  }

  lemma GoneSolvent(s: Session, i: nat, status: int, complaint: seq<byte>, limits: Limits)
    requires i < |s.procs| && Solvent(s, limits) && limits.memory < U64_MAX
    ensures Solvent(FinishProcess(s.(sh := WriteOutput(s.sh, 2, complaint)), i, status), limits)
  {
    hide FinishProcess, ProcMemory;
    FinishSolvent(s.(sh := WriteOutput(s.sh, 2, complaint)), i, status, limits);
  }

  lemma QuietSolvent(s: Session, m: Move, limits: Limits)
    requires Enabled(s, m) && (m.Init? || m.Feed? || m.CloseStdin?) && Solvent(s, limits)
    ensures Solvent(Step(s, m), limits)
  {
    hide ProcMemory;
    if m.Init? {
      var p := s.procs[m.i];
      SameSolvent(s, m.i, p.(ctx := p.ctx.(exec := p.ctx.exec.(hasFlag := true))), s.sh, limits);
    }
  }

  lemma StepSolvent(s: Session, m: Move, limits: Limits)
    requires Solvent(s, limits) && limits.memory < U64_MAX
    ensures Solvent(Step(s, m), limits)
  {
    hide Serve, FinishProcess, ReplaceInstance, StartNext, Fetch, HostTurn, KillAll, Solvent;
    if Enabled(s, m) {
      match m
      case Syscall(i, call, now) => ServeSolvent(s, i, call, now, limits);
      case Retry(i, call, now) => ServeSolvent(s, i, call, now, limits);
      case Replace(i, launch) => ReplaceSolvent(s, i, launch, limits);
      case FetchSignal(i) => FetchSolvent(s, i, limits);
      case Gone(i, status, complaint) => GoneSolvent(s, i, status, complaint, limits);
      case StartSpawn(launch) => StartNextSolvent(s, launch, limits);
      case HostMove(i, o) => HostSolvent(s, i, o, limits);
      case WallClock(status) => KillSolvent(s, status, limits);
      case _ => QuietSolvent(s, m, limits);
    }
  }

  // ----- every run -----------------------------------------------------------------------

  lemma BeginSolvent(u: Setup)
    requires Begin(u).Some? && u.limits.memory < U64_MAX
    ensures Solvent(Begin(u).value, u.limits)
  {
    hide Start, Streams, ProcMemory;
    StreamsBooks(u, 0, 0);
    var (sh, fds) := Streams(EmptyShared(u.limits)).value;
    var s0 := Session(sh.(nextPid := 2, table := [NewRecord(1, 0, 1, 1)]), [], None);
    StartSolvent(s0, Spawn(FirstTask(fds, u.cwd), u.program, u.exe, u.argv, u.envp), u.launch, u.limits);
  }

  lemma {:induction false} RunSolvent(u: Setup, moves: seq<Move>)
    requires Begin(u).Some? && u.limits.memory < U64_MAX
    ensures Solvent(Run(Begin(u).value, moves), u.limits)
  {
    hide Step, Begin, Solvent;
    if |moves| == 0 {
      BeginSolvent(u);
    } else {
      RunSolvent(u, moves[..|moves| - 1]);
      StepSolvent(Run(Begin(u).value, moves[..|moves| - 1]), moves[|moves| - 1], u.limits);
    }
  }

  /** On every run the account is the total size of the guests, never over the limit; each guest
      is what it was charged plus what it grew, within its cap; what a death will give back is
      exactly that, so the saturating arithmetic never saturates; and nothing is left charged
      when nobody runs. */
  lemma MemoryIsConserved(u: Setup, moves: seq<Move>)
    requires Begin(u).Some? && u.limits.memory < U64_MAX
    ensures var s := Run(Begin(u).value, moves);
      && s.sh.memoryUsed == MemorySum(s.procs) <= u.limits.memory
      && (s.procs == [] ==> s.sh.memoryUsed == 0)
      && forall i :: 0 <= i < |s.procs| ==> var p := s.procs[i];
           && AddU64(p.charged, p.ctx.exec.grown) == p.charged + p.ctx.exec.grown == p.inst.size <= s.sh.memoryUsed
           && p.inst.size <= Max(p.charged, RoundUp(u.limits.memoryPerProcess))
  {
    hide Begin, Run;
    RunSolvent(u, moves);
    var s := Run(Begin(u).value, moves);
    forall i | 0 <= i < |s.procs| ensures var p := s.procs[i];
      && AddU64(p.charged, p.ctx.exec.grown) == p.charged + p.ctx.exec.grown == p.inst.size <= s.sh.memoryUsed
    {
      PaysBack(s, i, u.limits);
    }
  }

  /** No two mappings of a guest overlap, and none overlaps the stack-saving area. */
  lemma MappingsAreDisjoint(u: Setup, moves: seq<Move>, i: nat, a: nat, b: nat, x: nat)
    requires Begin(u).Some? && u.limits.memory < U64_MAX
    requires var s := Run(Begin(u).value, moves);
      i < |s.procs| && s.procs[i].body.Guest? && a < |s.procs[i].inst.maps| && b < |s.procs[i].inst.maps| && a != b
    ensures var inst := Run(Begin(u).value, moves).procs[i].inst;
      inst.maps[a].0 <= x < inst.maps[a].1 ==>
        && !(inst.maps[b].0 <= x < inst.maps[b].1)
        && !(inst.asyncify <= x < inst.asyncify + AREA)
        && x < inst.size
  {
    hide Begin, Run;
    RunSolvent(u, moves);
    var s := Run(Begin(u).value, moves);
    assert ProcMemory(s.procs[i], u.limits);
  }
}
