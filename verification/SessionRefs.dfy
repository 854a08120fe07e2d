/** Reference counts over whole runs: every reference is a slot in some table of the session, or
    one lost by a failed allocation that the run can be asked to name. */
module SessionRefs {
  import opened Base
  import opened Slabs
  import opened Sums
  import opened Fds
  import opened Kernel
  import opened Syscalls
  import opened HostSteps
  import opened Signals
  import opened Machine
  import opened References
  import opened CallFrames
  import opened RefCalls
  import opened PipeCalls
  import opened HostFrames

  /** Slots naming `k` in every table of every process. */
  ghost function ProcsCount(procs: seq<Proc>, k: nat): nat {
    Sum(procs, ProcSlots(k))
  }

  ghost function ProcSlots(k: nat): Proc -> nat {
    (p: Proc) => CtxCount(p.ctx, k)
  }

  /** Slots naming `k` anywhere: running tasks, vfork parents, exec requests, queued spawns. */
  ghost function SlotCount(s: Session, k: nat): nat {
    ProcsCount(s.procs, k) + SpawnCount(s.sh.spawn, k)
  }

  ghost predicate Accounted(s: Session, k: nat, lost: nat) {
    DescsOk(s.sh.descs) && RefAt(s.sh.descs, k) == SlotCount(s, k) + lost
  }

  /** References to `k` a move loses. */
  ghost function LostBy(s: Session, m: Move, k: nat): nat {
    if !Enabled(s, m) then 0
    else match m
      case Syscall(i, call, _) => LostDesc(Counted(Cpu(s.sh, s.procs[i].ctx, s.procs[i].inst)), call, k)
      case Retry(i, call, _) => LostDesc(Counted(Cpu(s.sh, s.procs[i].ctx, s.procs[i].inst)), call, k)
      case _ => 0
  }

  ghost function LostAlong(s: Session, moves: seq<Move>, k: nat): nat {
    if |moves| == 0 then 0
    else LostAlong(s, moves[..|moves| - 1], k) + LostBy(Run(s, moves[..|moves| - 1]), moves[|moves| - 1], k)
  }

  lemma TaskEndsRefs(sh: Shared, t: Task, status: int, k: nat)
    requires DescsOk(sh.descs)
    ensures var after := TaskEnds(sh, t, status);
      DescsOk(after.descs) && after.spawn == sh.spawn
        && RefAt(after.descs, k) == SubSat(RefAt(sh.descs, k), Count(t.fds, k))
  {
    ReleaseFdsRefs(sh, t.fds, k);
  }

  lemma {:induction false} StackEndsRefs(sh: Shared, task: Task, stack: seq<Task>, status: int, k: nat)
    requires DescsOk(sh.descs)
    ensures var after := StackEnds(sh, task, stack, status);
      && DescsOk(after.descs) && after.spawn == sh.spawn
      && RefAt(after.descs, k) == SubSat(RefAt(sh.descs, k), Count(task.fds, k) + StackCount(stack, k))
    decreases |stack|
  {
    hide TaskEnds;
    if |stack| == 0 {
      TaskEndsRefs(sh, task, status, k);
    } else {
      TaskEndsRefs(sh, task, StatusSignaled(SIGKILL), k);
      StackEndsRefs(TaskEnds(sh, task, StatusSignaled(SIGKILL)), stack[|stack| - 1], stack[..|stack| - 1], status, k);
    }
  }

  /** A death gives back exactly the dead process's slots, vfork children inside it included. */
  lemma FinishRefs(s: Session, i: nat, status: int, k: nat, lost: nat)
    requires i < |s.procs| && s.procs[i].ctx.execRequest.None? && Accounted(s, k, lost)
    ensures Accounted(FinishProcess(s, i, status), k, lost)
  {
    hide StackEnds, DescsOk, Dropped;
    var p := s.procs[i];
    SumDropped(s.procs, i, ProcSlots(k));
    StackEndsRefs(Uncharged(s.sh, AddU64(p.charged, p.ctx.exec.grown)), p.ctx.task, p.ctx.vforkStack, status, k);
  }

  lemma DroppedSettled(s: Session, i: nat, status: int)
    requires i < |s.procs| && Settled(s)
    ensures Settled(FinishProcess(s, i, status)) && |FinishProcess(s, i, status).procs| == |s.procs| - 1
  {
  }

  lemma {:induction false} KillRefs(s: Session, status: int, k: nat, lost: nat)
    requires Settled(s) && Accounted(s, k, lost)
    ensures Accounted(KillAll(s, status), k, lost)
    decreases |s.procs|
  {
    if |s.procs| > 0 {
      FinishRefs(s, 0, status, k, lost);
      DroppedSettled(s, 0, status);
      KillRefs(FinishProcess(s, 0, status), status, k, lost);
    }
  }

  lemma FreshSlots(spawn: Spawn, k: nat)
    ensures CtxCount(FreshCtx(spawn), k) == Count(spawn.task.fds, k)
  {
    hide Count;
  }

  /** A spawn's slots pass to the new process, or back to the kernel when it cannot start. */
  lemma StartRefs(s: Session, spawn: Spawn, launch: Launch, k: nat, lost: nat)
    requires Accounted(s, k, lost + Count(spawn.task.fds, k))
    ensures Accounted(Start(s, spawn, launch).0, k, lost)
  {
    hide ReleaseFds, DescsOk, Count, Sum, FreshCtx, CtxCount, StackCount;
    var after := Start(s, spawn, launch).0;
    if launch.HostCommand? || (launch.GuestRuns? && Start(s, spawn, launch).1) {
      FreshSlots(spawn, k);
      SumPush(s.procs, after.procs[|s.procs|], ProcSlots(k));
    } else {
      ReleaseFdsRefs(s.sh, spawn.task.fds, k);
      if launch.GuestRuns? {
        var charge := AddU64(launch.Size(), ASYNCIFY_PAGES * PAGE);
        ReleaseFdsRefs(Uncharged(Charged(s.sh, charge).0, charge), spawn.task.fds, k);
      }
    }
  }

  lemma ReplaceRefs(s: Session, i: nat, launch: Launch, k: nat, lost: nat)
    requires i < |s.procs| && s.procs[i].ctx.execRequest.Some? && Accounted(s, k, lost)
    requires s.procs[i].ctx.vforkStack == [] && s.procs[i].ctx.task.fds == []
    ensures Accounted(ReplaceInstance(s, i, launch), k, lost)
  {
    hide Start, DescsOk, AddU64, ExitTable;
    var p := s.procs[i];
    var freed := s.(procs := Dropped(s.procs, i), sh := Uncharged(s.sh, AddU64(p.charged, p.ctx.exec.grown)));
    SumDropped(s.procs, i, ProcSlots(k));
    StartRefs(freed, p.ctx.execRequest.value, launch, k, lost);
    var (started, ok) := Start(freed, p.ctx.execRequest.value, launch);
    if ok && |started.procs| > 0 {
      SumMoved(started.procs, Min(i, |started.procs| - 1), ProcSlots(k));
    }
  }

  lemma SpawnRefs(s: Session, launch: Launch, k: nat, lost: nat)
    requires |s.sh.spawn| > 0 && Accounted(s, k, lost)
    ensures Accounted(StartNext(s, launch), k, lost)
  {
    SumPop(s.sh.spawn, QueuedSlots(k));
    StartRefs(s.(sh := s.sh.(spawn := s.sh.spawn[1..])), s.sh.spawn[0], launch, k, lost);
  }

  /** A `vfork` adds to the slots in reach those of the table it copies. */
  lemma ForkSlots(c: Cpu, now: nat, k: nat)
    requires Forks(Counted(c), Life(Clone(true))) && c.ctx.execRequest.None?
    ensures var (a, after) := Dispatch(c, Life(Clone(true)), now);
      a == Value(0) && CpuCount(after, k) == CpuCount(c, k) + Count(c.ctx.task.fds, k)
  {
    hide LiveCount, Bumped, Drained, Find, Interrupted;
    var stack := c.ctx.vforkStack + [c.ctx.task];
    SumPush(c.ctx.vforkStack, c.ctx.task, TaskSlots(k));
  }

  lemma ServeRoomy(s: Session, i: nat, call: Call, now: nat, k: nat, lost: nat)
    requires i < |s.procs| && s.procs[i].ctx.execRequest.None? && Accounted(s, k, lost)
    requires SlotCount(s, k) + lost < U32_MAX && SlotCount(Serve(s, i, call, now), k) + lost < U32_MAX
    ensures Roomy(Cpu(s.sh, s.procs[i].ctx, s.procs[i].inst), call, k)
  {
    hide Dispatch, DescsOk, FinishProcess;
    var p := s.procs[i];
    var c := Cpu(s.sh, p.ctx, p.inst);
    if Forks(c, call) {
      ForkSlots(c, now, k);
      var (a, after) := Dispatch(c, call, now);
      SumUpdate(s.procs, i, p.(ctx := after.ctx, inst := after.inst, resume := Running), ProcSlots(k));
    }
  }

  /** A call that ends its process leaves the process's own task and stack in place. */
  lemma ServeRefs(s: Session, i: nat, call: Call, now: nat, k: nat, lost: nat)
    requires i < |s.procs| && s.procs[i].ctx.execRequest.None? && Accounted(s, k, lost)
    requires SlotCount(s, k) + lost < U32_MAX && SlotCount(Serve(s, i, call, now), k) + lost < U32_MAX
    ensures Accounted(Serve(s, i, call, now), k,
      lost + LostDesc(Counted(Cpu(s.sh, s.procs[i].ctx, s.procs[i].inst)), call, k))
  {
    hide Dispatch, FinishProcess, DescsOk, Sum, LostDesc, Roomy;
    var p := s.procs[i];
    var c := Cpu(s.sh, p.ctx, p.inst);
    SumDropped(s.procs, i, ProcSlots(k));
    ServeRoomy(s, i, call, now, k, lost);
    var elsewhere := ProcsCount(Dropped(s.procs, i), k) + lost;
    DispatchRefs(c, call, now, k, elsewhere);
    var (a, after) := Dispatch(c, call, now);
    var p' := p.(ctx := after.ctx, inst := after.inst, resume := if a.Block? then BlockedIn(call) else Running);
    var served := s.(sh := after.sh, procs := s.procs[i := p']);
    SumUpdate(s.procs, i, p', ProcSlots(k));
    if a.Exits? {
      ExitsKeepsRequest(c, call, now);
      FinishRefs(served, i, a.status, k, lost + LostDesc(Counted(c), call, k));
    }
  }

  /** Exactly an in-place `execve` leaves a request, and by then the task has moved into it. */
  lemma ExitsKeepsRequest(c: Cpu, call: Call, now: nat)
    requires c.ctx.execRequest.None?
    ensures Dispatch(c, call, now).0.Execs? <==> Dispatch(c, call, now).1.ctx.execRequest.Some?
    ensures var after := Dispatch(c, call, now).1;
      after.ctx.execRequest.Some? ==> after.ctx.vforkStack == [] && after.ctx.task.fds == [] && after.ctx.task.pid == 0
  {
    hide Finished, ReleaseAll, ReleaseFds, SetExit, KeptOnExec, DrainedCloexec, ForkRecord, Bumped, Interrupted;
    FinishFrame(Handle(Counted(c), call, now).1);
    if ChangesIdentity(call) {
      assert Handle(Counted(c), call, now) == HandleLife(Counted(c), call.life);
    } else {
      hide Handle;
      HandleIdentity(Counted(c), call, now);
    }
  }

  lemma FetchRefs(s: Session, i: nat, k: nat, lost: nat)
    requires i < |s.procs| && s.procs[i].ctx.execRequest.None? && Accounted(s, k, lost)
    ensures Accounted(Fetch(s, i), k, lost)
  {
    hide NextSignal, FinishProcess, DescsOk;
    var p := s.procs[i];
    var pid := p.ctx.task.pid;
    FetchedTask(Pending(s.sh, pid), p.ctx.task);
    var (d, left, t) := NextSignal(Pending(s.sh, pid), p.ctx.task);
    var r := Find(s.sh.table, pid);
    var sh := if r.Some? then s.sh.(table := WithRecord(s.sh.table, pid, r.value.(pending := left))) else s.sh;
    var exec := if d.NoSignal? && p.ctx.exec.hasFlag then p.ctx.exec.(flag := false) else p.ctx.exec;
    var p' := p.(ctx := p.ctx.(task := t, exec := exec));
    SumUpdate(s.procs, i, p', ProcSlots(k));
    if d.Fatal? {
      FinishRefs(s.(sh := sh, procs := s.procs[i := p']), i, d.status, k, lost);
    }
  }

  lemma FetchedTask(pending: set<int>, t: Task)
    ensures NextSignal(pending, t).2 == t.(sigact := NextSignal(pending, t).2.sigact)
  {
  }

  lemma HostRefs(s: Session, i: nat, o: HostOracle, k: nat, lost: nat, lostR: nat, lostW: nat)
    requires i < |s.procs| && s.procs[i].body.Host? && PhaseOk(s.procs[i].body.phase)
    requires s.procs[i].ctx.execRequest.None? && Accounted(s, k, lost) && PipesOk(s.sh, 0, lostR, lostW)
    ensures Accounted(HostTurn(s, i, o), k, lost)
  {
    hide StepHost, FinishProcess;
    var q := s.procs[i];
    HostFrame(s.sh, q.ctx.task, q.body.readsStdin, q.body.phase, o);
    HostKeeps(s.sh, q.ctx.task, q.body.readsStdin, q.body.phase, o, k, 0, lostR, lostW);
    match StepHost(s.sh, q.ctx.task, q.body.readsStdin, q.body.phase, o)
    case None =>
    case Some((step, phase, sh)) =>
      var q' := q.(body := q.body.(phase := phase));
      SumUpdate(s.procs, i, q', ProcSlots(k));
      if step.EndedWith? {
        FinishRefs(s.(sh := sh, procs := s.procs[i := q']), i, step.status, k, lost);
      }
  }
}
