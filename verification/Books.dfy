/** The books of a whole session: descriptions and pipes balanced against every table, over every
    run. */
module Books {
  import opened Base
  import opened Slabs
  import opened Sums
  import opened Fds
  import opened Kernel
  import opened Syscalls
  import opened HostSteps
  import opened Signals
  import opened Machine
  import opened References
  import opened CallFrames
  import opened RefCalls
  import opened PipeCalls
  import opened HostFrames
  import opened SessionRefs

  // ----- shape of a session --------------------------------------------------------------

  /** At most one process waits to be replaced, its task already moved into the request; only an
      outstanding call has a deadline or a displaced mask; and a host command is never replaced
      and its cursors are within its output. */
  ghost predicate Orderly(s: Session) {
    && (forall i, j :: 0 <= i < j < |s.procs| ==> s.procs[i].ctx.execRequest.None? || s.procs[j].ctx.execRequest.None?)
    && (forall i :: 0 <= i < |s.procs| ==> ProcOk(s.procs[i]))
  }

  ghost predicate ProcOk(p: Proc) {
    && (p.ctx.execRequest.Some? ==> p.ctx.vforkStack == [] && p.ctx.task.fds == [] && p.ctx.task.pid == 0)
    && (p.resume.Running? ==> Tidy(p.ctx.exec))
    && (p.resume.BlockedIn? ==> Tidy(p.ctx.exec) || p.resume.call.Wait?)
    && (p.body.Host? ==> p.ctx.execRequest.None? && PhaseOk(p.body.phase))
  }

  lemma FinishOrderly(s: Session, i: nat, status: int)
    requires i < |s.procs| && Orderly(s)
      && (forall j :: 0 <= j < |s.procs| && j != i ==> s.procs[j].ctx.execRequest.None?)
    ensures Orderly(FinishProcess(s, i, status)) && Settled(FinishProcess(s, i, status))
  {
    hide StackEnds, Uncharged;
  }

  lemma {:induction false} KillOrderly(s: Session, status: int)
    requires Settled(s) && Orderly(s)
    ensures KillAll(s, status).procs == []
    decreases |s.procs|
  {
    hide FinishProcess;
    if |s.procs| > 0 {
      FinishOrderly(s, 0, status);
      DroppedSettled(s, 0, status);
      KillOrderly(FinishProcess(s, 0, status), status);
    }
  }

  lemma StartOrderly(s: Session, spawn: Spawn, launch: Launch)
    requires Settled(s) && Orderly(s)
    ensures var after := Start(s, spawn, launch).0; Settled(after) && Orderly(after)
  {
    hide ReleaseFds, Charged, Uncharged;
  }

  /** No request is outstanding and every process is in order, wherever they stand in the list. */
  lemma FromList(s: Session)
    requires forall p :: p in s.procs ==> p.ctx.execRequest.None? && ProcOk(p)
    ensures Settled(s) && Orderly(s)
  {
  }

  lemma ReplaceOrderly(s: Session, i: nat, launch: Launch)
    requires i < |s.procs| && s.procs[i].ctx.execRequest.Some? && Orderly(s)
    ensures Orderly(ReplaceInstance(s, i, launch))
  {
    hide Start, SetExit, Uncharged, AddU64, ProcOk, Settled, Orderly;
    var p := s.procs[i];
    var freed := s.(procs := Dropped(s.procs, i), sh := Uncharged(s.sh, AddU64(p.charged, p.ctx.exec.grown)));
    OthersSettled(s, i);
    FromList(freed);
    StartOrderly(freed, p.ctx.execRequest.value, launch);
    var started := Start(freed, p.ctx.execRequest.value, launch).0;
    ToList(started);
    var after := ReplaceInstance(s, i, launch);
    assert forall q :: q in after.procs ==> q in started.procs;
    FromList(after);
  }

  lemma OthersSettled(s: Session, i: nat)
    requires i < |s.procs| && s.procs[i].ctx.execRequest.Some? && Orderly(s)
    ensures forall p :: p in Dropped(s.procs, i) ==> p.ctx.execRequest.None? && ProcOk(p)
  {
    hide ProcOk;
    forall p | p in Dropped(s.procs, i) ensures p.ctx.execRequest.None? && ProcOk(p) {
      var j :| 0 <= j < |Dropped(s.procs, i)| && Dropped(s.procs, i)[j] == p;
      assert p == s.procs[if j < i then j else j + 1];
    }
  }

  lemma ToList(s: Session)
    requires Settled(s) && Orderly(s)
    ensures forall p :: p in s.procs ==> p.ctx.execRequest.None? && ProcOk(p)
  {
  }

  lemma ServeOrderly(s: Session, i: nat, call: Call, now: nat)
    requires Settled(s) && Orderly(s) && i < |s.procs| && s.procs[i].body.Guest?
    requires s.procs[i].resume.BlockedIn? ==> Retries(s.procs[i].resume.call, call)
    ensures Orderly(Serve(s, i, call, now))
  {
    hide Dispatch, FinishProcess, Tidy, ChangesIdentity;
    var p := s.procs[i];
    var c := Cpu(s.sh, p.ctx, p.inst);
    ExitsKeepsRequest(c, call, now);
    DispatchTidy(c, call, now);
    var (a, after) := Dispatch(c, call, now);
    var p' := p.(ctx := after.ctx, inst := after.inst, resume := if a.Block? then BlockedIn(call) else Running);
    var served := s.(sh := after.sh, procs := s.procs[i := p']);
    assert Orderly(served);
    if a.Exits? {
      FinishOrderly(served, i, a.status);
    }
  }

  lemma FetchOrderly(s: Session, i: nat)
    requires Settled(s) && Orderly(s) && i < |s.procs|
    ensures Orderly(Fetch(s, i))
  {
    hide NextSignal, FinishProcess;
    var p := s.procs[i];
    var pid := p.ctx.task.pid;
    var (d, left, t) := NextSignal(Pending(s.sh, pid), p.ctx.task);
    var r := Find(s.sh.table, pid);
    var sh := if r.Some? then s.sh.(table := WithRecord(s.sh.table, pid, r.value.(pending := left))) else s.sh;
    var exec := if d.NoSignal? && p.ctx.exec.hasFlag then p.ctx.exec.(flag := false) else p.ctx.exec;
    var fetched := s.(sh := sh, procs := s.procs[i := p.(ctx := p.ctx.(task := t, exec := exec))]);
    assert Orderly(fetched);
    if d.Fatal? {
      FinishOrderly(fetched, i, d.status);
    }
  }

  lemma HostOrderly(s: Session, i: nat, o: HostOracle)
    requires Settled(s) && Orderly(s) && i < |s.procs| && s.procs[i].body.Host?
    ensures Orderly(HostTurn(s, i, o))
  {
    hide StepHost, FinishProcess;
    var q := s.procs[i];
    HostFrame(s.sh, q.ctx.task, q.body.readsStdin, q.body.phase, o);
    match StepHost(s.sh, q.ctx.task, q.body.readsStdin, q.body.phase, o)
    case None =>
    case Some((step, phase, sh)) =>
      var stepped := s.(sh := sh, procs := s.procs[i := q.(body := q.body.(phase := phase))]);
      assert Orderly(stepped);
      if step.EndedWith? {
        FinishOrderly(stepped, i, step.status);
      }
  }

  lemma StepOrderly(s: Session, m: Move)
    requires Orderly(s)
    ensures Orderly(Step(s, m))
  {
    hide Serve, FinishProcess, ReplaceInstance, StartNext, Fetch, HostTurn, KillAll;
    if Enabled(s, m) {
      match m
      case Syscall(i, call, now) => ServeOrderly(s, i, call, now);
      case Retry(i, call, now) => ServeOrderly(s, i, call, now);
      case Replace(i, launch) => ReplaceOrderly(s, i, launch);
      case FetchSignal(i) => FetchOrderly(s, i);
      case Init(i) =>
      case Gone(i, status, complaint) => FinishOrderly(s.(sh := WriteOutput(s.sh, 2, complaint)), i, status);
      case StartSpawn(launch) => StartNextOrderly(s, launch);
      case HostMove(i, o) => HostOrderly(s, i, o);
      case WallClock(status) => KillOrderly(s, status);
      case Feed(bytes) =>
      case CloseStdin =>
    }
  }

  lemma StartNextOrderly(s: Session, launch: Launch)
    requires Settled(s) && Orderly(s) && |s.sh.spawn| > 0
    ensures Orderly(StartNext(s, launch))
  {
    StartOrderly(s.(sh := s.sh.(spawn := s.sh.spawn[1..])), s.sh.spawn[0], launch);
  }

  // ----- pipes through the moves that are not calls --------------------------------------

  lemma TaskEndsPipes(sh: Shared, t: Task, status: int, p: nat, lostR: nat, lostW: nat)
    requires PipesOk(sh, p, lostR, lostW)
    ensures PipesOk(TaskEnds(sh, t, status), p, lostR, lostW)
  {
    ReleaseAllKeeps(sh, Drained(t.fds), p, lostR, lostW);
  }

  lemma {:induction false} StackEndsPipes(sh: Shared, task: Task, stack: seq<Task>, status: int, p: nat,
    lostR: nat, lostW: nat)
    requires PipesOk(sh, p, lostR, lostW)
    ensures PipesOk(StackEnds(sh, task, stack, status), p, lostR, lostW)
    decreases |stack|
  {
    hide TaskEnds, PipesOk;
    if |stack| == 0 {
      TaskEndsPipes(sh, task, status, p, lostR, lostW);
    } else {
      TaskEndsPipes(sh, task, StatusSignaled(SIGKILL), p, lostR, lostW);
      StackEndsPipes(TaskEnds(sh, task, StatusSignaled(SIGKILL)), stack[|stack| - 1], stack[..|stack| - 1], status, p,
        lostR, lostW);
    }
  }

  lemma FinishPipes(s: Session, i: nat, status: int, p: nat, lostR: nat, lostW: nat)
    requires i < |s.procs| && PipesOk(s.sh, p, lostR, lostW)
    ensures PipesOk(FinishProcess(s, i, status).sh, p, lostR, lostW)
  {
    hide StackEnds;
    var q := s.procs[i];
    StackEndsPipes(Uncharged(s.sh, AddU64(q.charged, q.ctx.exec.grown)), q.ctx.task, q.ctx.vforkStack, status, p,
      lostR, lostW);
  }

  lemma {:induction false} KillPipes(s: Session, status: int, p: nat, lostR: nat, lostW: nat)
    requires PipesOk(s.sh, p, lostR, lostW)
    ensures PipesOk(KillAll(s, status).sh, p, lostR, lostW)
    decreases |s.procs|
  {
    hide PipesOk;
    if |s.procs| > 0 {
      FinishPipes(s, 0, status, p, lostR, lostW);
      KillPipes(FinishProcess(s, 0, status), status, p, lostR, lostW);
    }
  }

  lemma StartPipes(s: Session, spawn: Spawn, launch: Launch, p: nat, lostR: nat, lostW: nat)
    requires PipesOk(s.sh, p, lostR, lostW)
    ensures PipesOk(Start(s, spawn, launch).0.sh, p, lostR, lostW)
  {
    hide ReleaseFds;
    AbandonPipes(s, spawn, p, lostR, lostW);
    if launch.GuestRuns? {
      var charge := AddU64(launch.Size(), ASYNCIFY_PAGES * PAGE);
      AbandonPipes(s.(sh := Uncharged(Charged(s.sh, charge).0, charge)), spawn, p, lostR, lostW);
    }
  }

  lemma AbandonPipes(s: Session, spawn: Spawn, p: nat, lostR: nat, lostW: nat)
    requires PipesOk(s.sh, p, lostR, lostW)
    ensures PipesOk(Abandoned(s, spawn).sh, p, lostR, lostW)
  {
    ReleaseAllKeeps(s.sh, Drained(spawn.task.fds), p, lostR, lostW);
  }

  lemma ReplacePipes(s: Session, i: nat, launch: Launch, p: nat, lostR: nat, lostW: nat)
    requires i < |s.procs| && s.procs[i].ctx.execRequest.Some? && PipesOk(s.sh, p, lostR, lostW)
    ensures PipesOk(ReplaceInstance(s, i, launch).sh, p, lostR, lostW)
  {
    hide Start, Dropped;
    var q := s.procs[i];
    var freed := s.(procs := Dropped(s.procs, i), sh := Uncharged(s.sh, AddU64(q.charged, q.ctx.exec.grown)));
    StartPipes(freed, q.ctx.execRequest.value, launch, p, lostR, lostW);
  }

  lemma StartNextPipes(s: Session, launch: Launch, p: nat, lostR: nat, lostW: nat)
    requires |s.sh.spawn| > 0 && PipesOk(s.sh, p, lostR, lostW)
    ensures PipesOk(StartNext(s, launch).sh, p, lostR, lostW)
  {
    hide Start;
    StartPipes(s.(sh := s.sh.(spawn := s.sh.spawn[1..])), s.sh.spawn[0], launch, p, lostR, lostW);
  }

  ghost function CpuOf(s: Session, i: nat): Cpu
    requires i < |s.procs|
  {
    Counted(Cpu(s.sh, s.procs[i].ctx, s.procs[i].inst))
  }

  ghost function LostReaderBy(s: Session, m: Move, p: nat): nat {
    if !Enabled(s, m) then 0
    else match m
      case Syscall(i, call, _) => LostReader(CpuOf(s, i), call, p)
      case Retry(i, call, _) => LostReader(CpuOf(s, i), call, p)
      case _ => 0
  }

  ghost function LostWriterBy(s: Session, m: Move, p: nat): nat {
    if !Enabled(s, m) then 0
    else match m
      case Syscall(i, call, _) => LostWriter(CpuOf(s, i), call, p)
      case Retry(i, call, _) => LostWriter(CpuOf(s, i), call, p)
      case _ => 0
  }

  lemma ServePipes(s: Session, i: nat, call: Call, now: nat, p: nat, lostR: nat, lostW: nat)
    requires i < |s.procs| && PipesOk(s.sh, p, lostR, lostW)
    ensures PipesOk(Serve(s, i, call, now).sh, p, lostR + LostReader(CpuOf(s, i), call, p),
      lostW + LostWriter(CpuOf(s, i), call, p))
  {
    hide Dispatch, FinishProcess, LostReader, LostWriter, PipesOk;
    var q := s.procs[i];
    var c := Cpu(s.sh, q.ctx, q.inst);
    DispatchPipes(c, call, now, p, lostR, lostW);
    var (a, after) := Dispatch(c, call, now);
    var q' := q.(ctx := after.ctx, inst := after.inst, resume := if a.Block? then BlockedIn(call) else Running);
    if a.Exits? {
      FinishPipes(s.(sh := after.sh, procs := s.procs[i := q']), i, a.status, p,
                  lostR + LostReader(CpuOf(s, i), call, p), lostW + LostWriter(CpuOf(s, i), call, p));
    }
  }

  lemma FetchPipes(s: Session, i: nat, p: nat, lostR: nat, lostW: nat)
    requires i < |s.procs| && PipesOk(s.sh, p, lostR, lostW)
    ensures PipesOk(Fetch(s, i).sh, p, lostR, lostW)
  {
    hide FinishProcess, NextSignal;
    var q := s.procs[i];
    var pid := q.ctx.task.pid;
    var (d, left, t) := NextSignal(Pending(s.sh, pid), q.ctx.task);
    var r := Find(s.sh.table, pid);
    var sh := if r.Some? then s.sh.(table := WithRecord(s.sh.table, pid, r.value.(pending := left))) else s.sh;
    var exec := if d.NoSignal? && q.ctx.exec.hasFlag then q.ctx.exec.(flag := false) else q.ctx.exec;
    if d.Fatal? {
      FinishPipes(s.(sh := sh, procs := s.procs[i := q.(ctx := q.ctx.(task := t, exec := exec))]), i, d.status, p,
        lostR, lostW);
    }
  }

  lemma HostPipes(s: Session, i: nat, o: HostOracle, p: nat, lostR: nat, lostW: nat)
    requires i < |s.procs| && s.procs[i].body.Host? && PhaseOk(s.procs[i].body.phase) && PipesOk(s.sh, p, lostR, lostW)
    ensures PipesOk(HostTurn(s, i, o).sh, p, lostR, lostW)
  {
    hide StepHost, FinishProcess, PipesOk;
    var q := s.procs[i];
    HostKeeps(s.sh, q.ctx.task, q.body.readsStdin, q.body.phase, o, 0, p, lostR, lostW);
    match StepHost(s.sh, q.ctx.task, q.body.readsStdin, q.body.phase, o)
    case None =>
    case Some((step, phase, sh)) =>
      if step.EndedWith? {
        FinishPipes(s.(sh := sh, procs := s.procs[i := q.(body := q.body.(phase := phase))]), i, step.status, p,
          lostR, lostW);
      }
  }

  lemma StepPipes(s: Session, m: Move, p: nat, lostR: nat, lostW: nat)
    requires Orderly(s) && PipesOk(s.sh, p, lostR, lostW)
    ensures PipesOk(Step(s, m).sh, p, lostR + LostReaderBy(s, m, p), lostW + LostWriterBy(s, m, p))
  {
    hide Serve, FinishProcess, ReplaceInstance, StartNext, Fetch, HostTurn, KillAll, LostReader, LostWriter;
    if Enabled(s, m) {
      match m
      case Syscall(i, call, now) => ServePipes(s, i, call, now, p, lostR, lostW);
      case Retry(i, call, now) => ServePipes(s, i, call, now, p, lostR, lostW);
      case Replace(i, launch) => ReplacePipes(s, i, launch, p, lostR, lostW);
      case FetchSignal(i) => FetchPipes(s, i, p, lostR, lostW);
      case Init(i) =>
      case Gone(i, status, complaint) => FinishPipes(s.(sh := WriteOutput(s.sh, 2, complaint)), i, status, p,
        lostR, lostW);
      case StartSpawn(launch) => StartNextPipes(s, launch, p, lostR, lostW);
      case HostMove(i, o) => HostPipes(s, i, o, p, lostR, lostW);
      case WallClock(status) => KillPipes(s, status, p, lostR, lostW);
      case Feed(bytes) =>
      case CloseStdin =>
    }
  }

  lemma StepRefs(s: Session, m: Move, k: nat, lost: nat, lostR: nat, lostW: nat)
    requires Orderly(s) && Accounted(s, k, lost) && PipesOk(s.sh, 0, lostR, lostW)
    requires SlotCount(s, k) + lost < U32_MAX && SlotCount(Step(s, m), k) + lost + LostBy(s, m, k) < U32_MAX
    ensures Accounted(Step(s, m), k, lost + LostBy(s, m, k))
  {
    hide Serve, FinishProcess, ReplaceInstance, StartNext, Fetch, HostTurn, KillAll, LostDesc, Accounted, PipesOk;
    if Enabled(s, m) {
      match m
      case Syscall(i, call, now) => ServeRefs(s, i, call, now, k, lost);
      case Retry(i, call, now) => ServeRefs(s, i, call, now, k, lost);
      case Replace(i, launch) => ReplaceRefs(s, i, launch, k, lost);
      case FetchSignal(i) => FetchRefs(s, i, k, lost);
      case Gone(i, status, complaint) => GoneRefs(s, i, status, complaint, k, lost);
      case StartSpawn(launch) => SpawnRefs(s, launch, k, lost);
      case HostMove(i, o) => HostRefs(s, i, o, k, lost, lostR, lostW);
      case WallClock(status) => KillRefs(s, status, k, lost);
      case _ => QuietRefs(s, m, k, lost);
    }
  }

  lemma GoneRefs(s: Session, i: nat, status: int, complaint: seq<byte>, k: nat, lost: nat)
    requires i < |s.procs| && s.procs[i].ctx.execRequest.None? && Accounted(s, k, lost)
    ensures Accounted(FinishProcess(s.(sh := WriteOutput(s.sh, 2, complaint)), i, status), k, lost)
  {
    hide FinishProcess, DescsOk;
    FinishRefs(s.(sh := WriteOutput(s.sh, 2, complaint)), i, status, k, lost);
  }

  lemma QuietRefs(s: Session, m: Move, k: nat, lost: nat)
    requires Enabled(s, m) && (m.Init? || m.Feed? || m.CloseStdin?) && Accounted(s, k, lost)
    ensures Accounted(Step(s, m), k, lost)
  {
    hide DescsOk;
    if m.Init? {
      var p := s.procs[m.i];
      SumUpdate(s.procs, m.i, p.(ctx := p.ctx.(exec := p.ctx.exec.(hasFlag := true))), ProcSlots(k));
    }
  }
}
