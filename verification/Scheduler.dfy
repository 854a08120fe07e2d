/** The kernel itself, changed in place: the list of processes and the moves of the scheduler. Any
    sequence of its moves takes the session where the state machine takes it. */
module Schedulers {
  import opened Base
  import opened Slabs
  import opened Sums
  import opened Fds
  import opened Kernel
  import opened Syscalls
  import opened HostSteps
  import opened Signals
  import opened Machine
  import opened Stutter
  import opened Deadlock
  import opened SharedStates
  import opened Handlers

  class Scheduler {
    const shared: SharedState
    var procs: seq<Proc>
    var exitStatus: Option<int>

    ghost function View(): Session
      reads this, shared, shared.descs, shared.pipes
    {
      Session(shared.View(), procs, exitStatus)
    }

    constructor (limits: Limits)
      ensures View() == EmptySession(limits)
      ensures fresh(shared) && fresh(shared.descs) && fresh(shared.pipes)
    {
      shared := new SharedState(limits);
      procs := [];
      exitStatus := None;
    }

    // ----- starting ----------------------------------------------------------------------

    /** A process that could not be started gives back the descriptors it was handed. */
    method Abandon(spawn: Spawn)
      modifies shared.descs, shared.pipes
      ensures View() == Abandoned(old(View()), spawn)
    {
      var fds := new FdTable(spawn.task.fds);
      shared.ReleaseFds(fds);
    }

    method Start(spawn: Spawn, launch: Launch) returns (ok: bool)
      modifies this, shared, shared.descs, shared.pipes
      ensures (View(), ok) == Machine.Start(old(View()), spawn, launch)
    {
      var ctx := FreshCtx(spawn);
      match launch
      case NoProgram =>
        Abandon(spawn);
        return false;
      case HostCommand(readsStdin) =>
        procs := procs + [Proc(ctx, NO_INST, Host(readsStdin, spawn.argv, spawn.envp, Reading([])), Running, 0)];
        return true;
      case GuestFails =>
        Abandon(spawn);
        return false;
      case GuestRuns(_, grows) =>
        var base := launch.Size();
        var charge := AddU64(base, ASYNCIFY_PAGES * PAGE);
        var charged := shared.ChargeMemory(charge);
        if !charged {
          Abandon(spawn);
          return false;
        }
        if !grows {
          shared.ReleaseMemory(charge);
          Abandon(spawn);
          return false;
        }
        procs := procs + [Proc(ctx, Inst(base + ASYNCIFY_PAGES * PAGE, base, []), Guest, Running, charge)];
        ok := true;
    }

    /** One standard stream. */
    method AddStream(fds: FdTable, d: Desc) returns (ok: bool)
      modifies fds, shared.descs
      ensures (shared.View(), fds.slots, ok) == Machine.AddStream(old(shared.View()), old(fds.slots), d)
    {
      var key := shared.descs.Insert(d, shared.limits.openFiles * 4);
      if key.None? {
        return false;
      }
      var _ := fds.Alloc(Fd(key.value, false), 0, shared.limits.openFiles);
      ok := true;
    }

    /** The first process, on its three streams. */
    method SpawnFirst(program: nat, exe: string, argv: seq<seq<byte>>, envp: seq<seq<byte>>, cwd: string,
      launch: Launch)
      returns (ok: bool)
      requires View() == EmptySession(shared.limits)
      modifies this, shared, shared.descs, shared.pipes
      ensures var begun := Machine.SpawnFirst(shared.limits, program, exe, argv, envp, cwd, launch);
        ok == begun.Some? && (ok ==> View() == begun.value)
    {
      hide Machine.Start, Machine.AddStream;
      var fds := new FdTable([]);
      ok := AddStream(fds, Stream(Stdin, ReadOnly));
      if !ok { return; }
      ok := AddStream(fds, Stream(Stdout(1), WriteOnly));
      if !ok { return; }
      ok := AddStream(fds, Stream(Stdout(2), WriteOnly));
      if !ok { return; }
      shared.nextPid := 2;
      shared.table := [NewRecord(1, 0, 1, 1)];
      ok := Start(Spawn(FirstTask(fds.slots, cwd), program, exe, argv, envp), launch);
    }

    // ----- dying -------------------------------------------------------------------------

    method EndTask(task: Task, status: int)
      modifies shared, shared.descs, shared.pipes
      ensures View() == old(View()).(sh := TaskEnds(old(View()).sh, task, status))
    {
      var fds := new FdTable(task.fds);
      shared.ReleaseFds(fds);
      shared.SetExit(task.pid, status);
    }

    /** Tear a dead process down: what it was charged, the vfork children inside it, itself. */
    method FinishProcess(i: nat, status: int)
      requires i < |procs|
      modifies this, shared, shared.descs, shared.pipes
      ensures View() == Machine.FinishProcess(old(View()), i, status)
    {
      hide TaskEnds;
      var p := procs[i];
      procs := procs[..i] + procs[i + 1..];
      shared.ReleaseMemory(AddU64(p.charged, p.ctx.exec.grown));
      ghost var paid := shared.View();
      var task, stack := p.ctx.task, p.ctx.vforkStack;
      while |stack| > 0
        invariant StackEnds(shared.View(), task, stack, status) == StackEnds(paid, p.ctx.task, p.ctx.vforkStack, status)
        invariant procs == Dropped(old(procs), i) && exitStatus == old(exitStatus)
        invariant OwnPid(p.ctx) == if |stack| > 0 then stack[0].pid else task.pid
        decreases |stack|
      {
        var child := task;
        task, stack := stack[|stack| - 1], stack[..|stack| - 1];
        EndTask(child, StatusSignaled(SIGKILL));
      }
      EndTask(task, status);
      if task.pid == 1 || |procs| == 0 {
        exitStatus := FirstStatus(exitStatus, status);
      }
    }

    method KillAll(status: int)
      modifies this, shared, shared.descs, shared.pipes
      ensures View() == Machine.KillAll(old(View()), status)
    {
      hide Machine.FinishProcess;
      while |procs| > 0
        invariant Machine.KillAll(View(), status) == Machine.KillAll(old(View()), status)
        decreases |procs|
      {
        OneFewer(View(), 0, status);
        FinishProcess(0, status);
      }
      exitStatus := FirstStatus(exitStatus, status);
    }

    // ----- replacing ---------------------------------------------------------------------

    /** Swap the instance in place, keeping the place in the list. */
    method ReplaceInstance(i: nat, launch: Launch)
      requires i < |procs| && procs[i].ctx.execRequest.Some?
      modifies this, shared, shared.descs, shared.pipes
      ensures View() == Machine.ReplaceInstance(old(View()), i, launch)
    {
      hide Machine.Start, AddU64;
      var p := procs[i];
      var spawn := p.ctx.execRequest.value;
      procs := procs[..i] + procs[i + 1..];
      shared.ReleaseMemory(AddU64(p.charged, p.ctx.exec.grown));
      ghost var freed := View();
      assert procs == Dropped(old(procs), i);
      var ok := Start(spawn, launch);
      if ok && |procs| > 0 {
        var n := |procs| - 1;
        var at := Min(i, n);
        procs := procs[..at] + [procs[n]] + procs[at..n];
      } else {
        shared.SetExit(spawn.task.pid, StatusExited(126));
      }
    }

    /** The oldest pending spawn gets an instance, or is reported as a failed exec. */
    method StartNext(launch: Launch)
      requires |shared.spawn| > 0
      modifies this, shared, shared.descs, shared.pipes
      ensures View() == Machine.StartNext(old(View()), launch)
    {
      hide Machine.Start;
      var s := shared.spawn[0];
      shared.spawn := shared.spawn[1..];
      var ok := Start(s, launch);
      if !ok {
        shared.SetExit(s.task.pid, StatusExited(126));
      }
    }

    // ----- one process's turn ------------------------------------------------------------

    /** Serve a call of process `i`, first attempt or retry. */
    method Serve(i: nat, call: Call, now: nat)
      requires i < |procs|
      modifies this, shared, shared.descs, shared.pipes
      ensures View() == Machine.Serve(old(View()), i, call, now)
    {
      hide Syscalls.Dispatch, Machine.FinishProcess;
      var p := procs[i];
      var c := new Context(shared, p.ctx, p.inst);
      assert c.View() == Cpu(shared.View(), p.ctx, p.inst);
      var a := c.Dispatch(call, now);
      var ctx := Ctx(c.task, c.vforkStack, c.execRequest, c.exec);
      procs := procs[i := p.(ctx := ctx, inst := c.inst, resume := if a.Block? then BlockedIn(call) else Running)];
      if a.Exits? {
        FinishProcess(i, a.status);
      }
    }

    /** The guest asks for its next signal. */
    method Fetch(i: nat)
      requires i < |procs|
      modifies this, shared, shared.descs, shared.pipes
      ensures View() == Machine.Fetch(old(View()), i)
    {
      hide NextSignal, Machine.FinishProcess;
      var p := procs[i];
      var pid := p.ctx.task.pid;
      var r := shared.Find(pid);
      var (d, left, t) := NextSignal(if r.Some? then r.value.pending else {}, p.ctx.task);
      if r.Some? {
        shared.Put(pid, r.value.(pending := left));
      }
      var exec := p.ctx.exec;
      if d.NoSignal? && exec.hasFlag {
        exec := exec.(flag := false);
      }
      procs := procs[i := p.(ctx := p.ctx.(task := t, exec := exec))];
      if d.Fatal? {
        FinishProcess(i, d.status);
      }
    }

    /** Read descriptor 0 chunk by chunk until it ends, fails or has to wait. */
    method Drain(t: Task, buffer: seq<byte>, vfs: seq<Vfs>) returns (drain: Drain, all: seq<byte>)
      modifies shared, shared.descs, shared.pipes
      ensures (drain, all, shared.View()) == DrainStdin(old(shared.View()), t, buffer, vfs)
      ensures procs == old(procs)
    {
      all := buffer;
      var i := 0;
      while i < |vfs|
        invariant i <= |vfs|
        invariant DrainStdin(shared.View(), t, all, vfs[i..]) == DrainStdin(old(shared.View()), t, buffer, vfs)
      {
        assert vfs[i..][1..] == vfs[i + 1..];
        var got := shared.ReadBytes(t, 0, CHUNK, vfs[i]);
        match got {
          case Got(bytes) =>
            if |bytes| == 0 {
              return Done, all;
            }
            all := all + bytes;
          case ReadWaits => return WantsMore, all;
          case NoRead(_) => return Done, all;
        }
        i := i + 1;
      }
      drain := Endless;
    }

    /** Write what is left of one stream. */
    method Flush(t: Task, fd: int, bytes: seq<byte>, from: nat, vfs: seq<Vfs>) returns (f: Flush, done: nat)
      requires from <= |bytes|
      modifies shared, shared.descs, shared.pipes
      ensures (f, done, shared.View()) == FlushTo(old(shared.View()), t, fd, bytes, from, vfs, 0)
      ensures done <= |bytes|
      ensures procs == old(procs)
    {
      done := from;
      var i := 0;
      while done < |bytes|
        invariant done <= |bytes|
        invariant FlushTo(shared.View(), t, fd, bytes, done, vfs, i) ==
          FlushTo(old(shared.View()), t, fd, bytes, from, vfs, 0)
        decreases |bytes| - done
      {
        var put := shared.WriteBytes(t, fd, bytes[done..], VfsAt(vfs, i));
        match put {
          case Put(n) =>
            if n == 0 {
              return Through, done;
            }
            done := done + n;
          case WriteWaits => return Jammed, done;
          case NoWrite(_) => return Through, done;
        }
        i := i + 1;
      }
      f := Through;
    }

    /** Both streams of a host command that has run. */
    method FlushStreams(t: Task, ph: Phase, o: HostOracle) returns (step: HostStep, phase: Phase)
      requires ph.Flushing? && PhaseOk(ph)
      modifies shared, shared.descs, shared.pipes
      ensures (step, phase, shared.View()) == FlushBoth(old(shared.View()), t, ph, o.outs, o.errs)
      ensures procs == old(procs)
    {
      hide FlushTo;
      phase := ph;
      var f, n := Flush(t, 1, ph.out, ph.outDone, o.outs);
      phase := phase.(outDone := n);
      if f.Jammed? {
        return Stuck, phase;
      }
      f, n := Flush(t, 2, ph.err, ph.errDone, o.errs);
      phase := phase.(errDone := n);
      if f.Jammed? {
        return Stuck, phase;
      }
      step := EndedWith(ph.status);
    }

    /** One turn of a host command. */
    method StepHost(i: nat, o: HostOracle)
      requires i < |procs| && procs[i].body.Host? && PhaseOk(procs[i].body.phase)
      requires HostSteps.StepHost(shared.View(), procs[i].ctx.task, procs[i].body.readsStdin,
        procs[i].body.phase, o).Some?
      modifies this, shared, shared.descs, shared.pipes
      ensures View() == HostTurn(old(View()), i, o)
    {
      hide Machine.FinishProcess, DrainStdin, FlushBoth;
      var p := procs[i];
      var t := p.ctx.task;
      var phase := p.body.phase;
      if phase.Reading? {
        var all := phase.buffer;
        if p.body.readsStdin {
          var drain;
          drain, all := Drain(t, all, o.ins);
          if drain.WantsMore? {
            procs := procs[i := p.(body := p.body.(phase := Reading(all)))];
            return;
          }
        }
        if o.answer.NotYet? {
          shared.hostPending := true;
          procs := procs[i := p.(body := p.body.(phase := Reading(all)))];
          return;
        }
        phase := Started(o.answer);
      }
      var step;
      step, phase := FlushStreams(t, phase, o);
      procs := procs[i := p.(body := p.body.(phase := phase))];
      if step.EndedWith? {
        FinishProcess(i, step.status);
      }
    }

    // ----- the verdict -------------------------------------------------------------------

    /** Nothing ran: what the caller has to do about it. */
    method WhyIdle() returns (why: Idle)
      modifies shared
      ensures (why, shared.View()) == Deadlock.WhyIdle(old(shared.View()))
    {
      if shared.vfsPending {
        shared.vfsPending := false;
        return OnVfs;
      }
      if shared.hostPending {
        shared.hostPending := false;
        return OnHost;
      }
      var earliest: Option<nat> := None;
      var i := 0;
      while i < |shared.table|
        invariant i <= |shared.table| && earliest == Earliest(shared.table[..i])
        invariant shared.View() == old(shared.View())
      {
        assert shared.table[..i + 1][..i] == shared.table[..i];
        var when := shared.table[i].wakeAt;
        if when.Some? && !(earliest.Some? && earliest.value <= when.value) {
          earliest := when;
        }
        i := i + 1;
      }
      assert shared.table[..i] == shared.table;
      if earliest.Some? {
        return Until(earliest.value);
      }
      why := if shared.stdin.wanted && !shared.stdin.closed then OnStdin else Deadlocked;
    }

    /** One pass over processes that do nothing but retry: the loop's index and the list agree. */
    method RetryPass(tries: seq<Attempt>)
      requires |tries| == |procs| && AllStuck(View(), tries, |tries|)
      modifies this, shared, shared.descs, shared.pipes
      ensures View() == PassTo(old(View()), tries, |tries|)
      ensures NoMapping(tries) ==> forall i :: 0 <= i < |tries| ==> StillWaits(View(), i, tries[i])
    {
      hide Machine.Serve, AllStuck, StillWaits, Idles;
      ghost var k := View();
      var i := 0;
      while i < |procs|
        invariant i <= |tries| == |procs|
        invariant View() == PassTo(k, tries, i)
      {
        StuckSoFar(k, tries, i + 1, |tries|);
        PassKeepsList(k, tries, i + 1);
        Serve(i, tries[i].call, tries[i].now);
        i := i + 1;
      }
      if NoMapping(tries) {
        PassLeavesAllBlocked(k, tries, |tries|);
      }
    }

    // ----- any sequence of moves ---------------------------------------------------------

    /** One move, if the scheduler could make it now. */
    method Move(m: Move)
      requires m.HostMove? && Enabled(View(), m) ==>
        var b := procs[m.i].body;
        HostSteps.StepHost(shared.View(), procs[m.i].ctx.task, b.readsStdin, b.phase, m.oracle).Some?
      modifies this, shared, shared.descs, shared.pipes
      ensures View() == Step(old(View()), m)
    {
      hide Machine.Serve, Machine.ReplaceInstance, Machine.Fetch, Machine.FinishProcess, Machine.StartNext, HostTurn,
           Machine.KillAll;
      var settled := Quiet();
      match m
      case Syscall(i, call, now) =>
        if settled && i < |procs| && procs[i].body.Guest? && procs[i].resume.Running? { Serve(i, call, now); }
      case Retry(i, call, now) =>
        if settled && i < |procs| && procs[i].body.Guest? && procs[i].resume.BlockedIn?
          && Retries(procs[i].resume.call, call) {
          Serve(i, call, now);
        }
      case Replace(i, launch) =>
        if i < |procs| && procs[i].ctx.execRequest.Some? { ReplaceInstance(i, launch); }
      case FetchSignal(i) =>
        if settled && i < |procs| && procs[i].body.Guest? && procs[i].resume.Running? { Fetch(i); }
      case Init(i) =>
        if settled && i < |procs| && procs[i].body.Guest? && procs[i].resume.Running? {
          procs := procs[i := procs[i].(ctx := procs[i].ctx.(exec := procs[i].ctx.exec.(hasFlag := true)))];
        }
      case Gone(i, status, complaint) =>
        if settled && i < |procs| && procs[i].body.Guest? && procs[i].resume.Running? {
          shared.WriteOutput(2, complaint);
          FinishProcess(i, status);
        }
      case StartSpawn(launch) =>
        if settled && |shared.spawn| > 0 { StartNext(launch); }
      case HostMove(i, o) =>
        if settled && i < |procs| && procs[i].body.Host? && PhaseOk(procs[i].body.phase) { StepHost(i, o); }
      case WallClock(status) =>
        if settled && |shared.spawn| == 0 { KillAll(status); }
      case Feed(bytes) =>
        if settled { shared.stdin := shared.stdin.(data := shared.stdin.data + bytes, wanted := false); }
      case CloseStdin =>
        if settled { shared.stdin := shared.stdin.(closed := true, wanted := false); }
    }

    /** Whether no process is about to be replaced. */
    method Quiet() returns (yes: bool)
      ensures yes == Settled(View())
    {
      yes := true;
      var i := 0;
      while i < |procs|
        invariant i <= |procs| && (yes <==> forall j :: 0 <= j < i ==> procs[j].ctx.execRequest.None?)
      {
        if procs[i].ctx.execRequest.Some? {
          yes := false;
        }
        i := i + 1;
      }
    }
  }

  lemma OneFewer(k: Session, i: nat, status: int)
    requires i < |k.procs|
    ensures |Machine.FinishProcess(k, i, status).procs| == |k.procs| - 1
  {
    hide StackEnds;
  }

  lemma {:induction false} StuckSoFar(k: Session, tries: seq<Attempt>, n: nat, m: nat)
    requires n <= m <= |k.procs| == |tries| && AllStuck(k, tries, m)
    ensures AllStuck(k, tries, n)
    decreases m
  {
    if n < m {
      StuckSoFar(k, tries, n, m - 1);
    }
  }
}
