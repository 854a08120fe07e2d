/** The syscall handlers as they run: one process's context, changed in place together with the
    shared state it reaches. Each handler is tied to the function that specifies it. */
module Handlers {
  import opened Base
  import opened Slabs
  import opened Fds
  import opened Kernel
  import opened Syscalls
  import opened SharedStates

  class Context {
    const shared: SharedState
    var task: Task
    var vforkStack: seq<Task>
    var execRequest: Option<Spawn>
    var exec: Exec
    var inst: Inst

    ghost function View(): Cpu
      reads this, shared, shared.descs, shared.pipes
    {
      Cpu(shared.View(), Ctx(task, vforkStack, execRequest, exec), inst)
    }

    constructor (shared: SharedState, ctx: Ctx, inst: Inst)
      ensures this.shared == shared && View() == Cpu(shared.View(), ctx, inst)
    {
      this.shared := shared;
      this.inst := inst;
      task, vforkStack, execRequest, exec := ctx.task, ctx.vforkStack, ctx.execRequest, ctx.exec;
    }

    // ----- process lifetime --------------------------------------------------------------

    /** Bring the innermost vfork parent back; the child's task is handed over. */
    method PopParent() returns (child: Task)
      requires |vforkStack| > 0
      modifies this`task, this`vforkStack
      ensures child == old(task)
      ensures task == old(vforkStack)[|old(vforkStack)| - 1] && vforkStack == old(vforkStack)[..|old(vforkStack)| - 1]
    {
      child := task;
      task := vforkStack[|vforkStack| - 1];
      vforkStack := vforkStack[..|vforkStack| - 1];
    }

    method Exit(code: int) returns (a: Answer)
      modifies this, shared, shared.descs, shared.pipes
      ensures (a, View()) == DoExit(old(View()), code)
    {
      if |vforkStack| == 0 {
        return Exits(StatusExited(code));
      }
      var child := PopParent();
      var fds := new FdTable(child.fds);
      shared.ReleaseFds(fds);
      shared.SetExit(child.pid, StatusExited(code));
      a := Value(child.pid);
    }

    method Clone(vforkShape: bool) returns (a: Answer)
      modifies this, shared, shared.descs, shared.pipes
      ensures (a, View()) == DoClone(old(View()), vforkShape)
    {
      if !vforkShape {
        return Fail(NOSYS);
      }
      var pid := shared.ForkRecord(task);
      if pid.None? {
        return Fail(AGAIN);
      }
      var fds := new FdTable(task.fds);
      var copy := fds.Duplicate(shared.descs);
      var parent := task;
      task := ChildOf(parent, pid.value).(fds := copy.slots);
      vforkStack := vforkStack + [parent];
      a := Value(0);
    }

    method Execve(program: nat, exe: string, argv: seq<seq<byte>>, envp: seq<seq<byte>>) returns (a: Answer)
      modifies this, shared, shared.descs, shared.pipes
      ensures (a, View()) == DoExecve(old(View()), program, exe, argv, envp)
    {
      var fds := new FdTable(task.fds);
      var closing := fds.DrainCloexec();
      task := task.(fds := fds.slots);
      shared.ReleaseAll(closing);
      if |vforkStack| > 0 {
        var child := PopParent();
        shared.spawn := shared.spawn + [Spawn(child, program, exe, argv, envp)];
        return Value(child.pid);
      }
      execRequest := Some(Spawn(task, program, exe, argv, envp));
      task := NewTask(0, []);
      a := Execs;
    }

    method Wait4(which: int, noHang: bool, copyOk: bool) returns (a: Answer)
      modifies this, shared
      ensures (a, View()) == DoWait4(old(View()), which, noHang, copyOk)
    {
      var pid := task.pid;
      var me := shared.Find(pid);
      var pgid := if me.Some? then me.value.pgid else pid;
      var table := shared.table;
      var candidates, i := 0, 0;
      var found: Option<Record> := None;
      while i < |table| && found.None?
        invariant i <= |table| && shared.table == table
        invariant candidates > 0 <==> exists j :: 0 <= j < i && Waits(table[j], pid, pgid, which)
        invariant FirstDead(table, pid, pgid, which) == if found.Some? then found
          else FirstDead(table[i..], pid, pgid, which)
        invariant found.Some? ==> candidates > 0
      {
        if Waits(table[i], pid, pgid, which) {
          candidates := candidates + 1;
          if table[i].exit.Some? {
            found := Some(table[i]);
          }
        }
        i := i + 1;
      }
      if candidates == 0 {
        return Fail(CHILD);
      }
      if found.None? {
        return if noHang then Value(0) else Block;
      }
      shared.Forget(found.value.pid);
      a := if copyOk then Value(found.value.pid) else Fail(FAULT);
    }

    method Setpgid(target: int, group: int) returns (a: Answer)
      modifies this, shared
      ensures (a, View()) == DoSetpgid(old(View()), target, group)
    {
      var who := if target == 0 then task.pid else target;
      var to := if group == 0 then who else group;
      var r := shared.Find(who);
      if r.None? {
        return Fail(SRCH);
      }
      shared.Put(who, r.value.(pgid := to));
      a := Value(0);
    }

    method Setsid() returns (a: Answer)
      modifies this, shared
      ensures (a, View()) == DoSetsid(old(View()))
    {
      var r := shared.Find(task.pid);
      if r.None? {
        return Fail(SRCH);
      }
      shared.Put(task.pid, r.value.(pgid := task.pid, sid := task.pid));
      a := Value(task.pid);
    }

    method Kill(target: int, signal: int) returns (a: Answer)
      modifies this, shared
      ensures (a, View()) == DoKill(old(View()), target, signal)
    {
      if signal < 0 || signal >= NSIG {
        return Fail(INVAL);
      }
      var me := task.pid;
      var mine := shared.Find(me);
      var group := if mine.Some? then mine.value.pgid else me;
      ghost var before := shared.table;
      var delivered := false;
      var i := 0;
      while i < |shared.table|
        invariant i <= |shared.table| == |before|
        invariant forall j :: 0 <= j < i ==> shared.table[j] == Signalled(before[j], target, signal, me, group)
        invariant forall j :: i <= j < |before| ==> shared.table[j] == before[j]
        invariant delivered <==> exists j :: 0 <= j < i && Targets(before[j], target, me, group)
        invariant shared.View() == old(shared.View()).(table := shared.table)
          && View() == old(View()).(sh := shared.View())
      {
        if Targets(shared.table[i], target, me, group) {
          delivered := true;
          if signal != 0 {
            shared.table := shared.table[i := RaisedOn(shared.table[i], signal).(wakeAt := None)];
          }
        }
        i := i + 1;
      }
      if delivered {
        assert shared.table == SignalTable(before, target, signal, me, group);
        return Value(0);
      }
      assert shared.table == before;
      a := Fail(SRCH);
    }

    // ----- signals -----------------------------------------------------------------------

    method Sigaction(signal: int, action: Option<SigAction>, copyOk: bool) returns (a: Answer)
      modifies this
      ensures (a, View()) == DoSigaction(old(View()), signal, action, copyOk)
    {
      if signal <= 0 || signal >= NSIG {
        return Fail(INVAL);
      }
      if !copyOk {
        return Fail(FAULT);
      }
      if action.Some? {
        if signal == SIGKILL || signal == SIGSTOP {
          return Fail(INVAL);
        }
        if signal < |task.sigact| {
          task := task.(sigact := task.sigact[signal := action.value]);
        }
      }
      a := Value(0);
    }

    method Sigprocmask(how: int, sigs: Option<set<int>>, copyOk: bool) returns (a: Answer)
      modifies this
      ensures (a, View()) == DoSigprocmask(old(View()), how, sigs, copyOk)
    {
      if sigs.Some? {
        var s := sigs.value - {SIGKILL, SIGSTOP};
        if how == 0 {
          task := task.(sigmask := task.sigmask + s);
        } else if how == 1 {
          task := task.(sigmask := task.sigmask - s);
        } else if how == 2 {
          task := task.(sigmask := s);
        } else {
          return Fail(INVAL);
        }
      }
      a := if copyOk then Value(0) else Fail(FAULT);
    }

    /** Whether a signal that would do something is waiting for this process. */
    method SignalWaits() returns (yes: bool)
      ensures yes == Interrupted(shared.View(), View().ctx)
    {
      var r := shared.Find(task.pid);
      var pending := if r.Some? then r.value.pending else {};
      yes := Deliverable(pending, task.sigmask, task) != {};
    }

    method Sigsuspend(mask: set<int>) returns (a: Answer)
      modifies this
      ensures (a, View()) == DoSigsuspend(old(View()), mask)
    {
      if exec.maskToRestore.None? {
        exec := exec.(maskToRestore := Some(task.sigmask));
      }
      task := task.(sigmask := mask);
      var waiting := SignalWaits();
      a := if waiting then Fail(INTR) else Block;
    }

    // ----- time --------------------------------------------------------------------------

    method Deadline(after: nat, now: nat) returns (until: nat)
      modifies this`exec
      ensures until == DeadlineOf(old(exec), after, now) && exec == old(exec).(deadline := Some(until))
    {
      if exec.deadline.Some? {
        return exec.deadline.value;
      }
      until := if now + after <= INSTANT_MAX then now + after else now;
      exec := exec.(deadline := Some(until));
    }

    method Nanosleep(after: nat, now: nat) returns (a: Answer)
      modifies this, shared
      ensures (a, View()) == DoNanosleep(old(View()), after, now)
    {
      var until := Deadline(after, now);
      if now >= until {
        return Value(0);
      }
      shared.WakeAt(task.pid, Some(until));
      a := Block;
    }

    /** The entries looked at, in order, and how many are ready. */
    method CountReady(polls: seq<PollFd>, select: bool) returns (ready: nat)
      ensures ready == ReadyCount(shared.View(), task, polls, select)
    {
      ready := 0;
      var i := 0;
      while i < |polls|
        invariant i <= |polls|
        invariant ready + ReadyCount(shared.View(), task, polls[i..], select) ==
          ReadyCount(shared.View(), task, polls, select)
      {
        var r := Look(polls[i]);
        var before := ready;
        if select {
          if polls[i].read && (r.input || r.hup || r.err) { ready := ready + 1; }
          if polls[i].write && (r.output || r.err) { ready := ready + 1; }
        } else if r.Any() {
          ready := ready + 1;
        }
        assert ready - before == PollScore(shared.View(), task, polls[i], select);
        assert polls[i..][1..] == polls[i + 1..];
        i := i + 1;
      }
    }

    method Look(p: PollFd) returns (r: Ready)
      ensures r == PollFdReady(shared.View(), task, p)
    {
      if p.fd < 0 {
        return NOT_READY;
      }
      var entry := Lookup(task.fds, p.fd);
      if entry.Err? {
        return NOT_READY.(nval := true);
      }
      var d := shared.descs.Get(entry.value.desc);
      if d.None? {
        return NOT_READY.(nval := true);
      }
      r := NOT_READY;
      match d.value.kind
      case PipeRead(k) =>
        var q := shared.pipes.Get(k);
        if q.Some? {
          if |q.value.data| > 0 { r := r.(input := p.read); } else if q.value.writers == 0 { r := r.(hup := true); }
        }
      case PipeWrite(k) =>
        var q := shared.pipes.Get(k);
        if q.Some? {
          if q.value.readers == 0 { r := r.(err := true); } else if q.value.Room() > 0 { r := r.(output := p.write); }
        }
      case Other(Stdin) => r := r.(input := p.read && (|shared.stdin.data| > 0 || shared.stdin.closed));
      case Other(Stdout(_)) => r := r.(output := p.write);
      case Other(_) => r := r.(input := p.read, output := p.write);
    }

    method Poll(polls: seq<PollFd>, timeout: Option<nat>, copyOk: bool, select: bool, now: nat) returns (a: Answer)
      modifies this, shared
      ensures (a, View()) == DoPoll(old(View()), polls, timeout, copyOk, select, now)
    {
      var until: Option<nat> := None;
      if timeout.Some? {
        var when := Deadline(timeout.value, now);
        until := Some(when);
      }
      var ready := CountReady(polls[..Min(|polls|, POLL_MAX)], select);
      if ready == 0 {
        if until.Some? {
          if now < until.value {
            shared.WakeAt(task.pid, until);
            return Block;
          }
        } else {
          if !select && IsOpen(task.fds, 0) {
            shared.stdin := shared.stdin.(wanted := true);
          }
          return Block;
        }
      }
      a := if copyOk then Value(ready) else Fail(FAULT);
    }

    // ----- memory ------------------------------------------------------------------------

    /** The instance's memory has grown: remember by how much. */
    method Grew(bytes: nat)
      modifies this`exec, this`inst
      ensures exec == old(exec).(grown := AddU64(old(exec).grown, bytes))
        && inst == old(inst).(size := old(inst).size + bytes)
    {
      exec := exec.(grown := AddU64(exec.grown, bytes));
      inst := inst.(size := inst.size + bytes);
    }

    method Brk(request: nat, grows: bool) returns (a: Answer)
      modifies this, shared
      ensures (a, View()) == DoBrk(old(View()), request, grows)
    {
      var current := inst.size;
      if request <= current || request > shared.limits.memoryPerProcess {
        return Value(current);
      }
      var bytes := Pages(request - current) * PAGE;
      var charged := shared.ChargeMemory(bytes);
      if !charged {
        return Value(current);
      }
      if grows {
        Grew(bytes);
        return Value(request);
      }
      shared.ReleaseMemory(bytes);
      a := Value(current);
    }

    method Mmap(length: nat, fixed: bool, anonymous: bool, fd: int, grows: bool, vfs: Vfs) returns (a: Answer)
      modifies this, shared
      ensures (a, View()) == DoMmap(old(View()), length, fixed, anonymous, fd, grows, vfs)
    {
      if length == 0 {
        return Fail(INVAL);
      }
      if fixed {
        return Fail(NOMEM);
      }
      var bytes := Pages(length) * PAGE;
      if AddU64(inst.size, bytes) > shared.limits.memoryPerProcess {
        return Fail(NOMEM);
      }
      var charged := shared.ChargeMemory(bytes);
      if !charged {
        return Fail(NOMEM);
      }
      if !grows {
        shared.ReleaseMemory(bytes);
        return Fail(NOMEM);
      }
      var at := inst.size;
      Grew(bytes);
      inst := inst.(maps := inst.maps + [(at, at + bytes)]);
      if anonymous {
        return Value(at);
      }
      a := ReadMapped(at, fd, vfs);
    }

    method ReadMapped(at: nat, fd: int, vfs: Vfs) returns (a: Answer)
      modifies shared
      ensures (a, View()) == MapFile(old(View()), at, fd, vfs)
    {
      var entry := Lookup(task.fds, fd);
      if entry.Err? {
        return Fail(entry.error);
      }
      var d := shared.descs.Get(entry.value.desc);
      if d.None? {
        return Fail(BADF);
      }
      if !(d.value.kind.Other? && d.value.kind.plain.File?) {
        return Fail(NODEV);
      }
      if vfs.Fine? {
        return Value(at);
      }
      a := Fault(vfs.error);
    }

    /** A filesystem's `AGAIN` means wait. */
    method Fault(e: Errno) returns (a: Answer)
      modifies shared`vfsPending
      ensures (a, View()) == VfsFault(old(View()), e)
    {
      if e == AGAIN {
        shared.vfsPending := true;
        return Block;
      }
      a := Fail(e);
    }
  
    // ----- descriptors -------------------------------------------------------------------

    method Close(fd: int) returns (a: Answer)
      modifies this, shared.descs, shared.pipes
      ensures (a, View()) == DoClose(old(View()), fd)
    {
      var fds := new FdTable(task.fds);
      var r := fds.Take(fd);
      if r.Err? {
        return Fail(r.error);
      }
      task := task.(fds := fds.slots);
      shared.ReleaseDesc(r.value.desc);
      a := Value(0);
    }

    /** One more reference to a description, before there is a slot for it. */
    method Refer(key: nat)
      modifies shared.descs
      ensures View() == old(View()).(sh := old(View()).sh.(descs := BumpedOne(old(View()).sh.descs, key)))
    {
      var d := shared.descs.Get(key);
      if d.Some? {
        shared.descs.Set(key, d.value.(refs := AddU32(d.value.refs, 1)));
      }
    }

    method DupAt(fd: int, min: nat, cloexec: bool) returns (a: Answer)
      modifies this, shared.descs
      ensures (a, View()) == DoDupAt(old(View()), fd, min, cloexec)
    {
      var entry := Lookup(task.fds, fd);
      if entry.Err? {
        return Fail(entry.error);
      }
      Refer(entry.value.desc);
      var fds := new FdTable(task.fds);
      var r := fds.Alloc(Fd(entry.value.desc, cloexec), min, shared.limits.openFiles);
      if r.Err? {
        return Fail(r.error);
      }
      task := task.(fds := fds.slots);
      a := Value(r.value);
    }

    method Dup3(from: int, to: int, cloexec: bool) returns (a: Answer)
      modifies this, shared.descs, shared.pipes
      ensures (a, View()) == DoDup3(old(View()), from, to, cloexec)
    {
      if from == to {
        return Fail(INVAL);
      }
      var entry := Lookup(task.fds, from);
      if entry.Err? {
        return Fail(entry.error);
      }
      Refer(entry.value.desc);
      var fds := new FdTable(task.fds);
      var r := fds.Replace(to, Fd(entry.value.desc, cloexec), shared.limits.openFiles);
      if r.Err? {
        return Fail(r.error);
      }
      task := task.(fds := fds.slots);
      if r.value.Some? {
        shared.ReleaseDesc(r.value.value.desc);
      }
      a := Value(to);
    }

    method MarkCloexec(fd: int, on: bool) returns (a: Answer)
      modifies this
      ensures (a, View()) == DoSetCloexec(old(View()), fd, on)
    {
      var fds := new FdTable(task.fds);
      var r := fds.SetCloexec(fd, on);
      task := task.(fds := fds.slots);
      a := ToAnswer(r);
    }

    method SetFlags(fd: int, append: bool, nonblock: bool) returns (a: Answer)
      modifies shared.descs
      ensures (a, View()) == DoSetFlags(old(View()), fd, append, nonblock)
    {
      var entry := Lookup(task.fds, fd);
      if entry.Err? {
        return Fail(entry.error);
      }
      var d := shared.descs.Get(entry.value.desc);
      if d.None? {
        return Fail(BADF);
      }
      shared.descs.Set(entry.value.desc, d.value.(append := append, nonblock := nonblock));
      a := Value(0);
    }

    method Pipe2(cloexec: bool, nonblock: bool, copyOk: bool) returns (a: Answer)
      modifies this, shared, shared.descs, shared.pipes
      ensures (a, View()) == DoPipe2(old(View()), cloexec, nonblock, copyOk)
    {
      var limit := shared.limits.openFiles;
      var p := shared.pipes.Insert(Pipe([], 1, 1), limit);
      if p.None? {
        return Fail(MFILE);
      }
      shared.log := shared.log + [Made(p.value)];
      var r := shared.descs.Insert(ReadEnd(p.value, nonblock), limit * 4);
      if r.None? {
        return Fail(MFILE);
      }
      var w := shared.descs.Insert(WriteEnd(p.value, nonblock), limit * 4);
      if w.None? {
        return Fail(MFILE);
      }
      a := PipeSlots(r.value, w.value, cloexec, copyOk);
    }

    /** Descriptors for both ends, or for neither. */
    method PipeSlots(r: nat, w: nat, cloexec: bool, copyOk: bool) returns (a: Answer)
      modifies this, shared.descs, shared.pipes
      ensures (a, View()) == PipeFds(old(View()), r, w, cloexec, copyOk)
    {
      var limit := shared.limits.openFiles;
      var fds := new FdTable(task.fds);
      var readFd := fds.Alloc(Fd(r, cloexec), 0, limit);
      if readFd.Err? {
        return Fail(readFd.error);
      }
      var writeFd := fds.Alloc(Fd(w, cloexec), 0, limit);
      if writeFd.Err? {
        var back := fds.Take(readFd.value);
        task := task.(fds := fds.slots);
        if back.Ok? {
          shared.ReleaseDesc(back.value.desc);
        }
        return Fail(writeFd.error);
      }
      task := task.(fds := fds.slots);
      a := if copyOk then Value(0) else Fail(FAULT);
    }

    method Open(d: Desc, cloexec: bool) returns (a: Answer)
      modifies this, shared.descs, shared.pipes
      ensures (a, View()) == DoOpen(old(View()), d, cloexec)
    {
      var limit := shared.limits.openFiles;
      var key := shared.descs.Insert(d, limit * 4);
      if key.None? {
        return Fail(MFILE);
      }
      var fds := new FdTable(task.fds);
      var r := fds.Alloc(Fd(key.value, cloexec), 0, limit);
      if r.Err? {
        shared.ReleaseDesc(key.value);
        return Fail(r.error);
      }
      task := task.(fds := fds.slots);
      a := Value(r.value);
    }

    // ----- bytes -------------------------------------------------------------------------

    method Read(fd: int, len: nat, copyOk: bool, vfs: Vfs) returns (a: Answer)
      modifies shared, shared.descs, shared.pipes
      ensures (a, View()) == DoRead(old(View()), fd, len, copyOk, vfs)
    {
      if len == 0 {
        return Value(0);
      }
      var got := shared.ReadBytes(task, fd, Min(len, STAGING_MAX), vfs);
      match got
      case Got(bytes) => a := if copyOk then Value(|bytes|) else Fail(FAULT);
      case NoRead(e) => a := Fail(e);
      case ReadWaits => a := Block;
    }

    method Write(fd: int, decodes: bool, data: seq<byte>, vfs: Vfs) returns (a: Answer)
      modifies shared, shared.pipes
      ensures (a, View()) == DoWrite(old(View()), fd, decodes, data, vfs)
    {
      if !decodes {
        return Fail(FAULT);
      }
      var put := shared.WriteBytes(task, fd, data, vfs);
      match put
      case Put(n) => a := Value(n);
      case NoWrite(e) => a := Fail(e);
      case WriteWaits => a := Block;
    }

    /** `readv` and `writev`: element by element, stopping at the first that comes up short. */
    method Vectored(reading: bool, fd: int, iovs: seq<Iov>) returns (a: Answer)
      modifies shared, shared.descs, shared.pipes
      ensures (a, View()) == DoVector(old(View()), reading, fd, iovs, 0, 0)
    {
      hide DoRead, DoWrite;
      var i: nat, total: nat := 0, 0;
      while i < |iovs|
        invariant i <= |iovs|
        invariant DoVector(View(), reading, fd, iovs, i, total) == DoVector(old(View()), reading, fd, iovs, 0, 0)
      {
        var v := iovs[i];
        if !v.decodes {
          return Fail(FAULT);
        }
        if IovLen(reading, v) > 0 {
          var moved;
          if reading {
            moved := Read(fd, v.len, v.copyOk, v.vfs);
          } else {
            moved := Write(fd, v.copyOk, v.data, v.vfs);
          }
          if !moved.Value? {
            return if total > 0 then Value(total) else moved;
          }
          total := Min(total + Max(moved.v, 0), I32_MAX);
          if moved.v < IovLen(reading, v) {
            return Value(total);
          }
        }
        i := i + 1;
      }
      a := Value(total);
    }

    // ----- the table ---------------------------------------------------------------------

    method ServeLife(call: LifeCall) returns (a: Answer)
      modifies this, shared, shared.descs, shared.pipes
      ensures (a, View()) == HandleLife(old(View()), call)
    {
      hide DoExit, DoClone, DoExecve, DoWait4, DoSetpgid, DoSetsid, DoKill;
      match call
      case ExitCall(code) => a := Exit(code);
      case Clone(shape) => a := Clone(shape);
      case Execve(program, exe, argv, envp) => a := Execve(program, exe, argv, envp);
      case Wait4(which, noHang, copyOk) => a := Wait4(which, noHang, copyOk);
      case Setpgid(target, group) => a := Setpgid(target, group);
      case Setsid => a := Setsid();
      case Kill(target, signal) => a := Kill(target, signal);
    }

    method ServeOwn(call: TaskCall) returns (a: Answer)
      modifies this
      ensures (a, View()) == HandleOwn(old(View()), call)
    {
      hide DoSigaction, DoSigprocmask;
      match call
      case Umask(mask) =>
        a := Value(task.umask);
        task := task.(umask := mask % 512);
      case Chdir(cwd) =>
        task := task.(cwd := cwd);
        a := Value(0);
      case Sigaction(signal, action, copyOk) => a := Sigaction(signal, action, copyOk);
      case Sigprocmask(how, sigs, copyOk) => a := Sigprocmask(how, sigs, copyOk);
    }

    method ServeWait(call: WaitCall, now: nat) returns (a: Answer)
      modifies this, shared
      ensures (a, View()) == HandleWait(old(View()), call, now)
    {
      hide DoSigsuspend, DoNanosleep, DoPoll;
      match call
      case Sigsuspend(mask) => a := Sigsuspend(mask);
      case Nanosleep(after) => a := Nanosleep(after, now);
      case Ppoll(polls, timeout, copyOk) => a := Poll(polls, timeout, copyOk, false, now);
      case Pselect(polls, timeout, copyOk) => a := Poll(polls, timeout, copyOk, true, now);
    }

    method ServeFiles(call: FdCall) returns (a: Answer)
      modifies this, shared, shared.descs, shared.pipes
      ensures (a, View()) == HandleFiles(old(View()), call)
    {
      hide DoClose, DoDupAt, DoDup3, DoSetCloexec, DoSetFlags, DoPipe2, DoOpen;
      match call
      case Close(fd) => a := Close(fd);
      case DupAt(fd, min, cloexec) => a := DupAt(fd, Max(min, 0), cloexec);
      case Dup3(from, to, cloexec) => a := Dup3(from, to, cloexec);
      case SetCloexec(fd, on) => a := MarkCloexec(fd, on);
      case SetFlags(fd, append, nonblock) => a := SetFlags(fd, append, nonblock);
      case Pipe2(cloexec, nonblock, copyOk) => a := Pipe2(cloexec, nonblock, copyOk);
      case Open(plain, access, append, nonblock, cloexec) =>
        a := Open(Desc(Other(plain), access, append, nonblock, 1), cloexec);
    }

    method ServeBytes(call: ByteCall) returns (a: Answer)
      modifies shared, shared.descs, shared.pipes
      ensures (a, View()) == HandleBytes(old(View()), call)
    {
      hide DoRead, DoWrite, DoVector;
      match call
      case Read(fd, len, copyOk, vfs) => a := Read(fd, len, copyOk, vfs);
      case Write(fd, decodes, data, vfs) => a := Write(fd, decodes, data, vfs);
      case Readv(fd, iovs) => a := Vectored(true, fd, iovs);
      case Writev(fd, iovs) => a := Vectored(false, fd, iovs);
    }

    method Handle(call: Call, now: nat) returns (a: Answer)
      modifies this, shared, shared.descs, shared.pipes
      ensures (a, View()) == Syscalls.Handle(old(View()), call, now)
    {
      hide HandleLife, HandleOwn, HandleWait, DoBrk, DoMmap, HandleFiles, HandleBytes, VfsFault;
      match call
      case Life(life) => a := ServeLife(life);
      case Own(own) => a := ServeOwn(own);
      case Wait(wait) => a := ServeWait(wait, now);
      case Mem(Brk(request, grows)) => a := Brk(request, grows);
      case Mem(Mmap(length, fixed, anonymous, fd, grows, vfs)) => a := Mmap(length, fixed, anonymous, fd, grows, vfs);
      case Files(files) => a := ServeFiles(files);
      case Bytes(bytes) => a := ServeBytes(bytes);
      case FileCall(Fine(_, count)) => a := Value(count);
      case FileCall(Refuses(e)) => a := Fault(e);
      case Plainly(result) => a := ToAnswer(result);
    }

    /** The call is over. */
    method Finish()
      modifies this`exec, this`task
      ensures View() == Finished(old(View()))
    {
      exec := exec.(deadline := None);
      if exec.maskToRestore.Some? {
        task := task.(sigmask := exec.maskToRestore.value);
        exec := exec.(maskToRestore := None);
      }
      if exec.hasFlag {
        var waiting := SignalWaits();
        exec := exec.(flag := waiting);
      }
    }

    /** Serve one call, or retry it. */
    method Dispatch(call: Call, now: nat) returns (a: Answer)
      modifies this, shared, shared.descs, shared.pipes
      ensures (a, View()) == Syscalls.Dispatch(old(View()), call, now)
    {
      hide Syscalls.Handle, Finished, Interrupted;
      shared.syscalls := AddU64(shared.syscalls, 1);
      assert View() == Counted(old(View()));
      a := Handle(call, now);
      match a
      case Value(_) => Finish();
      case Fail(_) => Finish();
      case Block =>
        var waiting := SignalWaits();
        if waiting {
          Finish();
          a := Fail(INTR);
        }
      case Exits(_) =>
      case Execs =>
    }
  }
}
