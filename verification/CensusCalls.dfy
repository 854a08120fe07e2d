/** Whatever a call does, the living processes of the table are exactly the tasks in the session. */
module CensusCalls {
  import opened Base
  import opened Slabs
  import opened Sums
  import opened Fds
  import opened Kernel
  import opened Syscalls
  import opened References
  import opened CallFrames
  import opened Census

  // ----- whose pids ----------------------------------------------------------------------

  ghost function StackPids(tasks: seq<Task>, x: int): nat {
    Sum(tasks, TaskPid(x))
  }

  ghost function TaskPid(x: int): Task -> nat {
    (t: Task) => Unit(t.pid == x)
  }

  ghost function SpawnPids(spawn: seq<Spawn>, x: int): nat {
    Sum(spawn, QueuedPid(x))
  }

  ghost function QueuedPid(x: int): Spawn -> nat {
    (s: Spawn) => Unit(s.task.pid == x)
  }

  /** Tasks of pid `x` inside one process: suspended under vfork, and running or, once an in-place
      `execve` has taken it, waiting in the exec request. */
  ghost function CtxPids(ctx: Ctx, x: int): nat {
    StackPids(ctx.vforkStack, x)
      + Unit((if ctx.execRequest.Some? then ctx.execRequest.value.task.pid else ctx.task.pid) == x)
  }

  ghost function CpuPids(c: Cpu, x: int): nat {
    CtxPids(c.ctx, x) + SpawnPids(c.sh.spawn, x)
  }

  /** The living pids are the tasks within reach and those `o` counts elsewhere. */
  ghost predicate Owned(c: Cpu, o: int -> nat) {
    && TableOk(c.sh.table, c.sh.nextPid)
    && forall x :: Unit(Alive(c.sh.table, x)) == o(x) + CpuPids(c, x)
  }

  // ----- call by call --------------------------------------------------------------------

  lemma OwnPidAlive(c: Cpu, o: int -> nat)
    requires Owned(c, o) && c.ctx.execRequest.None?
    ensures Alive(c.sh.table, c.ctx.task.pid)
  {
    assert CpuPids(c, c.ctx.task.pid) >= 1;
  }

  lemma ExitOwned(c: Cpu, code: int, o: int -> nat)
    requires Owned(c, o) && c.ctx.execRequest.None?
    ensures Owned(DoExit(c, code).1, o)
  {
    hide ReleaseFds, ExitTable, TableOk;
    if |c.ctx.vforkStack| > 0 {
      OwnPidAlive(c, o);
      ReleaseFdsFrame(c.sh, c.ctx.task.fds);
      ExitKeeps(c.sh.table, c.sh.nextPid, c.ctx.task.pid, StatusExited(code));
    }
  }

  lemma CloneOwned(c: Cpu, shape: bool, o: int -> nat)
    requires Owned(c, o) && c.ctx.execRequest.None? && c.sh.nextPid < I32_MAX
    ensures Owned(DoClone(c, shape).1, o)
  {
    hide Bumped, Drained, TableOk;
    OwnPidAlive(c, o);
    var (sh, pid) := ForkRecord(c.sh, c.ctx.task);
    if shape && pid.Some? {
      var me := Find(c.sh.table, c.ctx.task.pid).value;
      var child := NewRecord(c.sh.nextPid, me.pid, me.pgid, me.sid);
      ForkKeeps(c.sh.table, c.sh.nextPid, child);
      assert sh.table == c.sh.table + [child];
      var after := DoClone(c, shape).1;
      assert after.ctx.vforkStack[..|after.ctx.vforkStack| - 1] == c.ctx.vforkStack;
      NextIsNew(c, o);
      forall x ensures Unit(Alive(after.sh.table, x)) == o(x) + CpuPids(after, x) {
      }
    }
  }

  lemma NextIsNew(c: Cpu, o: int -> nat)
    requires Owned(c, o)
    ensures !Alive(c.sh.table, c.sh.nextPid) && o(c.sh.nextPid) == 0 && CpuPids(c, c.sh.nextPid) == 0
  {
    if Alive(c.sh.table, c.sh.nextPid) {
      AliveIn(c.sh.table, c.sh.nextPid, c.sh.nextPid);
      assert false;
    }
  }

  lemma ExecveOwned(c: Cpu, program: nat, exe: string, argv: seq<seq<byte>>, envp: seq<seq<byte>>, o: int -> nat)
    requires Owned(c, o) && c.ctx.execRequest.None?
    ensures Owned(DoExecve(c, program, exe, argv, envp).1, o)
  {
    hide ReleaseAll, KeptOnExec, DrainedCloexec, TableOk;
    ReleaseAllFrame(c.sh, DrainedCloexec(c.ctx.task.fds));
    var after := DoExecve(c, program, exe, argv, envp).1;
    if |c.ctx.vforkStack| > 0 {
      assert after.sh.spawn[..|after.sh.spawn| - 1] == c.sh.spawn;
    }
  }

  lemma {:induction false} DeadFound(table: seq<Record>, pid: int, pgid: int, which: int)
    ensures var r := FirstDead(table, pid, pgid, which);
      r.Some? ==> r.value in table && r.value.exit.Some? && Waits(r.value, pid, pgid, which)
  {
    if |table| > 0 {
      DeadFound(table[1..], pid, pgid, which);
    }
  }

  lemma WaitOwned(c: Cpu, which: int, noHang: bool, copyOk: bool, o: int -> nat)
    requires Owned(c, o)
    ensures Owned(DoWait4(c, which, noHang, copyOk).1, o)
  {
    hide Without, FirstDead, TableOk, AnyChild;
    var r := FirstDead(c.sh.table, c.ctx.task.pid, GroupOf(c.sh, c.ctx.task.pid), which);
    DeadFound(c.sh.table, c.ctx.task.pid, GroupOf(c.sh, c.ctx.task.pid), which);
    if r.Some? {
      DeadIsDead(c.sh.table, c.sh.nextPid, r.value);
      ReapKeeps(c.sh.table, c.sh.nextPid, r.value.pid);
    }
  }

  lemma DeadIsDead(table: seq<Record>, nextPid: nat, r: Record)
    requires TableOk(table, nextPid) && r in table && r.exit.Some?
    ensures !Alive(table, r.pid)
  {
    var i :| 0 <= i < |table| && table[i] == r;
    FindAt(table, nextPid, i);
  }

  /** A table of the same shape serves the same owners. */
  lemma ShapeOwned(c: Cpu, after: Cpu, o: int -> nat)
    requires Owned(c, o) && SameShape(c.sh.table, after.sh.table) && after.sh.nextPid == c.sh.nextPid
    requires after.ctx.task.pid == c.ctx.task.pid && after.ctx.vforkStack == c.ctx.vforkStack
    requires after.ctx.execRequest == c.ctx.execRequest && after.sh.spawn == c.sh.spawn
    ensures Owned(after, o)
  {
    hide TableOk;
    ShapeKeeps(c.sh.table, after.sh.table, c.sh.nextPid);
    forall x ensures Unit(Alive(after.sh.table, x)) == o(x) + CpuPids(after, x) {
      assert CpuPids(after, x) == CpuPids(c, x);
    }
  }

  lemma LifeOwned(c: Cpu, call: LifeCall, o: int -> nat)
    requires Owned(c, o) && c.sh.nextPid < I32_MAX && c.ctx.execRequest.None?
    ensures Owned(HandleLife(c, call).1, o)
  {
    hide DoExit, DoClone, DoExecve, DoWait4, Owned;
    match call
    case ExitCall(code) => ExitOwned(c, code, o);
    case Clone(shape) => CloneOwned(c, shape, o);
    case Execve(program, exe, argv, envp) => ExecveOwned(c, program, exe, argv, envp, o);
    case Wait4(which, noHang, copyOk) => WaitOwned(c, which, noHang, copyOk, o);
    case _ => LifeShape(c, call); ShapeOwned(c, HandleLife(c, call).1, o);
  }

  lemma LifeShape(c: Cpu, call: LifeCall)
    requires call.Setpgid? || call.Setsid? || call.Kill?
    ensures var after := HandleLife(c, call).1;
      SameShape(c.sh.table, after.sh.table) && after.ctx == c.ctx && after.sh == c.sh.(table := after.sh.table)
  {
    hide WithRecord;
    var pid := c.ctx.task.pid;
    match call
    case Setpgid(target, group) =>
      var who := if target == 0 then pid else target;
      if Find(c.sh.table, who).Some? {
        WithShape(c.sh.table, who, Find(c.sh.table, who).value.(pgid := if group == 0 then who else group));
      }
    case Setsid =>
      if Find(c.sh.table, pid).Some? {
        WithShape(c.sh.table, pid, Find(c.sh.table, pid).value.(pgid := pid, sid := pid));
      }
    case Kill(target, signal) =>
  }

  lemma WaitShape(c: Cpu, call: WaitCall, now: nat)
    ensures SameShape(c.sh.table, HandleWait(c, call, now).1.sh.table)
  {
    hide ReadyCount, WithRecord;
    WokenShape(c.sh.table, c.ctx.task.pid);
  }

  lemma WokenShape(table: seq<Record>, pid: int)
    ensures forall when :: SameShape(table, WokenAt(table, pid, when))
  {
    forall when ensures SameShape(table, WokenAt(table, pid, when)) {
      if Find(table, pid).Some? {
        WithShape(table, pid, Find(table, pid).value.(wakeAt := when));
      }
    }
  }

  lemma {:induction false} VectorShape(c: Cpu, reading: bool, fd: int, iovs: seq<Iov>, i: nat, total: nat)
    requires i <= |iovs|
    ensures SameShape(c.sh.table, DoVector(c, reading, fd, iovs, i, total).1.sh.table)
    decreases |iovs| - i
  {
    hide DoIov;
    if i < |iovs| && iovs[i].decodes {
      if IovLen(reading, iovs[i]) == 0 {
        VectorShape(c, reading, fd, iovs, i + 1, total);
      } else {
        IovFrame(c, reading, fd, iovs[i]);
        RaisedShape(c.sh.table, c.ctx.task.pid, SIGPIPE);
        var (a, after) := DoIov(c, reading, fd, iovs[i]);
        if a.Value? && a.v >= IovLen(reading, iovs[i]) {
          VectorShape(after, reading, fd, iovs, i + 1, Min(total + Max(a.v, 0), I32_MAX));
        }
      }
    }
  }

  lemma BytesShape(c: Cpu, call: ByteCall)
    ensures SameShape(c.sh.table, HandleBytes(c, call).1.sh.table)
  {
    hide DoVector, ReadBytes, WriteBytes;
    RaisedShape(c.sh.table, c.ctx.task.pid, SIGPIPE);
    match call
    case Read(fd, len, _, vfs) => ReadFrame(c.sh, c.ctx.task, fd, Min(len, STAGING_MAX), vfs);
    case Write(fd, _, data, vfs) => WriteFrame(c.sh, c.ctx.task, fd, data, vfs);
    case Readv(fd, iovs) => VectorShape(c, true, fd, iovs, 0, 0);
    case Writev(fd, iovs) => VectorShape(c, false, fd, iovs, 0, 0);
  }

  /** Whatever the call, the living are still exactly the tasks. */
  lemma HandleOwned(c: Cpu, call: Call, now: nat, o: int -> nat)
    requires Owned(c, o) && c.sh.nextPid < I32_MAX && c.ctx.execRequest.None?
    ensures Owned(Handle(c, call, now).1, o)
  {
    hide HandleLife, HandleFiles, HandleMem, HandleWait, HandleOwn, HandleBytes, Owned;
    if call.Life? {
      LifeOwned(c, call.life, o);
    } else {
      HandleIdentity(c, call, now);
      match call {
        case Own(own) => OwnFrame(c, own);
        case Wait(wait) => WaitShape(c, wait, now);
        case Mem(mem) => MemFrame(c, mem);
        case Files(files) => FilesFrame(c, files);
        case Bytes(bytes) => BytesShape(c, bytes);
        case FileCall(vfs) =>
        case Plainly(result) =>
      }
      ShapeOwned(c, Handle(c, call, now).1, o);
    }
  }

  lemma DispatchOwned(c: Cpu, call: Call, now: nat, o: int -> nat)
    requires Owned(c, o) && c.sh.nextPid < I32_MAX && c.ctx.execRequest.None?
    ensures Owned(Dispatch(c, call, now).1, o)
  {
    hide Handle, Finished, TableOk;
    assert Owned(Counted(c), o) by {
      assert forall x :: CpuPids(Counted(c), x) == CpuPids(c, x);
    }
    HandleOwned(Counted(c), call, now, o);
    var after := Handle(Counted(c), call, now).1;
    FinishFrame(after);
    assert forall x :: CpuPids(Finished(after), x) == CpuPids(after, x);
  }
}
