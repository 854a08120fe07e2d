/** What each group of calls leaves alone. */
module CallFrames {
  import opened Base
  import opened Slabs
  import opened Fds
  import opened Kernel
  import opened Syscalls
  import opened References

  lemma ReadPipeFrame(sh: Shared, p: nat, nonblock: bool, len: nat)
    ensures var after := ReadPipe(sh, p, nonblock, len).1; after == sh.(pipes := after.pipes, log := after.log)
  {
  }

  lemma ReadStdinFrame(sh: Shared, nonblock: bool, len: nat)
    ensures var after := ReadStdin(sh, nonblock, len).1; after == sh.(stdin := after.stdin)
  {
  }

  lemma ReadFrame(sh: Shared, t: Task, fd: int, len: nat, vfs: Vfs)
    ensures var after := ReadBytes(sh, t, fd, len, vfs).1;
      after == sh.(descs := after.descs, pipes := after.pipes, stdin := after.stdin, vfsPending := after.vfsPending,
        log := after.log)
  {
    hide Stored, LineLen;
    var entry := Lookup(t.fds, fd);
    if entry.Ok? && Live(sh.descs, entry.value.desc) {
      var d := At(sh.descs, entry.value.desc).value;
      if d.kind.PipeRead? {
        ReadPipeFrame(sh, d.kind.pipe, d.nonblock, len);
      } else {
        ReadStdinFrame(sh, d.nonblock, len);
      }
    }
  }

  /** Besides the bytes it moves, a write can only raise a signal on its own process. */
  lemma WriteFrame(sh: Shared, t: Task, fd: int, data: seq<byte>, vfs: Vfs)
    ensures var after := WriteBytes(sh, t, fd, data, vfs).1;
      && after == sh.(pipes := after.pipes, stdout := after.stdout, stderr := after.stderr, table := after.table,
                      vfsPending := after.vfsPending, log := after.log)
      && (after.table == sh.table || after.table == Raised(sh.table, t.pid, SIGPIPE))
  {
    hide Stored, Raised;
  }

  lemma IovFrame(c: Cpu, reading: bool, fd: int, v: Iov)
    ensures BytesOnly(c, DoIov(c, reading, fd, v).1)
    ensures var after := DoIov(c, reading, fd, v).1;
      after.sh.table == c.sh.table || after.sh.table == Raised(c.sh.table, c.ctx.task.pid, SIGPIPE)
  {
    if reading {
      ReadFrame(c.sh, c.ctx.task, fd, Min(v.len, STAGING_MAX), v.vfs);
    } else {
      WriteFrame(c.sh, c.ctx.task, fd, v.data, v.vfs);
    }
  }

  /** The descriptor names a mounted file. */
  predicate NamesFile(sh: Shared, t: Task, fd: int) {
    && IsOpen(t.fds, fd)
    && var d := At(sh.descs, t.fds[fd].value.desc);
       d.Some? && d.value.kind.Other? && d.value.kind.plain.File?
  }

  /** Only what moving bytes touches may differ. */
  ghost predicate BytesOnly(c: Cpu, after: Cpu) {
    && after.ctx == c.ctx && after.inst == c.inst
    && after.sh == c.sh.(descs := after.sh.descs, pipes := after.sh.pipes, stdin := after.sh.stdin,
      stdout := after.sh.stdout,
                         stderr := after.sh.stderr, table := after.sh.table, vfsPending := after.sh.vfsPending,
                           log := after.sh.log)
  }

  lemma {:induction false} VectorFrame(c: Cpu, reading: bool, fd: int, iovs: seq<Iov>, i: nat, total: nat)
    requires i <= |iovs|
    ensures BytesOnly(c, DoVector(c, reading, fd, iovs, i, total).1)
    decreases |iovs| - i
  {
    hide DoIov;
    if i < |iovs| && iovs[i].decodes {
      if IovLen(reading, iovs[i]) == 0 {
        VectorFrame(c, reading, fd, iovs, i + 1, total);
      } else {
        IovFrame(c, reading, fd, iovs[i]);
        var (a, after) := DoIov(c, reading, fd, iovs[i]);
        if a.Value? && a.v >= IovLen(reading, iovs[i]) {
          VectorFrame(after, reading, fd, iovs, i + 1, Min(total + Max(a.v, 0), I32_MAX));
        }
      }
    }
  }

  lemma BytesFrame(c: Cpu, call: ByteCall)
    ensures BytesOnly(c, HandleBytes(c, call).1)
  {
    hide DoVector, ReadBytes, WriteBytes;
    match call
    case Read(fd, len, _, vfs) => ReadFrame(c.sh, c.ctx.task, fd, Min(len, STAGING_MAX), vfs);
    case Write(fd, _, data, vfs) => WriteFrame(c.sh, c.ctx.task, fd, data, vfs);
    case Readv(fd, iovs) => VectorFrame(c, true, fd, iovs, 0, 0);
    case Writev(fd, iovs) => VectorFrame(c, false, fd, iovs, 0, 0);
  }

  /** Only descriptions, pipes and the caller's descriptor table may differ. */
  ghost predicate FilesOnly(c: Cpu, after: Cpu) {
    && after.sh == c.sh.(descs := after.sh.descs, pipes := after.sh.pipes, log := after.sh.log)
    && after.ctx == c.ctx.(task := c.ctx.task.(fds := after.ctx.task.fds))
    && after.inst == c.inst
  }

  lemma PipeFdsFrame(c: Cpu, r: nat, w: nat, cloexec: bool, copyOk: bool)
    ensures FilesOnly(c, PipeFds(c, r, w, cloexec, copyOk).1)
  {
    hide ReleaseDesc, Allocated, Taken;
    var limit := c.sh.limits.openFiles;
    var (fds1, readFd) := Allocated(c.ctx.task.fds, Fd(r, cloexec), 0, limit);
    if readFd.Ok? {
      var (fds3, back) := Taken(fds1, readFd.value);
      if back.Ok? {
        ReleaseFrame(c.sh, back.value.desc);
      }
    }
  }

  lemma PipeFrame(c: Cpu, cloexec: bool, nonblock: bool, copyOk: bool)
    ensures FilesOnly(c, DoPipe2(c, cloexec, nonblock, copyOk).1)
  {
    hide Inserted, PipeFds;
    var limit := c.sh.limits.openFiles;
    var (pipes, p) := Inserted(c.sh.pipes, Pipe([], 1, 1), limit);
    if p.Some? {
      var c1 := WithPipe(c, pipes, p.value);
      var (descs1, r) := Inserted(c1.sh.descs, ReadEnd(p.value, nonblock), limit * 4);
      if r.Some? {
        var c2 := WithDescs(c1, descs1);
        var (descs2, w) := Inserted(c2.sh.descs, WriteEnd(p.value, nonblock), limit * 4);
        if w.Some? {
          PipeFdsFrame(WithDescs(c2, descs2), r.value, w.value, cloexec, copyOk);
        }
      }
    }
  }

  lemma Dup3Frame(c: Cpu, from: int, to: int, cloexec: bool)
    ensures FilesOnly(c, DoDup3(c, from, to, cloexec).1)
  {
    hide ReleaseDesc, Replaced, BumpedOne;
    var entry := Lookup(c.ctx.task.fds, from);
    if entry.Ok? {
      var (fds, r) := Replaced(c.ctx.task.fds, to, Fd(entry.value.desc, cloexec), c.sh.limits.openFiles);
      if r.Ok? && r.value.Some? {
        ReleaseFrame(c.sh.(descs := BumpedOne(c.sh.descs, entry.value.desc)), r.value.value.desc);
      }
    }
  }

  lemma OpenFrame(c: Cpu, d: Desc, cloexec: bool)
    ensures FilesOnly(c, DoOpen(c, d, cloexec).1)
  {
    hide ReleaseDesc, Inserted, Allocated;
    var (descs, key) := Inserted(c.sh.descs, d, c.sh.limits.openFiles * 4);
    if key.Some? {
      ReleaseFrame(c.sh.(descs := descs), key.value);
    }
  }

  lemma CloseFrame(c: Cpu, fd: int)
    ensures FilesOnly(c, DoClose(c, fd).1)
  {
    hide ReleaseDesc;
    if IsOpen(c.ctx.task.fds, fd) {
      ReleaseFrame(c.sh, c.ctx.task.fds[fd].value.desc);
    }
  }

  lemma FilesFrame(c: Cpu, call: FdCall)
    ensures FilesOnly(c, HandleFiles(c, call).1)
  {
    hide DoPipe2, DoDup3, DoOpen, DoClose;
    match call
    case Close(fd) => CloseFrame(c, fd);
    case DupAt(fd, min, cloexec) =>
    case Dup3(from, to, cloexec) => Dup3Frame(c, from, to, cloexec);
    case SetCloexec(fd, on) =>
    case SetFlags(fd, append, nonblock) =>
    case Pipe2(cloexec, nonblock, copyOk) => PipeFrame(c, cloexec, nonblock, copyOk);
    case Open(plain, access, append, nonblock, cloexec) =>
      OpenFrame(c, Desc(Other(plain), access, append, nonblock, 1), cloexec);
  }

  lemma WaitFrame(c: Cpu, call: WaitCall, now: nat)
    ensures var after := HandleWait(c, call, now).1;
      && after.sh == c.sh.(table := after.sh.table, stdin := after.sh.stdin)
      && after.ctx == c.ctx.(exec := after.ctx.exec, task := c.ctx.task.(sigmask := after.ctx.task.sigmask))
      && after.inst == c.inst
  {
  }

  lemma BrkFrame(c: Cpu, request: nat, grows: bool)
    ensures var after := DoBrk(c, request, grows).1;
      && after.sh == c.sh.(memoryUsed := after.sh.memoryUsed)
      && after.ctx == c.ctx.(exec := c.ctx.exec.(grown := after.ctx.exec.grown))
  {
  }

  lemma MapFileFrame(c: Cpu, at: nat, fd: int, vfs: Vfs)
    ensures var after := MapFile(c, at, fd, vfs).1;
      after == c.(sh := c.sh.(vfsPending := after.sh.vfsPending))
  {
  }

  lemma MmapFrame(c: Cpu, length: nat, fixed: bool, anonymous: bool, fd: int, grows: bool, vfs: Vfs)
    ensures var after := DoMmap(c, length, fixed, anonymous, fd, grows, vfs).1;
      && after.sh == c.sh.(memoryUsed := after.sh.memoryUsed, vfsPending := after.sh.vfsPending)
      && after.ctx == c.ctx.(exec := c.ctx.exec.(grown := after.ctx.exec.grown))
  {
    var bytes := Pages(length) * PAGE;
    var sh := Charged(c.sh, bytes).0;
    var at := c.inst.size;
    var grown := Grown(c, sh, bytes);
    MapFileFrame(grown.(inst := grown.inst.(maps := grown.inst.maps + [(at, at + bytes)])), at, fd, vfs);
  }

  lemma MemFrame(c: Cpu, call: MemCall)
    ensures var after := HandleMem(c, call).1;
      && after.sh == c.sh.(memoryUsed := after.sh.memoryUsed, vfsPending := after.sh.vfsPending)
      && after.ctx == c.ctx.(exec := c.ctx.exec.(grown := after.ctx.exec.grown))
  {
    match call
    case Brk(request, grows) => BrkFrame(c, request, grows);
    case Mmap(length, fixed, anonymous, fd, grows, vfs) => MmapFrame(c, length, fixed, anonymous, fd, grows, vfs);
  }

  lemma OwnFrame(c: Cpu, call: TaskCall)
    ensures var after := HandleOwn(c, call).1;
      && after.sh == c.sh && after.inst == c.inst
      && after.ctx == c.ctx.(task := after.ctx.task)
      && after.ctx.task.fds == c.ctx.task.fds && after.ctx.task.pid == c.ctx.task.pid
  {
  }

  lemma FinishFrame(c: Cpu)
    ensures var after := Finished(c);
      && after.sh == c.sh && after.inst == c.inst
      && after.ctx == c.ctx.(exec := after.ctx.exec, task := c.ctx.task.(sigmask := after.ctx.task.sigmask))
      && after.ctx.exec.grown == c.ctx.exec.grown
  {
  }

  lemma ReleaseFdsFrame(sh: Shared, fds: Slots)
    ensures var after := ReleaseFds(sh, fds); after == sh.(descs := after.descs, pipes := after.pipes)
  {
    ReleaseAllFrame(sh, Drained(fds));
  }

  /** Which processes exist changes no file content, no memory and no suspension state. */
  ghost predicate LifeOnly(c: Cpu, after: Cpu) {
    && after.sh == c.sh.(descs := after.sh.descs, pipes := after.sh.pipes, table := after.sh.table,
      nextPid := after.sh.nextPid,
                         spawn := after.sh.spawn)
    && after.ctx.exec == c.ctx.exec
    && after.inst == c.inst
  }

  lemma LifeFrame(c: Cpu, call: LifeCall)
    ensures LifeOnly(c, HandleLife(c, call).1)
  {
    hide ReleaseFds, ReleaseAll, ExitTable, Bumped, Drained, LiveCount;
    match call
    case ExitCall(code) => ReleaseFdsFrame(c.sh, c.ctx.task.fds);
    case Execve(program, exe, argv, envp) => ReleaseAllFrame(c.sh, DrainedCloexec(c.ctx.task.fds));
    case _ =>
  }

  /** The calls that change who runs in an instance; every other call leaves the pid, the stack of
      vfork parents, the exec request and the spawn queue alone. */
  predicate ChangesIdentity(call: Call) {
    call.Life? && (call.life.ExitCall? || call.life.Clone? || call.life.Execve?)
  }

  ghost predicate SameIdentity(c: Cpu, after: Cpu) {
    && after.ctx.task.pid == c.ctx.task.pid
    && after.ctx.vforkStack == c.ctx.vforkStack
    && after.ctx.execRequest == c.ctx.execRequest
    && after.sh.spawn == c.sh.spawn
    && after.sh.nextPid == c.sh.nextPid
    && after.sh.limits == c.sh.limits
  }

  lemma HandleIdentity(c: Cpu, call: Call, now: nat)
    requires !ChangesIdentity(call)
    ensures SameIdentity(c, Handle(c, call, now).1)
    ensures !Handle(c, call, now).0.Exits? && !Handle(c, call, now).0.Execs?
  {
    hide HandleFiles, HandleMem, HandleWait, HandleOwn, HandleBytes;
    AnswersOnly(c, call, now);
    match call
    case Life(life) =>
    case Own(own) => OwnFrame(c, own);
    case Wait(wait) => WaitFrame(c, wait, now);
    case Mem(mem) => MemFrame(c, mem);
    case Files(files) => FilesFrame(c, files);
    case Bytes(bytes) => BytesFrame(c, bytes);
    case FileCall(vfs) =>
    case Plainly(result) =>
  }

  lemma {:induction false} VectorAnswers(c: Cpu, reading: bool, fd: int, iovs: seq<Iov>, i: nat, total: nat)
    requires i <= |iovs|
    ensures var a := DoVector(c, reading, fd, iovs, i, total).0; !a.Exits? && !a.Execs?
    decreases |iovs| - i
  {
    hide ReadBytes, WriteBytes;
    if i < |iovs| && iovs[i].decodes {
      if IovLen(reading, iovs[i]) == 0 {
        VectorAnswers(c, reading, fd, iovs, i + 1, total);
      } else {
        var (a, after) := DoIov(c, reading, fd, iovs[i]);
        if a.Value? && a.v >= IovLen(reading, iovs[i]) {
          VectorAnswers(after, reading, fd, iovs, i + 1, Min(total + Max(a.v, 0), I32_MAX));
        }
      }
    }
  }

  lemma FilesAnswers(c: Cpu, call: FdCall)
    ensures var a := HandleFiles(c, call).0; !a.Exits? && !a.Execs?
  {
    hide ReleaseDesc, Inserted, BumpedOne;
  }

  lemma MemAnswers(c: Cpu, call: MemCall)
    ensures var a := HandleMem(c, call).0; !a.Exits? && !a.Execs?
  {
    hide Charged, Uncharged, Pages;
  }

  lemma BytesAnswers(c: Cpu, call: ByteCall)
    ensures var a := HandleBytes(c, call).0; !a.Exits? && !a.Execs?
  {
    hide ReadBytes, WriteBytes, DoVector;
    match call
    case Readv(fd, iovs) => VectorAnswers(c, true, fd, iovs, 0, 0);
    case Writev(fd, iovs) => VectorAnswers(c, false, fd, iovs, 0, 0);
    case _ =>
  }

  /** Only the calls about identity can end a process or replace it. */
  lemma AnswersOnly(c: Cpu, call: Call, now: nat)
    requires !ChangesIdentity(call)
    ensures !Handle(c, call, now).0.Exits? && !Handle(c, call, now).0.Execs?
  {
    hide HandleFiles, HandleMem, HandleBytes, FirstDead, Without, SignalTable, ReadyCount, Find, WithRecord;
    match call
    case Files(files) => FilesAnswers(c, files);
    case Mem(mem) => MemAnswers(c, mem);
    case Bytes(bytes) => BytesAnswers(c, bytes);
    case _ =>
  }

  /** No deadline and no displaced mask. */
  ghost predicate Tidy(e: Exec) {
    e.deadline.None? && e.maskToRestore.None?
  }

  /** Only the calls that wait for time, signals or descriptors keep anything between attempts. */
  lemma HandleTidy(c: Cpu, call: Call, now: nat)
    requires !call.Wait?
    ensures var after := Handle(c, call, now).1;
      after.ctx.exec == c.ctx.exec.(grown := after.ctx.exec.grown)
  {
    hide HandleLife, HandleFiles, HandleMem, HandleOwn, HandleBytes;
    match call {
      case Life(life) => LifeFrame(c, life);
      case Own(own) => OwnFrame(c, own);
      case Mem(mem) => MemFrame(c, mem);
      case Files(files) => FilesFrame(c, files);
      case Bytes(bytes) => BytesFrame(c, bytes);
      case _ =>
    }
  }

  /** A call that is over leaves neither a deadline nor a displaced mask behind. */
  lemma DispatchTidy(c: Cpu, call: Call, now: nat)
    requires Tidy(c.ctx.exec) || call.Wait?
    ensures var (a, after) := Dispatch(c, call, now);
      Tidy(after.ctx.exec) || (a.Block? && call.Wait?)
  {
    hide Handle;
    if call.Wait? {
      AnswersOnly(Counted(c), call, now);
    } else {
      HandleTidy(Counted(c), call, now);
    }
  }
}
