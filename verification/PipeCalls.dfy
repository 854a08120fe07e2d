/** What every syscall does to the ends a pipe counts. */
module PipeCalls {
  import opened Base
  import opened Slabs
  import opened Fds
  import opened Kernel
  import opened Syscalls
  import opened References
  import opened CallFrames
  import opened RefCalls

  /** Pipe `p` counts its live ends and the ends lost to failed allocations. */
  ghost predicate PipesOk(sh: Shared, p: nat, lostR: nat, lostW: nat) {
    DescsOk(sh.descs) && Sound(sh.pipes) && PipeOk(sh, p, lostR, lostW)
  }

  lemma ReleaseKeeps(sh: Shared, key: nat, p: nat, lostR: nat, lostW: nat)
    requires PipesOk(sh, p, lostR, lostW)
    ensures PipesOk(ReleaseDesc(sh, key), p, lostR, lostW)
  {
    ReleaseRefs(sh, key, 0);
    ReleasePipes(sh, key, p, lostR, lostW);
  }

  lemma ReleaseAllKeeps(sh: Shared, keys: seq<nat>, p: nat, lostR: nat, lostW: nat)
    requires PipesOk(sh, p, lostR, lostW)
    ensures PipesOk(ReleaseAll(sh, keys), p, lostR, lostW)
  {
    ReleaseAllRefs(sh, keys, 0);
    ReleaseAllPipes(sh, keys, p, lostR, lostW);
  }

  lemma {:induction false} BumpedSound(descs: SlabState<Desc>, keys: seq<nat>)
    requires DescsOk(descs)
    ensures DescsOk(Bumped(descs, keys))
  {
    if |keys| > 0 {
      BumpedSound(descs, keys[..|keys| - 1]);
      BumpedOneRefs(Bumped(descs, keys[..|keys| - 1]), keys[|keys| - 1], 0);
    }
  }

  lemma ClonePipes(c: Cpu, shape: bool, p: nat, lostR: nat, lostW: nat)
    requires PipesOk(c.sh, p, lostR, lostW)
    ensures PipesOk(DoClone(c, shape).1.sh, p, lostR, lostW)
  {
    BumpedSound(c.sh.descs, Drained(c.ctx.task.fds));
    BumpedEnds(c.sh.descs, Drained(c.ctx.task.fds), PipeRead(p));
    BumpedEnds(c.sh.descs, Drained(c.ctx.task.fds), PipeWrite(p));
  }

  lemma LifePipes(c: Cpu, call: LifeCall, p: nat, lostR: nat, lostW: nat)
    requires PipesOk(c.sh, p, lostR, lostW)
    ensures PipesOk(HandleLife(c, call).1.sh, p, lostR, lostW)
  {
    hide ReleaseAll, ExitTable, DoClone, LiveCount, Find, FirstDead, Without, SignalTable, Sound, Ends;
    match call
    case ExitCall(code) => ReleaseAllKeeps(c.sh, Drained(c.ctx.task.fds), p, lostR, lostW);
    case Clone(shape) => ClonePipes(c, shape, p, lostR, lostW);
    case Execve(program, exe, argv, envp) => ReleaseAllKeeps(c.sh, DrainedCloexec(c.ctx.task.fds), p, lostR, lostW);
    case _ =>
  }

  /** Replacing a live description by one of the same kind leaves every pipe's count alone. */
  lemma StoredKeeps(sh: Shared, key: nat, d: Desc, p: nat, lostR: nat, lostW: nat)
    requires PipesOk(sh, p, lostR, lostW) && Live(sh.descs, key) && d.refs > 0
    requires IsKind(Some(d), PipeRead(p)) == IsKind(At(sh.descs, key), PipeRead(p))
    requires IsKind(Some(d), PipeWrite(p)) == IsKind(At(sh.descs, key), PipeWrite(p))
    ensures PipesOk(sh.(descs := Stored(sh.descs, key, d)), p, lostR, lostW)
  {
    StoredExact(sh.descs, key, d);
    EndsStored(sh.descs, key, d, PipeRead(p));
    EndsStored(sh.descs, key, d, PipeWrite(p));
  }

  lemma BumpKeeps(sh: Shared, key: nat, p: nat, lostR: nat, lostW: nat)
    requires PipesOk(sh, p, lostR, lostW)
    ensures PipesOk(sh.(descs := BumpedOne(sh.descs, key)), p, lostR, lostW)
  {
    if Live(sh.descs, key) {
      var d := At(sh.descs, key).value;
      StoredKeeps(sh, key, d.(refs := AddU32(d.refs, 1)), p, lostR, lostW);
    }
  }

  lemma Dup3Pipes(c: Cpu, from: int, to: int, cloexec: bool, p: nat, lostR: nat, lostW: nat)
    requires PipesOk(c.sh, p, lostR, lostW)
    ensures PipesOk(DoDup3(c, from, to, cloexec).1.sh, p, lostR, lostW)
  {
    var entry := Lookup(c.ctx.task.fds, from);
    if entry.Ok? {
      BumpKeeps(c.sh, entry.value.desc, p, lostR, lostW);
      if IsOpen(c.ctx.task.fds, to) {
        ReleaseKeeps(c.sh.(descs := BumpedOne(c.sh.descs, entry.value.desc)), c.ctx.task.fds[to].value.desc, p,
          lostR, lostW);
      }
    }
  }

  /** Inserting a description adds one end of its kind, if it is inserted at all. */
  lemma InsertKeeps(sh: Shared, d: Desc, cap: nat, p: nat, lostR: nat, lostW: nat)
    requires DescsOk(sh.descs) && Sound(sh.pipes) && d.refs > 0
    requires PipeOk(sh, p, lostR + IsKind(Some(d), PipeRead(p)), lostW + IsKind(Some(d), PipeWrite(p)))
    ensures var (descs, r) := Inserted(sh.descs, d, cap);
      r.Some? ==> PipesOk(sh.(descs := descs), p, lostR, lostW)
    ensures Inserted(sh.descs, d, cap).1.None? ==> Inserted(sh.descs, d, cap).0 == sh.descs
  {
    InsertedRefs(sh.descs, d, cap, 0);
    InsertedFresh(sh.descs, d, cap);
    EndsInserted(sh.descs, d, cap, PipeRead(p));
    EndsInserted(sh.descs, d, cap, PipeWrite(p));
  }

  lemma OpenPipes(c: Cpu, d: Desc, cloexec: bool, p: nat, lostR: nat, lostW: nat)
    requires PipesOk(c.sh, p, lostR, lostW) && d.refs == 1 && d.kind.Other?
    ensures PipesOk(DoOpen(c, d, cloexec).1.sh, p, lostR, lostW)
  {
    InsertKeeps(c.sh, d, c.sh.limits.openFiles * 4, p, lostR, lostW);
    var (descs, key) := Inserted(c.sh.descs, d, c.sh.limits.openFiles * 4);
    if key.Some? {
      ReleaseKeeps(c.sh.(descs := descs), key.value, p, lostR, lostW);
    }
  }

  lemma PipeFdsPipes(c: Cpu, r: nat, w: nat, cloexec: bool, copyOk: bool, p: nat, lostR: nat, lostW: nat)
    requires PipesOk(c.sh, p, lostR, lostW)
    ensures PipesOk(PipeFds(c, r, w, cloexec, copyOk).1.sh, p, lostR, lostW)
  {
    var limit := c.sh.limits.openFiles;
    var (fds1, readFd) := Allocated(c.ctx.task.fds, Fd(r, cloexec), 0, limit);
    if readFd.Ok? && LowestFree(fds1, 0, limit).None? {
      TakenBack(c, r, w, cloexec, copyOk);
      ReleaseKeeps(c.sh, r, p, lostR, lostW);
    }
  }

  lemma WriteEndPipes(c: Cpu, made: nat, r: nat, cloexec: bool, nonblock: bool, copyOk: bool, p: nat,
    lostR: nat, lostW: nat)
    requires PipesOk(c.sh, p, lostR, lostW + Unit(p == made))
    ensures
      var failed := Inserted(c.sh.descs, WriteEnd(made, nonblock), c.sh.limits.openFiles * 4).1.None?;
      PipesOk(PipeWriteEnd(c, made, r, cloexec, nonblock, copyOk).1.sh, p, lostR, lostW + Unit(p == made && failed))
  {
    hide PipeFds, Sound, Ends;
    InsertKeeps(c.sh, WriteEnd(made, nonblock), c.sh.limits.openFiles * 4, p, lostR, lostW);
    var (descs, w) := Inserted(c.sh.descs, WriteEnd(made, nonblock), c.sh.limits.openFiles * 4);
    if w.Some? {
      PipeFdsPipes(WithDescs(c, descs), r, w.value, cloexec, copyOk, p, lostR, lostW);
    }
  }

  lemma ReadEndPipes(c: Cpu, made: nat, cloexec: bool, nonblock: bool, copyOk: bool, p: nat, lostR: nat, lostW: nat)
    requires PipesOk(c.sh, p, lostR + Unit(p == made), lostW + Unit(p == made))
    ensures
      var (descs, r) := Inserted(c.sh.descs, ReadEnd(made, nonblock), c.sh.limits.openFiles * 4);
      var failed := r.None? || Inserted(descs, WriteEnd(made, nonblock), c.sh.limits.openFiles * 4).1.None?;
      PipesOk(PipeReadEnd(c, made, cloexec, nonblock, copyOk).1.sh, p, lostR + Unit(p == made && r.None?),
        lostW + Unit(p == made && failed))
  {
    hide PipeWriteEnd, PipeOk, Sound;
    InsertKeeps(c.sh, ReadEnd(made, nonblock), c.sh.limits.openFiles * 4, p, lostR, lostW + Unit(p == made));
    var (descs, r) := Inserted(c.sh.descs, ReadEnd(made, nonblock), c.sh.limits.openFiles * 4);
    if r.Some? {
      WriteEndPipes(WithDescs(c, descs), made, r.value, cloexec, nonblock, copyOk, p, lostR, lostW);
    }
  }

  /** A new pipe counts two ends before either has a description. */
  lemma MadePipe(c: Cpu, p: nat, lostR: nat, lostW: nat)
    requires PipesOk(c.sh, p, lostR, lostW)
    ensures
      var (pipes, made) := Inserted(c.sh.pipes, Pipe([], 1, 1), c.sh.limits.openFiles);
      if made.None? then pipes == c.sh.pipes
      else PipesOk(WithPipe(c, pipes, made.value).sh, p, lostR + Unit(made == Some(p)), lostW + Unit(made == Some(p)))
  {
    InsertedFresh(c.sh.pipes, Pipe([], 1, 1), c.sh.limits.openFiles);
  }

  lemma Pipe2Pipes(c: Cpu, cloexec: bool, nonblock: bool, copyOk: bool, p: nat, lostR: nat, lostW: nat)
    requires PipesOk(c.sh, p, lostR, lostW)
    ensures PipesOk(DoPipe2(c, cloexec, nonblock, copyOk).1.sh, p, lostR + LostReaderByPipe(c, nonblock, p),
      lostW + LostWriterByPipe(c, nonblock, p))
  {
    hide PipesOk, PipeReadEnd, Sound;
    var (pipes, made) := Inserted(c.sh.pipes, Pipe([], 1, 1), c.sh.limits.openFiles);
    MadePipe(c, p, lostR, lostW);
    if made.Some? {
      ReadEndPipes(WithPipe(c, pipes, made.value), made.value, cloexec, nonblock, copyOk, p, lostR, lostW);
    }
  }

  lemma FlagsPipes(c: Cpu, fd: int, append: bool, nonblock: bool, p: nat, lostR: nat, lostW: nat)
    requires PipesOk(c.sh, p, lostR, lostW)
    ensures PipesOk(DoSetFlags(c, fd, append, nonblock).1.sh, p, lostR, lostW)
  {
    var entry := Lookup(c.ctx.task.fds, fd);
    if entry.Ok? && Live(c.sh.descs, entry.value.desc) {
      var d := At(c.sh.descs, entry.value.desc).value;
      StoredKeeps(c.sh, entry.value.desc, d.(append := append, nonblock := nonblock), p, lostR, lostW);
    }
  }

  lemma FilesPipes(c: Cpu, call: FdCall, p: nat, lostR: nat, lostW: nat)
    requires PipesOk(c.sh, p, lostR, lostW)
    ensures PipesOk(HandleFiles(c, call).1.sh, p, lostR + LostReader(c, Files(call), p),
      lostW + LostWriter(c, Files(call), p))
  {
    hide PipesOk, DoDupAt, DoDup3, DoSetFlags, DoPipe2, DoOpen, LostReaderByPipe, LostWriterByPipe, ReleaseDesc;
    match call
    case Close(fd) =>
      if IsOpen(c.ctx.task.fds, fd) {
        ReleaseKeeps(c.sh, c.ctx.task.fds[fd].value.desc, p, lostR, lostW);
      }
    case DupAt(fd, min, cloexec) => DupPipes(c, fd, Max(min, 0), cloexec, p, lostR, lostW);
    case Dup3(from, to, cloexec) => Dup3Pipes(c, from, to, cloexec, p, lostR, lostW);
    case SetCloexec(fd, on) =>
    case SetFlags(fd, append, nonblock) => FlagsPipes(c, fd, append, nonblock, p, lostR, lostW);
    case Pipe2(cloexec, nonblock, copyOk) => Pipe2Pipes(c, cloexec, nonblock, copyOk, p, lostR, lostW);
    case Open(plain, access, append, nonblock, cloexec) =>
      OpenPipes(c, Desc(Other(plain), access, append, nonblock, 1), cloexec, p, lostR, lostW);
  }

  lemma DupPipes(c: Cpu, fd: int, min: nat, cloexec: bool, p: nat, lostR: nat, lostW: nat)
    requires PipesOk(c.sh, p, lostR, lostW)
    ensures PipesOk(DoDupAt(c, fd, min, cloexec).1.sh, p, lostR, lostW)
  {
    if IsOpen(c.ctx.task.fds, fd) {
      BumpKeeps(c.sh, c.ctx.task.fds[fd].value.desc, p, lostR, lostW);
    }
  }

  lemma ReadPipes(sh: Shared, t: Task, fd: int, len: nat, vfs: Vfs, p: nat, lostR: nat, lostW: nat)
    requires PipesOk(sh, p, lostR, lostW)
    ensures PipesOk(ReadBytes(sh, t, fd, len, vfs).1, p, lostR, lostW)
  {
    var entry := Lookup(t.fds, fd);
    if len > 0 && entry.Ok? && Live(sh.descs, entry.value.desc) {
      ReadDescPipes(sh, entry.value.desc, At(sh.descs, entry.value.desc).value, len, vfs, p, lostR, lostW);
    }
  }

  /** New bytes in a pipe, same ends. */
  lemma DataKeeps(sh: Shared, r: nat, data: seq<byte>, p: nat, lostR: nat, lostW: nat)
    requires PipesOk(sh, p, lostR, lostW) && Live(sh.pipes, r)
    ensures PipesOk(sh.(pipes := Stored(sh.pipes, r, At(sh.pipes, r).value.(data := data))), p, lostR, lostW)
  {
    StoredExact(sh.pipes, r, At(sh.pipes, r).value.(data := data));
  }

  lemma ReadPipePipes(sh: Shared, r: nat, nonblock: bool, len: nat, p: nat, lostR: nat, lostW: nat)
    requires PipesOk(sh, p, lostR, lostW)
    ensures PipesOk(ReadPipe(sh, r, nonblock, len).1, p, lostR, lostW)
  {
    if Live(sh.pipes, r) {
      var q := At(sh.pipes, r).value;
      DataKeeps(sh, r, q.data[Min(|q.data|, len)..], p, lostR, lostW);
    }
  }

  lemma MemoryPipes(sh: Shared, key: nat, d: Desc, len: nat, vfs: Vfs, p: nat, lostR: nat, lostW: nat)
    requires PipesOk(sh, p, lostR, lostW) && At(sh.descs, key) == Some(d)
    requires d.kind.Other? && d.kind.plain.Memory?
    ensures PipesOk(ReadDesc(sh, key, d, len, vfs).1, p, lostR, lostW)
  {
    var start := Min(d.kind.plain.pos, |d.kind.plain.data|);
    var n := Min(|d.kind.plain.data| - start, len);
    StoredKeeps(sh, key, d.(kind := Other(Memory(d.kind.plain.data, start + n))), p, lostR, lostW);
  }

  lemma ReadDescPipes(sh: Shared, key: nat, d: Desc, len: nat, vfs: Vfs, p: nat, lostR: nat, lostW: nat)
    requires PipesOk(sh, p, lostR, lostW) && At(sh.descs, key) == Some(d)
    ensures PipesOk(ReadDesc(sh, key, d, len, vfs).1, p, lostR, lostW)
  {
    if d.kind.PipeRead? {
      ReadPipePipes(sh, d.kind.pipe, d.nonblock, len, p, lostR, lostW);
    } else if d.kind == Other(Stdin) {
      ReadStdinFrame(sh, d.nonblock, len);
    } else if d.kind.Other? && d.kind.plain.Memory? {
      MemoryPipes(sh, key, d, len, vfs, p, lostR, lostW);
    }
  }

  lemma WritePipePipes(sh: Shared, pid: int, w: nat, nonblock: bool, data: seq<byte>, p: nat, lostR: nat, lostW: nat)
    requires PipesOk(sh, p, lostR, lostW)
    ensures PipesOk(WritePipe(sh, pid, w, nonblock, data).1, p, lostR, lostW)
  {
    if Live(sh.pipes, w) {
      var q := At(sh.pipes, w).value;
      DataKeeps(sh, w, q.data + data[..Min(q.Room(), |data|)], p, lostR, lostW);
    }
  }

  lemma WritePipes(sh: Shared, t: Task, fd: int, data: seq<byte>, vfs: Vfs, p: nat, lostR: nat, lostW: nat)
    requires PipesOk(sh, p, lostR, lostW)
    ensures PipesOk(WriteBytes(sh, t, fd, data, vfs).1, p, lostR, lostW)
  {
    hide Sound, WritePipe;
    var entry := Lookup(t.fds, fd);
    if entry.Ok? && Live(sh.descs, entry.value.desc) {
      var d := At(sh.descs, entry.value.desc).value;
      if d.kind.PipeWrite? {
        WritePipePipes(sh, t.pid, d.kind.pipe, d.nonblock, data, p, lostR, lostW);
      }
    }
  }

  lemma IovPipes(c: Cpu, reading: bool, fd: int, v: Iov, p: nat, lostR: nat, lostW: nat)
    requires PipesOk(c.sh, p, lostR, lostW)
    ensures PipesOk(DoIov(c, reading, fd, v).1.sh, p, lostR, lostW)
  {
    if reading {
      ReadPipes(c.sh, c.ctx.task, fd, Min(v.len, STAGING_MAX), v.vfs, p, lostR, lostW);
    } else {
      WritePipes(c.sh, c.ctx.task, fd, v.data, v.vfs, p, lostR, lostW);
    }
  }

  lemma {:induction false} VectorPipes(c: Cpu, reading: bool, fd: int, iovs: seq<Iov>, i: nat, total: nat, p: nat,
    lostR: nat, lostW: nat)
    requires i <= |iovs| && PipesOk(c.sh, p, lostR, lostW)
    ensures PipesOk(DoVector(c, reading, fd, iovs, i, total).1.sh, p, lostR, lostW)
    decreases |iovs| - i
  {
    if i < |iovs| && iovs[i].decodes {
      if IovLen(reading, iovs[i]) == 0 {
        VectorPipes(c, reading, fd, iovs, i + 1, total, p, lostR, lostW);
      } else {
        IovPipes(c, reading, fd, iovs[i], p, lostR, lostW);
        var (a, after) := DoIov(c, reading, fd, iovs[i]);
        if a.Value? && a.v >= IovLen(reading, iovs[i]) {
          VectorPipes(after, reading, fd, iovs, i + 1, Min(total + Max(a.v, 0), I32_MAX), p, lostR, lostW);
        }
      }
    }
  }

  lemma BytesPipes(c: Cpu, call: ByteCall, p: nat, lostR: nat, lostW: nat)
    requires PipesOk(c.sh, p, lostR, lostW)
    ensures PipesOk(HandleBytes(c, call).1.sh, p, lostR, lostW)
  {
    match call
    case Read(fd, len, copyOk, vfs) => ReadPipes(c.sh, c.ctx.task, fd, Min(len, STAGING_MAX), vfs, p, lostR, lostW);
    case Write(fd, decodes, data, vfs) => WritePipes(c.sh, c.ctx.task, fd, data, vfs, p, lostR, lostW);
    case Readv(fd, iovs) => VectorPipes(c, true, fd, iovs, 0, 0, p, lostR, lostW);
    case Writev(fd, iovs) => VectorPipes(c, false, fd, iovs, 0, 0, p, lostR, lostW);
  }

  /** Live ends plus lost ends account for what a pipe counts, whatever the call. */
  lemma HandlePipes(c: Cpu, call: Call, now: nat, p: nat, lostR: nat, lostW: nat)
    requires PipesOk(c.sh, p, lostR, lostW)
    ensures PipesOk(Handle(c, call, now).1.sh, p, lostR + LostReader(c, call, p), lostW + LostWriter(c, call, p))
  {
    hide HandleLife, HandleFiles, HandleBytes, HandleMem, HandleWait, HandleOwn, Sound, Ends;
    match call
    case Life(life) => LifePipes(c, life, p, lostR, lostW);
    case Own(own) => OwnFrame(c, own);
    case Wait(wait) => WaitFrame(c, wait, now);
    case Mem(mem) => MemFrame(c, mem);
    case Files(files) => FilesPipes(c, files, p, lostR, lostW);
    case Bytes(bytes) => BytesPipes(c, bytes, p, lostR, lostW);
    case FileCall(vfs) =>
    case Plainly(result) =>
  }

  lemma DispatchPipes(c: Cpu, call: Call, now: nat, p: nat, lostR: nat, lostW: nat)
    requires PipesOk(c.sh, p, lostR, lostW)
    ensures PipesOk(Dispatch(c, call, now).1.sh, p, lostR + LostReader(Counted(c), call, p),
      lostW + LostWriter(Counted(c), call, p))
  {
    HandlePipes(Counted(c), call, now, p, lostR, lostW);
    FinishFrame(Handle(Counted(c), call, now).1);
  }
}
