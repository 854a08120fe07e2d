/** What every syscall does to reference counts: slots plus leaks before, slots plus leaks after,
    with the leaks of each call spelled out. */
module RefCalls {
  import opened Base
  import opened Slabs
  import opened Sums
  import opened Fds
  import opened Kernel
  import opened Syscalls
  import opened References
  import opened CallFrames

  /** References to `k`: the slots within reach, and `o` others (slots elsewhere, and leaks). */
  ghost predicate Balanced(c: Cpu, k: nat, o: nat) {
    && DescsOk(c.sh.descs)
    && RefAt(c.sh.descs, k) == o + CpuCount(c, k)
  }

  // ----- what each call loses ------------------------------------------------------------

  /** `dup` and its kin take the reference first; with no free descriptor nobody gives it back. */
  ghost function LostByDup(c: Cpu, fd: int, min: nat, k: nat): nat {
    var entry := Lookup(c.ctx.task.fds, fd);
    Unit(entry.Ok? && entry.value.desc == k && Live(c.sh.descs, k)
         && LowestFree(c.ctx.task.fds, min, c.sh.limits.openFiles).None?)
  }

  ghost function LostByDup3(c: Cpu, from: int, to: int, k: nat): nat {
    var entry := Lookup(c.ctx.task.fds, from);
    Unit(from != to && entry.Ok? && entry.value.desc == k && Live(c.sh.descs, k)
         && (to < 0 || to >= c.sh.limits.openFiles))
  }

  /** A pipe whose reading end finds no entry keeps both ends counted and has neither. */
  ghost function LostByPipe(c: Cpu, cloexec: bool, nonblock: bool, k: nat): nat {
    var (pipes, p) := Inserted(c.sh.pipes, Pipe([], 1, 1), c.sh.limits.openFiles);
    if p.None? then 0 else LostByReadEnd(WithPipe(c, pipes, p.value), p.value, cloexec, nonblock, k)
  }

  ghost function LostByReadEnd(c: Cpu, p: nat, cloexec: bool, nonblock: bool, k: nat): nat {
    var (descs, r) := Inserted(c.sh.descs, ReadEnd(p, nonblock), c.sh.limits.openFiles * 4);
    if r.None? then 0 else LostByWriteEnd(WithDescs(c, descs), p, r.value, cloexec, nonblock, k)
  }

  ghost function LostByWriteEnd(c: Cpu, p: nat, r: nat, cloexec: bool, nonblock: bool, k: nat): nat {
    var (descs, w) := Inserted(c.sh.descs, WriteEnd(p, nonblock), c.sh.limits.openFiles * 4);
    if w.None? then Unit(r == k) else LostByPipeFds(WithDescs(c, descs), r, w.value, cloexec, k)
  }

  /** With no descriptor for the reading end both descriptions are lost; with one for it but none
      for the writing end, only the writing end is. */
  ghost function LostByPipeFds(c: Cpu, r: nat, w: nat, cloexec: bool, k: nat): nat {
    var limit := c.sh.limits.openFiles;
    var (fds, readFd) := Allocated(c.ctx.task.fds, Fd(r, cloexec), 0, limit);
    if readFd.Err? then Unit(r == k) + Unit(w == k)
    else if LowestFree(fds, 0, limit).None? then Unit(w == k)
    else 0
  }

  /** References to `k` a call leaves behind with no slot to show for them. */
  ghost function LostDesc(c: Cpu, call: Call, k: nat): nat {
    if call.Files? then LostByFiles(c, call.files, k) else 0
  }

  ghost function LostByFiles(c: Cpu, call: FdCall, k: nat): nat {
    match call
    case DupAt(fd, min, _) => LostByDup(c, fd, Max(min, 0), k)
    case Dup3(from, to, _) => LostByDup3(c, from, to, k)
    case Pipe2(cloexec, nonblock, _) => LostByPipe(c, cloexec, nonblock, k)
    case _ => 0
  }

  /** Ends of pipe `p` counted though no description for them exists. */
  ghost function LostReader(c: Cpu, call: Call, p: nat): nat {
    if call.Files? && call.files.Pipe2? then LostReaderByPipe(c, call.files.nonblock, p) else 0
  }

  ghost function LostWriter(c: Cpu, call: Call, p: nat): nat {
    if call.Files? && call.files.Pipe2? then LostWriterByPipe(c, call.files.nonblock, p) else 0
  }

  ghost function LostReaderByPipe(c: Cpu, nonblock: bool, p: nat): nat {
    var (pipes, made) := Inserted(c.sh.pipes, Pipe([], 1, 1), c.sh.limits.openFiles);
    if made != Some(p) then 0
    else Unit(Inserted(c.sh.descs, ReadEnd(p, nonblock), c.sh.limits.openFiles * 4).1.None?)
  }

  ghost function LostWriterByPipe(c: Cpu, nonblock: bool, p: nat): nat {
    var (pipes, made) := Inserted(c.sh.pipes, Pipe([], 1, 1), c.sh.limits.openFiles);
    if made != Some(p) then 0
    else
      var (descs, r) := Inserted(c.sh.descs, ReadEnd(p, nonblock), c.sh.limits.openFiles * 4);
      Unit(r.None? || Inserted(descs, WriteEnd(p, nonblock), c.sh.limits.openFiles * 4).1.None?)
  }

  // ----- call by call: references --------------------------------------------------------

  lemma ReleaseFdsRefs(sh: Shared, fds: Slots, k: nat)
    requires DescsOk(sh.descs)
    ensures DescsOk(ReleaseFds(sh, fds).descs)
    ensures RefAt(ReleaseFds(sh, fds).descs, k) == SubSat(RefAt(sh.descs, k), Count(fds, k))
    ensures var after := ReleaseFds(sh, fds); after == sh.(descs := after.descs, pipes := after.pipes)
  {
    ReleaseAllFrame(sh, Drained(fds));
    ReleaseAllRefs(sh, Drained(fds), k);
    DrainedCounts(fds, k);
  }

  lemma ExitRefs(c: Cpu, code: int, k: nat, o: nat)
    requires Balanced(c, k, o)
    ensures Balanced(DoExit(c, code).1, k, o)
  {
    ReleaseFdsRefs(c.sh, c.ctx.task.fds, k);
  }

  lemma CloneRefs(c: Cpu, shape: bool, k: nat, o: nat)
    requires Balanced(c, k, o) && Roomy(c, Life(Clone(shape)), k)
    ensures Balanced(DoClone(c, shape).1, k, o)
  {
    var (sh, pid) := ForkRecord(c.sh, c.ctx.task);
    if shape && pid.Some? {
      DrainedCounts(c.ctx.task.fds, k);
      BumpedRefs(sh.descs, Drained(c.ctx.task.fds), k);
      var stack := c.ctx.vforkStack + [c.ctx.task];
      assert stack[..|stack| - 1] == c.ctx.vforkStack;
    }
  }

  lemma ExecveRefs(c: Cpu, program: nat, exe: string, argv: seq<seq<byte>>, envp: seq<seq<byte>>, k: nat, o: nat)
    requires Balanced(c, k, o) && c.ctx.execRequest.None?
    ensures Balanced(DoExecve(c, program, exe, argv, envp).1, k, o)
  {
    var closing := DrainedCloexec(c.ctx.task.fds);
    CountSplitOnExec(c.ctx.task.fds, k);
    ReleaseAllRefs(c.sh, closing, k);
    ReleaseAllFrame(c.sh, closing);
    var sh := ReleaseAll(c.sh, closing);
    var after := DoExecve(c, program, exe, argv, envp).1;
    if |c.ctx.vforkStack| > 0 {
      assert after.sh.spawn[..|after.sh.spawn| - 1] == c.sh.spawn;
    }
  }

  lemma CloseRefs(c: Cpu, fd: int, k: nat, o: nat)
    requires Balanced(c, k, o)
    ensures Balanced(DoClose(c, fd).1, k, o)
  {
    CountTaken(c.ctx.task.fds, fd, k);
    var (fds, r) := Taken(c.ctx.task.fds, fd);
    if r.Ok? {
      ReleaseFrame(c.sh, r.value.desc);
      ReleaseRefs(c.sh, r.value.desc, k);
    }
  }

  lemma DupRefs(c: Cpu, fd: int, min: nat, cloexec: bool, k: nat, o: nat)
    requires Balanced(c, k, o) && RefAt(c.sh.descs, k) < U32_MAX
    ensures Balanced(DoDupAt(c, fd, min, cloexec).1, k, o + LostByDup(c, fd, min, k))
  {
    var entry := Lookup(c.ctx.task.fds, fd);
    if entry.Ok? {
      var d := entry.value.desc;
      CountOpen(c.ctx.task.fds, fd);
      BumpedOneRefs(c.sh.descs, d, k);
      var found := LowestFree(c.ctx.task.fds, min, c.sh.limits.openFiles);
      if found.Some? {
        CountPlaced(c.ctx.task.fds, found.value, Fd(d, cloexec), k);
      }
    }
  }

  lemma Dup3Refs(c: Cpu, from: int, to: int, cloexec: bool, k: nat, o: nat)
    requires Balanced(c, k, o) && RefAt(c.sh.descs, k) < U32_MAX
    ensures Balanced(DoDup3(c, from, to, cloexec).1, k, o + LostByDup3(c, from, to, k))
  {
    hide ReleaseDesc, Placed, Sum;
    var entry := Lookup(c.ctx.task.fds, from);
    if from != to && entry.Ok? {
      var d := entry.value.desc;
      CountOpen(c.ctx.task.fds, from);
      BumpedOneRefs(c.sh.descs, d, k);
      if 0 <= to < c.sh.limits.openFiles {
        CountPlaced(c.ctx.task.fds, to, Fd(d, cloexec), k);
        if IsOpen(c.ctx.task.fds, to) {
          var sh := c.sh.(descs := BumpedOne(c.sh.descs, d));
          ReleaseFrame(sh, c.ctx.task.fds[to].value.desc);
          ReleaseRefs(sh, c.ctx.task.fds[to].value.desc, k);
        }
      }
    }
  }

  lemma OpenRefs(c: Cpu, d: Desc, cloexec: bool, k: nat, o: nat)
    requires Balanced(c, k, o) && d.refs == 1
    ensures Balanced(DoOpen(c, d, cloexec).1, k, o)
  {
    var (descs, key) := Inserted(c.sh.descs, d, c.sh.limits.openFiles * 4);
    InsertedRefs(c.sh.descs, d, c.sh.limits.openFiles * 4, k);
    if key.Some? {
      var found := LowestFree(c.ctx.task.fds, 0, c.sh.limits.openFiles);
      if found.Some? {
        CountPlaced(c.ctx.task.fds, found.value, Fd(key.value, cloexec), k);
      } else {
        var sh := c.sh.(descs := descs);
        ReleaseFrame(sh, key.value);
        ReleaseRefs(sh, key.value, k);
      }
    }
  }

  lemma PipeRefs(c: Cpu, cloexec: bool, nonblock: bool, copyOk: bool, k: nat, o: nat)
    requires Balanced(c, k, o)
    ensures Balanced(DoPipe2(c, cloexec, nonblock, copyOk).1, k, o + LostByPipe(c, cloexec, nonblock, k))
  {
    var (pipes, p) := Inserted(c.sh.pipes, Pipe([], 1, 1), c.sh.limits.openFiles);
    if p.Some? {
      ReadEndRefs(WithPipe(c, pipes, p.value), p.value, cloexec, nonblock, copyOk, k, o);
    }
  }

  lemma ReadEndRefs(c: Cpu, p: nat, cloexec: bool, nonblock: bool, copyOk: bool, k: nat, o: nat)
    requires Balanced(c, k, o)
    ensures Balanced(PipeReadEnd(c, p, cloexec, nonblock, copyOk).1, k, o + LostByReadEnd(c, p, cloexec, nonblock, k))
  {
    InsertedRefs(c.sh.descs, ReadEnd(p, nonblock), c.sh.limits.openFiles * 4, k);
    var (descs, r) := Inserted(c.sh.descs, ReadEnd(p, nonblock), c.sh.limits.openFiles * 4);
    if r.Some? {
      WriteEndRefs(WithDescs(c, descs), p, r.value, cloexec, nonblock, copyOk, k, o);
    }
  }

  lemma WriteEndRefs(c: Cpu, p: nat, r: nat, cloexec: bool, nonblock: bool, copyOk: bool, k: nat, o: nat)
    requires DescsOk(c.sh.descs) && Live(c.sh.descs, r)
    requires RefAt(c.sh.descs, k) == o + CpuCount(c, k) + Unit(r == k)
    ensures Balanced(PipeWriteEnd(c, p, r, cloexec, nonblock, copyOk).1, k,
      o + LostByWriteEnd(c, p, r, cloexec, nonblock, k))
  {
    InsertedRefs(c.sh.descs, WriteEnd(p, nonblock), c.sh.limits.openFiles * 4, k);
    InsertedRefs(c.sh.descs, WriteEnd(p, nonblock), c.sh.limits.openFiles * 4, r);
    var (descs, w) := Inserted(c.sh.descs, WriteEnd(p, nonblock), c.sh.limits.openFiles * 4);
    if w.Some? {
      PipeFdsRefs(WithDescs(c, descs), r, w.value, cloexec, copyOk, k, o);
    }
  }

  /** Both ends exist, one reference each and no slot yet: a descriptor found accounts for its end,
      one not found leaves the reference lost. */
  lemma PipeFdsRefs(c: Cpu, r: nat, w: nat, cloexec: bool, copyOk: bool, k: nat, o: nat)
    requires DescsOk(c.sh.descs) && r != w && Live(c.sh.descs, r)
    requires RefAt(c.sh.descs, k) == o + CpuCount(c, k) + Unit(r == k) + Unit(w == k)
    ensures Balanced(PipeFds(c, r, w, cloexec, copyOk).1, k, o + LostByPipeFds(c, r, w, cloexec, k))
  {
    hide ReleaseDesc, Placed, Sum, LowestFree;
    var limit := c.sh.limits.openFiles;
    var (fds1, readFd) := Allocated(c.ctx.task.fds, Fd(r, cloexec), 0, limit);
    if readFd.Ok? {
      CountPlaced(c.ctx.task.fds, readFd.value, Fd(r, cloexec), k);
      if LowestFree(fds1, 0, limit).Some? {
        CountPlaced(fds1, LowestFree(fds1, 0, limit).value, Fd(w, cloexec), k);
      } else {
        TakenBack(c, r, w, cloexec, copyOk);
        CountTaken(fds1, readFd.value, k);
        ReleaseFrame(c.sh, r);
        ReleaseRefs(c.sh, r, k);
      }
    }
  }

  /** The descriptor handed out for the reading end is the one taken back. */
  lemma TakenBack(c: Cpu, r: nat, w: nat, cloexec: bool, copyOk: bool)
    requires
      var limit := c.sh.limits.openFiles;
      var (fds1, readFd) := Allocated(c.ctx.task.fds, Fd(r, cloexec), 0, limit);
      readFd.Ok? && LowestFree(fds1, 0, limit).None?
    ensures
      var limit := c.sh.limits.openFiles;
      var (fds1, readFd) := Allocated(c.ctx.task.fds, Fd(r, cloexec), 0, limit);
      var (fds3, back) := Taken(fds1, readFd.value);
      && back == Ok(Fd(r, cloexec))
      && PipeFds(c, r, w, cloexec, copyOk) == (Fail(MFILE), WithFds(c, fds3).(sh := ReleaseDesc(c.sh, r)))
  {
  }

  lemma ReadDescRefs(sh: Shared, key: nat, d: Desc, len: nat, vfs: Vfs, k: nat)
    requires DescsOk(sh.descs) && At(sh.descs, key) == Some(d)
    ensures var after := ReadDesc(sh, key, d, len, vfs).1;
      && DescsOk(after.descs) && RefAt(after.descs, k) == RefAt(sh.descs, k)
      && after.spawn == sh.spawn && after.limits == sh.limits
  {
    hide Stored, LineLen;
    if d.kind.PipeRead? {
      ReadPipeFrame(sh, d.kind.pipe, d.nonblock, len);
    } else if d.kind == Other(Stdin) {
      ReadStdinFrame(sh, d.nonblock, len);
    } else if d.kind.Other? && d.kind.plain.Memory? {
      var start := Min(d.kind.plain.pos, |d.kind.plain.data|);
      var n := Min(|d.kind.plain.data| - start, len);
      StoredRefs(sh.descs, key, d.(kind := Other(Memory(d.kind.plain.data, start + n))), k);
    }
  }

  lemma ReadRefs(sh: Shared, t: Task, fd: int, len: nat, vfs: Vfs, k: nat)
    requires DescsOk(sh.descs)
    ensures var after := ReadBytes(sh, t, fd, len, vfs).1;
      && DescsOk(after.descs) && RefAt(after.descs, k) == RefAt(sh.descs, k)
      && after.spawn == sh.spawn && after.limits == sh.limits
  {
    var entry := Lookup(t.fds, fd);
    if entry.Ok? && Live(sh.descs, entry.value.desc) {
      ReadDescRefs(sh, entry.value.desc, At(sh.descs, entry.value.desc).value, len, vfs, k);
    }
  }

  lemma IovRefs(c: Cpu, reading: bool, fd: int, v: Iov, k: nat, o: nat)
    requires Balanced(c, k, o)
    ensures var after := DoIov(c, reading, fd, v).1;
      Balanced(after, k, o) && after.ctx == c.ctx && after.inst == c.inst
  {
    if reading {
      ReadRefs(c.sh, c.ctx.task, fd, Min(v.len, STAGING_MAX), v.vfs, k);
    } else {
      WriteFrame(c.sh, c.ctx.task, fd, v.data, v.vfs);
    }
  }

  lemma {:induction false} VectorRefs(c: Cpu, reading: bool, fd: int, iovs: seq<Iov>, i: nat, total: nat,
    k: nat, o: nat)
    requires i <= |iovs| && Balanced(c, k, o)
    ensures Balanced(DoVector(c, reading, fd, iovs, i, total).1, k, o)
    decreases |iovs| - i
  {
    if i < |iovs| && iovs[i].decodes {
      if IovLen(reading, iovs[i]) == 0 {
        VectorRefs(c, reading, fd, iovs, i + 1, total, k, o);
      } else {
        IovRefs(c, reading, fd, iovs[i], k, o);
        var (a, after) := DoIov(c, reading, fd, iovs[i]);
        if a.Value? && a.v >= IovLen(reading, iovs[i]) {
          VectorRefs(after, reading, fd, iovs, i + 1, Min(total + Max(a.v, 0), I32_MAX), k, o);
        }
      }
    }
  }

  lemma FlagsRefs(c: Cpu, fd: int, append: bool, nonblock: bool, k: nat, o: nat)
    requires Balanced(c, k, o)
    ensures Balanced(DoSetFlags(c, fd, append, nonblock).1, k, o)
  {
    var entry := Lookup(c.ctx.task.fds, fd);
    if entry.Ok? && Live(c.sh.descs, entry.value.desc) {
      StoredRefs(c.sh.descs, entry.value.desc,
        At(c.sh.descs, entry.value.desc).value.(append := append, nonblock := nonblock), k);
    }
  }

  lemma LifeRefs(c: Cpu, call: LifeCall, k: nat, o: nat)
    requires Balanced(c, k, o) && Roomy(c, Life(call), k) && c.ctx.execRequest.None?
    ensures Balanced(HandleLife(c, call).1, k, o)
  {
    match call
    case ExitCall(code) => ExitRefs(c, code, k, o);
    case Clone(shape) => CloneRefs(c, shape, k, o);
    case Execve(program, exe, argv, envp) => ExecveRefs(c, program, exe, argv, envp, k, o);
    case _ =>
  }

  lemma FilesRefs(c: Cpu, call: FdCall, k: nat, o: nat)
    requires Balanced(c, k, o) && RefAt(c.sh.descs, k) < U32_MAX
    ensures Balanced(HandleFiles(c, call).1, k, o + LostByFiles(c, call, k))
  {
    match call
    case Close(fd) => CloseRefs(c, fd, k, o);
    case DupAt(fd, min, cloexec) => DupRefs(c, fd, Max(min, 0), cloexec, k, o);
    case Dup3(from, to, cloexec) => Dup3Refs(c, from, to, cloexec, k, o);
    case SetCloexec(fd, on) => CountMarked(c.ctx.task.fds, fd, on, k);
    case SetFlags(fd, append, nonblock) => FlagsRefs(c, fd, append, nonblock, k, o);
    case Pipe2(cloexec, nonblock, copyOk) => PipeRefs(c, cloexec, nonblock, copyOk, k, o);
    case Open(plain, access, append, nonblock, cloexec) =>
      OpenRefs(c, Desc(Other(plain), access, append, nonblock, 1), cloexec, k, o);
  }

  lemma BytesRefs(c: Cpu, call: ByteCall, k: nat, o: nat)
    requires Balanced(c, k, o)
    ensures Balanced(HandleBytes(c, call).1, k, o)
  {
    match call
    case Read(fd, len, copyOk, vfs) => ReadRefs(c.sh, c.ctx.task, fd, Min(len, STAGING_MAX), vfs, k);
    case Write(fd, _, data, vfs) => WriteFrame(c.sh, c.ctx.task, fd, data, vfs);
    case Readv(fd, iovs) => VectorRefs(c, true, fd, iovs, 0, 0, k, o);
    case Writev(fd, iovs) => VectorRefs(c, false, fd, iovs, 0, 0, k, o);
  }

  /** Slots plus leaks account for every reference, whatever the call. */
  lemma HandleRefs(c: Cpu, call: Call, now: nat, k: nat, o: nat)
    requires Balanced(c, k, o) && Roomy(c, call, k) && c.ctx.execRequest.None?
    ensures Balanced(Handle(c, call, now).1, k, o + LostDesc(c, call, k))
  {
    match call
    case Life(life) => LifeRefs(c, life, k, o);
    case Own(own) => OwnFrame(c, own);
    case Wait(wait) => WaitFrame(c, wait, now);
    case Mem(mem) => MemFrame(c, mem);
    case Files(files) => FilesRefs(c, files, k, o);
    case Bytes(bytes) => BytesRefs(c, bytes, k, o);
    case FileCall(vfs) =>
    case Plainly(result) =>
  }

  lemma DispatchRefs(c: Cpu, call: Call, now: nat, k: nat, o: nat)
    requires Balanced(c, k, o) && Roomy(c, call, k) && c.ctx.execRequest.None?
    ensures Balanced(Dispatch(c, call, now).1, k, o + LostDesc(Counted(c), call, k))
  {
    hide Handle, Finished, LostDesc, DescsOk, Interrupted, LiveCount;
    HandleRefs(Counted(c), call, now, k, o);
    FinishFrame(Handle(Counted(c), call, now).1);
  }
}
