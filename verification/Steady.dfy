/** What lasts as long as a key does: a description that stays live keeps its kind and its access,
    whoever shares it, and the history of a pipe that stays live only grows. */
module Steady {
  import opened Base
  import opened Slabs
  import opened Sums
  import opened Fds
  import opened Kernel
  import opened Syscalls
  import opened HostSteps
  import opened Signals
  import opened Machine
  import opened References
  import opened CallFrames
  import opened HostFrames
  import opened Books
  import opened Fifo

  /** The same access and the same kind of thing; only the position in a text may differ. */
  ghost predicate Akin(d: Desc, e: Desc) {
    && e.access == d.access
    && (e.kind == d.kind
        || (d.kind.Other? && d.kind.plain.Memory? && e.kind.Other? && e.kind.plain.Memory?))
  }

  /** If description `k` is there afterwards it was there before, and is what it was. */
  ghost predicate Worn(descs: SlabState<Desc>, after: SlabState<Desc>, k: nat) {
    Live(after, k) ==> Live(descs, k) && Akin(At(descs, k).value, At(after, k).value)
  }

  /** If description `k` is there before and afterwards it is what it was. */
  ghost predicate Keeps(descs: SlabState<Desc>, after: SlabState<Desc>, k: nat) {
    Live(descs, k) && Live(after, k) ==> Akin(At(descs, k).value, At(after, k).value)
  }

  // ----- descriptions, call by call ------------------------------------------------------

  lemma ReleaseWorn(sh: Shared, key: nat, k: nat)
    ensures Worn(sh.descs, ReleaseDesc(sh, key).descs, k)
  {
  }

  lemma {:induction false} ReleaseAllWorn(sh: Shared, keys: seq<nat>, k: nat)
    ensures Worn(sh.descs, ReleaseAll(sh, keys).descs, k)
  {
    hide ReleaseDesc;
    if |keys| > 0 {
      ReleaseAllWorn(sh, keys[..|keys| - 1], k);
      ReleaseWorn(ReleaseAll(sh, keys[..|keys| - 1]), keys[|keys| - 1], k);
    }
  }

  lemma {:induction false} BumpedWorn(descs: SlabState<Desc>, keys: seq<nat>, k: nat)
    ensures Worn(descs, Bumped(descs, keys), k)
  {
    if |keys| > 0 {
      BumpedWorn(descs, keys[..|keys| - 1], k);
    }
  }

  lemma LifeWorn(c: Cpu, call: LifeCall, k: nat)
    ensures Worn(c.sh.descs, HandleLife(c, call).1.sh.descs, k)
  {
    hide ReleaseAll, ExitTable, Bumped, Drained, DrainedCloexec, KeptOnExec, SignalTable, FirstDead, Without, LiveCount;
    match call
    case ExitCall(code) => ReleaseAllWorn(c.sh, Drained(c.ctx.task.fds), k);
    case Clone(shape) => BumpedWorn(c.sh.descs, Drained(c.ctx.task.fds), k);
    case Execve(program, exe, argv, envp) => ReleaseAllWorn(c.sh, DrainedCloexec(c.ctx.task.fds), k);
    case _ =>
  }

  lemma PipeFdsWorn(c: Cpu, r: nat, w: nat, cloexec: bool, copyOk: bool, k: nat)
    ensures Worn(c.sh.descs, PipeFds(c, r, w, cloexec, copyOk).1.sh.descs, k)
  {
    hide ReleaseDesc, Allocated, Taken;
    var (fds1, readFd) := Allocated(c.ctx.task.fds, Fd(r, cloexec), 0, c.sh.limits.openFiles);
    if readFd.Ok? {
      var (fds3, back) := Taken(fds1, readFd.value);
      if back.Ok? {
        ReleaseWorn(c.sh, back.value.desc, k);
      }
    }
  }

  lemma PipeKeeps(c: Cpu, cloexec: bool, nonblock: bool, copyOk: bool, k: nat)
    requires Sound(c.sh.descs)
    ensures Keeps(c.sh.descs, DoPipe2(c, cloexec, nonblock, copyOk).1.sh.descs, k)
  {
    hide Inserted, PipeFds, Sound;
    var limit := c.sh.limits.openFiles;
    var (pipes, p) := Inserted(c.sh.pipes, Pipe([], 1, 1), limit);
    if p.Some? {
      var c1 := WithPipe(c, pipes, p.value);
      InsertedFresh(c.sh.descs, ReadEnd(p.value, nonblock), limit * 4);
      var (descs1, r) := Inserted(c1.sh.descs, ReadEnd(p.value, nonblock), limit * 4);
      if r.Some? {
        InsertedFresh(descs1, WriteEnd(p.value, nonblock), limit * 4);
        var (descs2, w) := Inserted(descs1, WriteEnd(p.value, nonblock), limit * 4);
        if w.Some? {
          PipeFdsWorn(WithDescs(WithDescs(c1, descs1), descs2), r.value, w.value, cloexec, copyOk, k);
        }
      }
    }
  }

  lemma OpenKeeps(c: Cpu, d: Desc, cloexec: bool, k: nat)
    requires Sound(c.sh.descs)
    ensures Keeps(c.sh.descs, DoOpen(c, d, cloexec).1.sh.descs, k)
  {
    hide Inserted, ReleaseDesc, Allocated, Sound;
    InsertedFresh(c.sh.descs, d, c.sh.limits.openFiles * 4);
    var (descs, key) := Inserted(c.sh.descs, d, c.sh.limits.openFiles * 4);
    if key.Some? {
      ReleaseWorn(c.sh.(descs := descs), key.value, k);
    }
  }

  lemma Dup3Worn(c: Cpu, from: int, to: int, cloexec: bool, k: nat)
    ensures Worn(c.sh.descs, DoDup3(c, from, to, cloexec).1.sh.descs, k)
  {
    hide ReleaseDesc, Placed;
    if IsOpen(c.ctx.task.fds, from) && IsOpen(c.ctx.task.fds, to) {
      ReleaseWorn(c.sh.(descs := BumpedOne(c.sh.descs, c.ctx.task.fds[from].value.desc)),
                  c.ctx.task.fds[to].value.desc, k);
    }
  }

  lemma FilesKeep(c: Cpu, call: FdCall, k: nat)
    requires Sound(c.sh.descs)
    ensures Keeps(c.sh.descs, HandleFiles(c, call).1.sh.descs, k)
  {
    hide DoPipe2, DoOpen, DoDup3, ReleaseDesc, LowestFree, Placed, Sound;
    match call
    case Close(fd) =>
      if IsOpen(c.ctx.task.fds, fd) {
        ReleaseWorn(c.sh, c.ctx.task.fds[fd].value.desc, k);
      }
    case Dup3(from, to, cloexec) => Dup3Worn(c, from, to, cloexec, k);
    case Pipe2(cloexec, nonblock, copyOk) => PipeKeeps(c, cloexec, nonblock, copyOk, k);
    case Open(plain, access, append, nonblock, cloexec) =>
      OpenKeeps(c, Desc(Other(plain), access, append, nonblock, 1), cloexec, k);
    case _ =>
  }

  lemma ReadWorn(sh: Shared, t: Task, fd: int, len: nat, vfs: Vfs, k: nat)
    ensures Worn(sh.descs, ReadBytes(sh, t, fd, len, vfs).1.descs, k)
  {
    hide ReadStdin, ReadPipe, Stored;
    if IsOpen(t.fds, fd) && Live(sh.descs, t.fds[fd].value.desc) {
      var key := t.fds[fd].value.desc;
      var d := At(sh.descs, key).value;
      if d.kind.PipeRead? {
        ReadPipeFrame(sh, d.kind.pipe, d.nonblock, len);
      } else if d.kind.Other? && d.kind.plain.Memory? {
        var start := Min(d.kind.plain.pos, |d.kind.plain.data|);
        var n := Min(|d.kind.plain.data| - start, len);
        StoredWorn(sh.descs, key, d.(kind := Other(Memory(d.kind.plain.data, start + n))), k);
      } else {
        ReadStdinFrame(sh, d.nonblock, len);
      }
    }
  }

  lemma StoredWorn(descs: SlabState<Desc>, key: nat, d: Desc, k: nat)
    requires Live(descs, key) && Akin(At(descs, key).value, d)
    ensures Worn(descs, Stored(descs, key, d), k)
  {
  }

  lemma IovWorn(c: Cpu, reading: bool, fd: int, v: Iov, k: nat)
    ensures Worn(c.sh.descs, DoIov(c, reading, fd, v).1.sh.descs, k)
  {
    hide ReadBytes, WriteBytes;
    if reading {
      ReadWorn(c.sh, c.ctx.task, fd, Min(v.len, STAGING_MAX), v.vfs, k);
    } else {
      WriteFrame(c.sh, c.ctx.task, fd, v.data, v.vfs);
    }
  }

  lemma {:induction false} VectorWorn(c: Cpu, reading: bool, fd: int, iovs: seq<Iov>, i: nat, total: nat, k: nat)
    requires i <= |iovs|
    ensures Worn(c.sh.descs, DoVector(c, reading, fd, iovs, i, total).1.sh.descs, k)
    decreases |iovs| - i
  {
    hide DoIov;
    if i < |iovs| && iovs[i].decodes {
      if IovLen(reading, iovs[i]) == 0 {
        VectorWorn(c, reading, fd, iovs, i + 1, total, k);
      } else {
        IovWorn(c, reading, fd, iovs[i], k);
        var (a, after) := DoIov(c, reading, fd, iovs[i]);
        if a.Value? && a.v >= IovLen(reading, iovs[i]) {
          VectorWorn(after, reading, fd, iovs, i + 1, Min(total + Max(a.v, 0), I32_MAX), k);
        }
      }
    }
  }

  lemma BytesWorn(c: Cpu, call: ByteCall, k: nat)
    ensures Worn(c.sh.descs, HandleBytes(c, call).1.sh.descs, k)
  {
    hide DoVector, ReadBytes, WriteBytes;
    match call
    case Read(fd, len, _, vfs) => ReadWorn(c.sh, c.ctx.task, fd, Min(len, STAGING_MAX), vfs, k);
    case Write(fd, _, data, vfs) => WriteFrame(c.sh, c.ctx.task, fd, data, vfs);
    case Readv(fd, iovs) => VectorWorn(c, true, fd, iovs, 0, 0, k);
    case Writev(fd, iovs) => VectorWorn(c, false, fd, iovs, 0, 0, k);
  }

  lemma DispatchKeeps(c: Cpu, call: Call, now: nat, k: nat)
    requires Sound(c.sh.descs)
    ensures Keeps(c.sh.descs, Dispatch(c, call, now).1.sh.descs, k)
  {
    hide HandleLife, HandleOwn, HandleFiles, HandleWait, HandleBytes, HandleMem, Finished, Interrupted, Sound;
    var counted := Counted(c);
    FinishFrame(Handle(counted, call, now).1);
    match call
    case Life(life) => LifeWorn(counted, life, k);
    case Own(own) => OwnFrame(counted, own);
    case Wait(wait) => WaitFrame(counted, wait, now);
    case Mem(mem) => MemFrame(counted, mem);
    case Files(files) => FilesKeep(counted, files, k);
    case Bytes(bytes) => BytesWorn(counted, bytes, k);
    case FileCall(vfs) =>
    case Plainly(result) =>
  }

  // ----- descriptions, move by move ------------------------------------------------------

  lemma {:induction false} StackEndsWorn(sh: Shared, task: Task, stack: seq<Task>, status: int, k: nat)
    ensures Worn(sh.descs, StackEnds(sh, task, stack, status).descs, k)
    decreases |stack|
  {
    hide ReleaseAll, ExitTable;
    ReleaseAllWorn(sh, Drained(task.fds), k);
    if |stack| > 0 {
      StackEndsWorn(TaskEnds(sh, task, StatusSignaled(SIGKILL)), stack[|stack| - 1], stack[..|stack| - 1], status, k);
    }
  }

  lemma FinishWorn(s: Session, i: nat, status: int, k: nat)
    requires i < |s.procs|
    ensures Worn(s.sh.descs, FinishProcess(s, i, status).sh.descs, k)
  {
    hide StackEnds;
    var q := s.procs[i];
    StackEndsWorn(Uncharged(s.sh, AddU64(q.charged, q.ctx.exec.grown)), q.ctx.task, q.ctx.vforkStack, status, k);
  }

  lemma {:induction false} KillWorn(s: Session, status: int, k: nat)
    ensures Worn(s.sh.descs, KillAll(s, status).sh.descs, k)
    decreases |s.procs|
  {
    hide FinishProcess;
    if |s.procs| > 0 {
      FinishWorn(s, 0, status, k);
      ShorterBy(s, status);
      KillWorn(FinishProcess(s, 0, status), status, k);
    }
  }

  lemma StartWorn(s: Session, spawn: Spawn, launch: Launch, k: nat)
    ensures Worn(s.sh.descs, Start(s, spawn, launch).0.sh.descs, k)
  {
    hide ReleaseAll, Drained;
    ReleaseAllWorn(s.sh, Drained(spawn.task.fds), k);
    var charge := AddU64(launch.Size(), ASYNCIFY_PAGES * PAGE);
    ReleaseAllWorn(Uncharged(Charged(s.sh, charge).0, charge), Drained(spawn.task.fds), k);
  }

  lemma StartNextWorn(s: Session, launch: Launch, k: nat)
    requires |s.sh.spawn| > 0
    ensures Worn(s.sh.descs, StartNext(s, launch).sh.descs, k)
  {
    hide Start, ExitTable;
    StartWorn(s.(sh := s.sh.(spawn := s.sh.spawn[1..])), s.sh.spawn[0], launch, k);
  }

  lemma ReplaceWorn(s: Session, i: nat, launch: Launch, k: nat)
    requires i < |s.procs| && s.procs[i].ctx.execRequest.Some?
    ensures Worn(s.sh.descs, ReplaceInstance(s, i, launch).sh.descs, k)
  {
    hide Start, ExitTable;
    var q := s.procs[i];
    StartWorn(s.(procs := Dropped(s.procs, i), sh := Uncharged(s.sh, AddU64(q.charged, q.ctx.exec.grown))),
              q.ctx.execRequest.value, launch, k);
  }

  lemma FetchWorn(s: Session, i: nat, k: nat)
    requires i < |s.procs|
    ensures Worn(s.sh.descs, Fetch(s, i).sh.descs, k)
  {
    hide NextSignal, FinishProcess, WithRecord;
    var q := s.procs[i];
    var pid := q.ctx.task.pid;
    var (d, left, t) := NextSignal(Pending(s.sh, pid), q.ctx.task);
    var r := Find(s.sh.table, pid);
    var sh := if r.Some? then s.sh.(table := WithRecord(s.sh.table, pid, r.value.(pending := left))) else s.sh;
    var exec := if d.NoSignal? && q.ctx.exec.hasFlag then q.ctx.exec.(flag := false) else q.ctx.exec;
    if d.Fatal? {
      FinishWorn(s.(sh := sh, procs := s.procs[i := q.(ctx := q.ctx.(task := t, exec := exec))]), i, d.status, k);
    }
  }

  lemma ServeKeeps(s: Session, i: nat, call: Call, now: nat, k: nat)
    requires i < |s.procs| && Sound(s.sh.descs)
    ensures Keeps(s.sh.descs, Serve(s, i, call, now).sh.descs, k)
  {
    hide Dispatch, FinishProcess, Sound;
    var q := s.procs[i];
    var c := Cpu(s.sh, q.ctx, q.inst);
    DispatchKeeps(c, call, now, k);
    var (a, after) := Dispatch(c, call, now);
    if a.Exits? {
      var q' := q.(ctx := after.ctx, inst := after.inst, resume := Running);
      FinishWorn(s.(sh := after.sh, procs := s.procs[i := q']), i, a.status, k);
    }
  }

  lemma {:induction false} DrainWorn(sh: Shared, t: Task, buffer: seq<byte>, vfs: seq<Vfs>, k: nat)
    ensures Worn(sh.descs, DrainStdin(sh, t, buffer, vfs).2.descs, k)
    decreases |vfs|
  {
    hide ReadBytes;
    if |vfs| > 0 {
      ReadWorn(sh, t, 0, CHUNK, vfs[0], k);
      var (got, sh') := ReadBytes(sh, t, 0, CHUNK, vfs[0]);
      if got.Got? && |got.bytes| > 0 {
        DrainWorn(sh', t, buffer + got.bytes, vfs[1..], k);
      }
    }
  }

  lemma HostWorn(s: Session, i: nat, o: HostOracle, k: nat)
    requires i < |s.procs| && s.procs[i].body.Host? && PhaseOk(s.procs[i].body.phase)
    ensures Worn(s.sh.descs, HostTurn(s, i, o).sh.descs, k)
  {
    hide DrainStdin, FlushBoth, FinishProcess;
    var q := s.procs[i];
    var t, ph := q.ctx.task, q.body.phase;
    if ph.Reading? {
      DrainWorn(s.sh, t, ph.buffer, o.ins, k);
      if !o.answer.NotYet? {
        BothFrame(if q.body.readsStdin then DrainStdin(s.sh, t, ph.buffer, o.ins).2 else s.sh, t, Started(o.answer),
                  o.outs, o.errs);
      }
    } else {
      BothFrame(s.sh, t, ph, o.outs, o.errs);
    }
    match StepHost(s.sh, t, q.body.readsStdin, ph, o)
    case None =>
    case Some((step, phase, sh)) =>
      if step.EndedWith? {
        FinishWorn(s.(sh := sh, procs := s.procs[i := q.(body := q.body.(phase := phase))]), i, step.status, k);
      }
  }

  /** A description that is there before a move and after it is the same thing open in the same
      way, whatever the move. */
  lemma StepKeeps(s: Session, m: Move, k: nat)
    requires Sound(s.sh.descs)
    ensures Keeps(s.sh.descs, Step(s, m).sh.descs, k)
  {
    hide Serve, FinishProcess, ReplaceInstance, StartNext, Fetch, HostTurn, KillAll, Sound;
    if Enabled(s, m) {
      match m
      case Syscall(i, call, now) => ServeKeeps(s, i, call, now, k);
      case Retry(i, call, now) => ServeKeeps(s, i, call, now, k);
      case Replace(i, launch) => ReplaceWorn(s, i, launch, k);
      case FetchSignal(i) => FetchWorn(s, i, k);
      case Gone(i, status, complaint) => FinishWorn(s.(sh := WriteOutput(s.sh, 2, complaint)), i, status, k);
      case StartSpawn(launch) => StartNextWorn(s, launch, k);
      case HostMove(i, o) => HostWorn(s, i, o, k);
      case WallClock(status) => KillWorn(s, status, k);
      case _ =>
    }
  }

  // ----- the history ---------------------------------------------------------------------

  /** The history only grows, and pipe `p` is not made anew. */
  ghost predicate Adds(log: seq<Event>, after: seq<Event>, p: nat) {
    log <= after && Made(p) !in after[|log|..]
  }

  lemma AddsTrans(a: seq<Event>, b: seq<Event>, c: seq<Event>, p: nat)
    requires Adds(a, b, p) && Adds(b, c, p)
    ensures Adds(a, c, p)
  {
    assert c[|a|..] == b[|a|..] + c[|b|..];
  }

  lemma AddsOne(log: seq<Event>, e: Event, p: nat)
    requires e != Made(p)
    ensures Adds(log, log + [e], p) && Adds(log, log, p)
  {
    assert (log + [e])[|log|..] == [e] && log[|log|..] == [];
  }

  /** End of file, once reported, has been reported. */
  lemma {:induction false} EofStays(log: seq<Event>, after: seq<Event>, p: nat)
    requires Adds(log, after, p) && EofSeen(log, p)
    ensures EofSeen(after, p)
  {
    if |log| == |after| {
      assert log == after;
    } else {
      var shorter := after[..|after| - 1];
      var last := after[|after| - 1];
      assert after[|log|..] == shorter[|log|..] + [last];
      assert last in after[|log|..];
      EofStays(log, shorter, p);
    }
  }

  lemma ReadAdds(sh: Shared, t: Task, fd: int, len: nat, vfs: Vfs, p: nat)
    ensures Adds(sh.log, ReadBytes(sh, t, fd, len, vfs).1.log, p)
  {
    hide LineLen, Stored, Adds;
    AddsOne(sh.log, Accepted(p, []), p);
    if IsOpen(t.fds, fd) && Live(sh.descs, t.fds[fd].value.desc) {
      var d := At(sh.descs, t.fds[fd].value.desc).value;
      if d.kind.PipeRead? && Live(sh.pipes, d.kind.pipe) {
        var q := At(sh.pipes, d.kind.pipe).value;
        AddsOne(sh.log, EndOfFile(d.kind.pipe), p);
        AddsOne(sh.log, Returned(d.kind.pipe, q.data[..Min(|q.data|, len)]), p);
      }
    }
  }

  lemma WriteAdds(sh: Shared, t: Task, fd: int, data: seq<byte>, vfs: Vfs, p: nat)
    ensures Adds(sh.log, WriteBytes(sh, t, fd, data, vfs).1.log, p)
  {
    hide Stored, Raised, Adds;
    AddsOne(sh.log, Accepted(p, []), p);
    if IsOpen(t.fds, fd) && Live(sh.descs, t.fds[fd].value.desc) {
      var d := At(sh.descs, t.fds[fd].value.desc).value;
      if d.kind.PipeWrite? && Live(sh.pipes, d.kind.pipe) {
        var q := At(sh.pipes, d.kind.pipe).value;
        AddsOne(sh.log, Accepted(d.kind.pipe, data[..Min(q.Room(), |data|)]), p);
      }
    }
  }

  lemma IovAdds(c: Cpu, reading: bool, fd: int, v: Iov, p: nat)
    ensures Adds(c.sh.log, DoIov(c, reading, fd, v).1.sh.log, p)
  {
    hide ReadBytes, WriteBytes, Adds;
    AddsOne(c.sh.log, Accepted(p, []), p);
    if reading {
      ReadAdds(c.sh, c.ctx.task, fd, Min(v.len, STAGING_MAX), v.vfs, p);
    } else {
      WriteAdds(c.sh, c.ctx.task, fd, v.data, v.vfs, p);
    }
  }

  lemma {:induction false} VectorAdds(c: Cpu, reading: bool, fd: int, iovs: seq<Iov>, i: nat, total: nat, p: nat)
    requires i <= |iovs|
    ensures Adds(c.sh.log, DoVector(c, reading, fd, iovs, i, total).1.sh.log, p)
    decreases |iovs| - i
  {
    hide DoIov, Adds;
    AddsOne(c.sh.log, Accepted(p, []), p);
    if i < |iovs| && iovs[i].decodes {
      if IovLen(reading, iovs[i]) == 0 {
        VectorAdds(c, reading, fd, iovs, i + 1, total, p);
      } else {
        IovAdds(c, reading, fd, iovs[i], p);
        var (a, after) := DoIov(c, reading, fd, iovs[i]);
        if a.Value? && a.v >= IovLen(reading, iovs[i]) {
          var sum := Min(total + Max(a.v, 0), I32_MAX);
          VectorAdds(after, reading, fd, iovs, i + 1, sum, p);
          AddsTrans(c.sh.log, after.sh.log, DoVector(after, reading, fd, iovs, i + 1, sum).1.sh.log, p);
        }
      }
    }
  }

  lemma BytesAdds(c: Cpu, call: ByteCall, p: nat)
    ensures Adds(c.sh.log, HandleBytes(c, call).1.sh.log, p)
  {
    hide DoVector, ReadBytes, WriteBytes, Adds;
    AddsOne(c.sh.log, Accepted(p, []), p);
    match call
    case Read(fd, len, _, vfs) => ReadAdds(c.sh, c.ctx.task, fd, Min(len, STAGING_MAX), vfs, p);
    case Write(fd, _, data, vfs) => WriteAdds(c.sh, c.ctx.task, fd, data, vfs, p);
    case Readv(fd, iovs) => VectorAdds(c, true, fd, iovs, 0, 0, p);
    case Writev(fd, iovs) => VectorAdds(c, false, fd, iovs, 0, 0, p);
  }

  lemma FilesAdd(c: Cpu, call: FdCall, p: nat)
    requires Sound(c.sh.pipes) && Live(c.sh.pipes, p)
    ensures Adds(c.sh.log, HandleFiles(c, call).1.sh.log, p)
  {
    hide HandleFiles, Adds, Sound, Inserted;
    AddsOne(c.sh.log, Accepted(p, []), p);
    if call.Pipe2? {
      PipeAdds(c, call.cloexec, call.nonblock, call.copyOk, p);
    } else {
      OthersQuiet(c, call, p);
    }
    HandlesPipe(c, call);
  }

  lemma HandlesPipe(c: Cpu, call: FdCall)
    ensures call.Pipe2? ==> HandleFiles(c, call) == DoPipe2(c, call.cloexec, call.nonblock, call.copyOk)
  {
  }

  lemma PipeAdds(c: Cpu, cloexec: bool, nonblock: bool, copyOk: bool, p: nat)
    requires Sound(c.sh.pipes) && Live(c.sh.pipes, p)
    ensures Adds(c.sh.log, DoPipe2(c, cloexec, nonblock, copyOk).1.sh.log, p)
  {
    hide Inserted, PipeReadEnd, Sound, Adds;
    AddsOne(c.sh.log, Accepted(p, []), p);
    InsertedFresh(c.sh.pipes, Pipe([], 1, 1), c.sh.limits.openFiles);
    var (pipes, made) := Inserted(c.sh.pipes, Pipe([], 1, 1), c.sh.limits.openFiles);
    if made.Some? {
      var c1 := WithPipe(c, pipes, made.value);
      PipeEndsQuiet(c1, made.value, cloexec, nonblock, copyOk, p);
      AddsOne(c.sh.log, Made(made.value), p);
    }
  }

  lemma DispatchAdds(c: Cpu, call: Call, now: nat, p: nat)
    requires Sound(c.sh.pipes) && Live(c.sh.pipes, p)
    ensures Adds(c.sh.log, Dispatch(c, call, now).1.sh.log, p)
  {
    hide HandleLife, HandleOwn, HandleFiles, HandleWait, HandleBytes, HandleMem, Finished, Interrupted, Sound, Adds;
    var counted := Counted(c);
    FinishFrame(Handle(counted, call, now).1);
    AddsOne(c.sh.log, Accepted(p, []), p);
    match call
    case Life(life) => LifeQuiet(counted, life, p);
    case Own(own) => OwnFrame(counted, own);
    case Wait(wait) => WaitFrame(counted, wait, now);
    case Mem(mem) => MemFrame(counted, mem);
    case Files(files) => FilesAdd(counted, files, p);
    case Bytes(bytes) => BytesAdds(counted, bytes, p);
    case FileCall(vfs) =>
    case Plainly(result) =>
  }

  lemma ServeAdds(s: Session, i: nat, call: Call, now: nat, p: nat)
    requires i < |s.procs| && Sound(s.sh.pipes) && Live(s.sh.pipes, p)
    ensures Adds(s.sh.log, Serve(s, i, call, now).sh.log, p)
  {
    hide Dispatch, FinishProcess, Sound, Adds;
    var q := s.procs[i];
    var c := Cpu(s.sh, q.ctx, q.inst);
    DispatchAdds(c, call, now, p);
    var (a, after) := Dispatch(c, call, now);
    if a.Exits? {
      var q' := q.(ctx := after.ctx, inst := after.inst, resume := Running);
      FinishQuiet(s.(sh := after.sh, procs := s.procs[i := q']), i, a.status, p);
    }
  }

  lemma {:induction false} DrainAdds(sh: Shared, t: Task, buffer: seq<byte>, vfs: seq<Vfs>, p: nat)
    ensures Adds(sh.log, DrainStdin(sh, t, buffer, vfs).2.log, p)
    decreases |vfs|
  {
    hide ReadBytes, Adds;
    AddsOne(sh.log, Accepted(p, []), p);
    if |vfs| > 0 {
      ReadAdds(sh, t, 0, CHUNK, vfs[0], p);
      var (got, sh') := ReadBytes(sh, t, 0, CHUNK, vfs[0]);
      if got.Got? && |got.bytes| > 0 {
        DrainAdds(sh', t, buffer + got.bytes, vfs[1..], p);
        AddsTrans(sh.log, sh'.log, DrainStdin(sh', t, buffer + got.bytes, vfs[1..]).2.log, p);
      }
    }
  }

  lemma {:induction false} FlushAdds(sh: Shared, t: Task, fd: int, bytes: seq<byte>, done: nat, vfs: seq<Vfs>, i: nat,
                                     p: nat)
    requires done <= |bytes|
    ensures Adds(sh.log, FlushTo(sh, t, fd, bytes, done, vfs, i).2.log, p)
    decreases |bytes| - done
  {
    hide WriteBytes, Adds;
    AddsOne(sh.log, Accepted(p, []), p);
    if done < |bytes| {
      WriteAdds(sh, t, fd, bytes[done..], VfsAt(vfs, i), p);
      var (put, sh') := WriteBytes(sh, t, fd, bytes[done..], VfsAt(vfs, i));
      if put.Put? && put.count > 0 {
        FlushAdds(sh', t, fd, bytes, done + put.count, vfs, i + 1, p);
        AddsTrans(sh.log, sh'.log, FlushTo(sh', t, fd, bytes, done + put.count, vfs, i + 1).2.log, p);
      }
    }
  }

  lemma BothAdd(sh: Shared, t: Task, ph: Phase, vfsOut: seq<Vfs>, vfsErr: seq<Vfs>, p: nat)
    requires ph.Flushing? && PhaseOk(ph)
    ensures Adds(sh.log, FlushBoth(sh, t, ph, vfsOut, vfsErr).2.log, p)
  {
    hide FlushTo, Adds;
    FlushAdds(sh, t, 1, ph.out, ph.outDone, vfsOut, 0, p);
    var (f1, outDone, sh1) := FlushTo(sh, t, 1, ph.out, ph.outDone, vfsOut, 0);
    FlushAdds(sh1, t, 2, ph.err, ph.errDone, vfsErr, 0, p);
    AddsTrans(sh.log, sh1.log, FlushTo(sh1, t, 2, ph.err, ph.errDone, vfsErr, 0).2.log, p);
  }

  lemma StepHostAdds(sh: Shared, t: Task, readsStdin: bool, ph: Phase, o: HostOracle, p: nat)
    requires PhaseOk(ph)
    ensures var r := StepHost(sh, t, readsStdin, ph, o); r.Some? ==> Adds(sh.log, r.value.2.log, p)
  {
    hide DrainStdin, FlushBoth, Adds;
    match ph
    case Flushing(_, _, _, _, _) => BothAdd(sh, t, ph, o.outs, o.errs, p);
    case Reading(buffer) =>
      DrainAdds(sh, t, buffer, o.ins, p);
      AddsOne(sh.log, Accepted(p, []), p);
      if !o.answer.NotYet? {
        var sh1 := if readsStdin then DrainStdin(sh, t, buffer, o.ins).2 else sh;
        BothAdd(sh1, t, Started(o.answer), o.outs, o.errs, p);
        AddsTrans(sh.log, sh1.log, FlushBoth(sh1, t, Started(o.answer), o.outs, o.errs).2.log, p);
      }
  }

  lemma HostAdds(s: Session, i: nat, o: HostOracle, p: nat)
    requires i < |s.procs| && s.procs[i].body.Host? && PhaseOk(s.procs[i].body.phase)
    ensures Adds(s.sh.log, HostTurn(s, i, o).sh.log, p)
  {
    hide StepHost, FinishProcess, Adds;
    var q := s.procs[i];
    AddsOne(s.sh.log, Accepted(p, []), p);
    StepHostAdds(s.sh, q.ctx.task, q.body.readsStdin, q.body.phase, o, p);
    match StepHost(s.sh, q.ctx.task, q.body.readsStdin, q.body.phase, o)
    case None =>
    case Some((step, phase, sh)) =>
      if step.EndedWith? {
        FinishQuiet(s.(sh := sh, procs := s.procs[i := q.(body := q.body.(phase := phase))]), i, step.status, p);
      }
  }

  /** While a pipe lives its history only grows. */
  lemma StepAdds(s: Session, m: Move, p: nat)
    requires Sound(s.sh.pipes) && Live(s.sh.pipes, p)
    ensures Adds(s.sh.log, Step(s, m).sh.log, p)
  {
    hide Serve, FinishProcess, ReplaceInstance, StartNext, Fetch, HostTurn, KillAll, Sound, Adds;
    AddsOne(s.sh.log, Accepted(p, []), p);
    if Enabled(s, m) {
      match m
      case Syscall(i, call, now) => ServeAdds(s, i, call, now, p);
      case Retry(i, call, now) => ServeAdds(s, i, call, now, p);
      case Replace(i, launch) => ReplaceQuiet(s, i, launch, p);
      case FetchSignal(i) => FetchQuiet(s, i, p);
      case Gone(i, status, complaint) => GoneQuiet(s, i, status, complaint, p);
      case StartSpawn(launch) => StartNextQuiet(s, launch, p);
      case HostMove(i, o) => HostAdds(s, i, o, p);
      case WallClock(status) => KillQuiet(s, status, p);
      case _ =>
    }
  }
}
