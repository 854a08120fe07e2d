/** Pipes over whole runs: what was written, in order, is what was read followed by what is
    buffered; the buffer is bounded; and end of file, once reported, stays. */
module Fifo {
  import opened Base
  import opened Slabs
  import opened Sums
  import opened Fds
  import opened Kernel
  import opened Syscalls
  import opened HostSteps
  import opened Signals
  import opened Machine
  import opened References
  import opened CallFrames
  import opened RefCalls
  import opened PipeCalls
  import opened HostFrames
  import opened SessionRefs
  import opened Books
  import opened RefTheorems

  // ----- reading the history -------------------------------------------------------------

  /** Bytes accepted from writers since pipe `p` was last made. */
  ghost function Written(log: seq<Event>, p: nat): seq<byte> {
    if |log| == 0 then []
    else match log[|log| - 1]
      case Made(q) => if q == p then [] else Written(log[..|log| - 1], p)
      case Accepted(q, bytes) => Written(log[..|log| - 1], p) + if q == p then bytes else []
      case _ => Written(log[..|log| - 1], p)
  }

  /** Bytes returned to readers since pipe `p` was last made. */
  ghost function Seen(log: seq<Event>, p: nat): seq<byte> {
    if |log| == 0 then []
    else match log[|log| - 1]
      case Made(q) => if q == p then [] else Seen(log[..|log| - 1], p)
      case Returned(q, bytes) => Seen(log[..|log| - 1], p) + if q == p then bytes else []
      case _ => Seen(log[..|log| - 1], p)
  }

  /** Whether a read of pipe `p` has reported end of file since it was last made. */
  ghost predicate EofSeen(log: seq<Event>, p: nat) {
    |log| > 0 &&
    match log[|log| - 1]
    case Made(q) => q != p && EofSeen(log[..|log| - 1], p)
    case EndOfFile(q) => q == p || EofSeen(log[..|log| - 1], p)
    case _ => EofSeen(log[..|log| - 1], p)
  }

  ghost predicate FifoOk(sh: Shared, p: nat) {
    match At(sh.pipes, p)
    case None => true
    case Some(q) =>
      && Written(sh.log, p) == Seen(sh.log, p) + q.data
      && |q.data| <= PIPE_CAPACITY
      && (EofSeen(sh.log, p) ==> q.data == [] && q.writers == 0)
  }

  /** Nothing moves through pipe `p`; it may lose ends, or go. */
  ghost predicate Quiet(sh: Shared, after: Shared, p: nat) {
    && after.log == sh.log
    && match At(after.pipes, p)
       case None => true
       case Some(q) =>
         At(sh.pipes, p).Some? && q.data == At(sh.pipes, p).value.data && q.writers <= At(sh.pipes, p).value.writers
  }

  lemma QuietFifo(sh: Shared, after: Shared, p: nat)
    requires FifoOk(sh, p) && Quiet(sh, after, p)
    ensures FifoOk(after, p)
  {
  }

  lemma OneMore(log: seq<Event>, e: Event)
    ensures (log + [e])[..|log + [e]| - 1] == log
  {
  }

  // ----- releasing -----------------------------------------------------------------------

  lemma ReleaseQuiet(sh: Shared, key: nat, p: nat)
    ensures Quiet(sh, ReleaseDesc(sh, key), p)
  {
  }

  lemma {:induction false} ReleaseAllQuiet(sh: Shared, keys: seq<nat>, p: nat)
    ensures Quiet(sh, ReleaseAll(sh, keys), p)
  {
    hide ReleaseDesc;
    if |keys| > 0 {
      ReleaseAllQuiet(sh, keys[..|keys| - 1], p);
      ReleaseQuiet(ReleaseAll(sh, keys[..|keys| - 1]), keys[|keys| - 1], p);
    }
  }

  lemma LifeQuiet(c: Cpu, call: LifeCall, p: nat)
    ensures Quiet(c.sh, HandleLife(c, call).1.sh, p)
  {
    hide ReleaseAll, SetExit, ForkRecord, Bumped, Drained, DrainedCloexec, KeptOnExec, SignalTable, FirstDead, Without;
    match call
    case ExitCall(code) => ReleaseAllQuiet(c.sh, Drained(c.ctx.task.fds), p); EndQuiet(c, code, p);
    case Clone(shape) => ForkQuiet(c, p);
    case Execve(program, exe, argv, envp) => ReleaseAllQuiet(c.sh, DrainedCloexec(c.ctx.task.fds), p);
    case _ =>
  }

  lemma EndQuiet(c: Cpu, code: int, p: nat)
    ensures var r := ReleaseFds(c.sh, c.ctx.task.fds); Quiet(r, SetExit(r, c.ctx.task.pid, StatusExited(code)), p)
  {
    hide ReleaseFds, ExitTable;
  }

  lemma ForkQuiet(c: Cpu, p: nat)
    ensures Quiet(c.sh, ForkRecord(c.sh, c.ctx.task).0, p)
  {
    hide LiveCount;
  }

  // ----- making --------------------------------------------------------------------------

  lemma PipeFdsQuiet(c: Cpu, r: nat, w: nat, cloexec: bool, copyOk: bool, p: nat)
    ensures Quiet(c.sh, PipeFds(c, r, w, cloexec, copyOk).1.sh, p)
  {
    hide ReleaseDesc, Allocated, Taken;
    var limit := c.sh.limits.openFiles;
    var (fds1, readFd) := Allocated(c.ctx.task.fds, Fd(r, cloexec), 0, limit);
    if readFd.Ok? {
      var (fds3, back) := Taken(fds1, readFd.value);
      if back.Ok? {
        ReleaseQuiet(c.sh, back.value.desc, p);
      }
    }
  }

  lemma PipeEndsQuiet(c: Cpu, made: nat, cloexec: bool, nonblock: bool, copyOk: bool, p: nat)
    ensures Quiet(c.sh, PipeReadEnd(c, made, cloexec, nonblock, copyOk).1.sh, p)
  {
    hide Inserted, PipeFds;
    var limit := c.sh.limits.openFiles;
    var (descs1, r) := Inserted(c.sh.descs, ReadEnd(made, nonblock), limit * 4);
    if r.Some? {
      var c2 := WithDescs(c, descs1);
      var (descs2, w) := Inserted(c2.sh.descs, WriteEnd(made, nonblock), limit * 4);
      if w.Some? {
        PipeFdsQuiet(WithDescs(c2, descs2), r.value, w.value, cloexec, copyOk, p);
      }
    }
  }

  /** A new pipe starts a new history, whatever its key was used for before. */
  lemma MadeFifo(c: Cpu, p: nat)
    requires Sound(c.sh.pipes) && FifoOk(c.sh, p)
    ensures var (pipes, made) := Inserted(c.sh.pipes, Pipe([], 1, 1), c.sh.limits.openFiles);
      if made.Some? then FifoOk(WithPipe(c, pipes, made.value).sh, p) else pipes == c.sh.pipes
  {
    hide Inserted, Sound;
    InsertedFresh(c.sh.pipes, Pipe([], 1, 1), c.sh.limits.openFiles);
    var (pipes, made) := Inserted(c.sh.pipes, Pipe([], 1, 1), c.sh.limits.openFiles);
    if made.Some? {
      OneMore(c.sh.log, Made(made.value));
    }
  }

  lemma Pipe2Fifo(c: Cpu, cloexec: bool, nonblock: bool, copyOk: bool, p: nat)
    requires Sound(c.sh.pipes) && FifoOk(c.sh, p)
    ensures FifoOk(DoPipe2(c, cloexec, nonblock, copyOk).1.sh, p)
  {
    hide PipeReadEnd, FifoOk, Inserted, Sound;
    var (pipes, made) := Inserted(c.sh.pipes, Pipe([], 1, 1), c.sh.limits.openFiles);
    MadeFifo(c, p);
    if made.Some? {
      var c1 := WithPipe(c, pipes, made.value);
      PipeEndsQuiet(c1, made.value, cloexec, nonblock, copyOk, p);
      QuietFifo(c1.sh, PipeReadEnd(c1, made.value, cloexec, nonblock, copyOk).1.sh, p);
    } else {
      assert c.sh.(pipes := pipes) == c.sh;
    }
  }

  lemma FilesFifo(c: Cpu, call: FdCall, p: nat)
    requires Sound(c.sh.pipes) && FifoOk(c.sh, p)
    ensures FifoOk(HandleFiles(c, call).1.sh, p)
  {
    hide DoPipe2, FifoOk, ReleaseDesc, Inserted, BumpedOne, LowestFree, Placed, Sound, Stored;
    match call
    case Pipe2(cloexec, nonblock, copyOk) => Pipe2Fifo(c, cloexec, nonblock, copyOk, p);
    case _ => OthersQuiet(c, call, p); QuietFifo(c.sh, HandleFiles(c, call).1.sh, p);
  }

  lemma OthersQuiet(c: Cpu, call: FdCall, p: nat)
    requires !call.Pipe2?
    ensures Quiet(c.sh, HandleFiles(c, call).1.sh, p)
  {
    hide DoPipe2, ReleaseDesc, Inserted, BumpedOne, LowestFree, Placed, Stored;
    match call
    case Close(fd) =>
      if IsOpen(c.ctx.task.fds, fd) {
        ReleaseQuiet(c.sh, c.ctx.task.fds[fd].value.desc, p);
      }
    case Dup3(from, to, cloexec) =>
      if IsOpen(c.ctx.task.fds, from) && IsOpen(c.ctx.task.fds, to) {
        ReleaseQuiet(c.sh.(descs := BumpedOne(c.sh.descs, c.ctx.task.fds[from].value.desc)),
          c.ctx.task.fds[to].value.desc, p);
      }
    case Open(plain, access, append, nonblock, cloexec) =>
      var (descs, key) := Inserted(c.sh.descs, Desc(Other(plain), access, append, nonblock, 1),
        c.sh.limits.openFiles * 4);
      if key.Some? {
        ReleaseQuiet(c.sh.(descs := descs), key.value, p);
      }
    case _ =>
  }

  // ----- moving bytes --------------------------------------------------------------------

  /** A read returns the oldest bytes buffered and logs exactly what it returns. */
  lemma ReadPipeFifo(sh: Shared, r: nat, nonblock: bool, len: nat, p: nat)
    requires FifoOk(sh, p)
    ensures var (got, after) := ReadPipe(sh, r, nonblock, len);
      && FifoOk(after, p)
      && Written(after.log, p) == Written(sh.log, p)
      && Seen(after.log, p) == Seen(sh.log, p) + (if got.Got? && r == p && Live(sh.pipes, p) then got.bytes else [])
  {
    if Live(sh.pipes, r) {
      var q := At(sh.pipes, r).value;
      var n := Min(|q.data|, len);
      OneMore(sh.log, EndOfFile(r));
      OneMore(sh.log, Returned(r, q.data[..n]));
      assert q.data == q.data[..n] + q.data[n..];
      if r == p && |q.data| > 0 {
        assert Seen(sh.log, p) + q.data == Seen(sh.log, p) + q.data[..n] + q.data[n..];
      }
    }
  }

  /** A write is accepted behind what is buffered and logs exactly what it accepted; with writers
      counted it cannot come after end of file. */
  lemma WritePipeFifo(sh: Shared, pid: int, w: nat, nonblock: bool, data: seq<byte>, p: nat)
    requires FifoOk(sh, p) && (w == p && Live(sh.pipes, p) ==> At(sh.pipes, p).value.writers > 0)
    ensures var (put, after) := WritePipe(sh, pid, w, nonblock, data);
      && FifoOk(after, p)
      && Seen(after.log, p) == Seen(sh.log, p)
      && Written(after.log, p) == Written(sh.log, p) + (if put.Put? && w == p then data[..put.count] else [])
  {
    hide Raised;
    if Live(sh.pipes, w) {
      var q := At(sh.pipes, w).value;
      var n := Min(q.Room(), |data|);
      OneMore(sh.log, Accepted(w, data[..n]));
      if w == p {
        assert Seen(sh.log, p) + q.data + data[..n] == Seen(sh.log, p) + (q.data + data[..n]);
      }
    }
  }

  lemma ReadFifo(sh: Shared, t: Task, fd: int, len: nat, vfs: Vfs, p: nat)
    requires FifoOk(sh, p)
    ensures FifoOk(ReadBytes(sh, t, fd, len, vfs).1, p)
  {
    hide ReadPipe, Written, Seen, EofSeen, LineLen, Stored;
    if len > 0 && IsOpen(t.fds, fd) && Live(sh.descs, t.fds[fd].value.desc) {
      var d := At(sh.descs, t.fds[fd].value.desc).value;
      if d.kind.PipeRead? {
        ReadPipeFifo(sh, d.kind.pipe, d.nonblock, len, p);
      }
    }
  }

  lemma WriteFifo(sh: Shared, t: Task, fd: int, data: seq<byte>, vfs: Vfs, p: nat, lostR: nat, lostW: nat)
    requires FifoOk(sh, p) && PipesOk(sh, p, lostR, lostW)
    ensures FifoOk(WriteBytes(sh, t, fd, data, vfs).1, p)
  {
    hide WritePipe, Written, Seen, EofSeen, Sound, WriteOutput;
    if IsOpen(t.fds, fd) && Live(sh.descs, t.fds[fd].value.desc) {
      var d := At(sh.descs, t.fds[fd].value.desc).value;
      if d.kind.PipeWrite? {
        EndCounted(sh.descs, t.fds[fd].value.desc);
        WritePipeFifo(sh, t.pid, d.kind.pipe, d.nonblock, data, p);
      } else {
        OutputQuiet(sh, data);
      }
    }
  }

  lemma OutputQuiet(sh: Shared, data: seq<byte>)
    ensures forall which :: var after := WriteOutput(sh, which, data); after.pipes == sh.pipes && after.log == sh.log
  {
  }

  lemma IovFifo(c: Cpu, reading: bool, fd: int, v: Iov, p: nat, lostR: nat, lostW: nat)
    requires FifoOk(c.sh, p) && PipesOk(c.sh, p, lostR, lostW)
    ensures FifoOk(DoIov(c, reading, fd, v).1.sh, p)
  {
    hide ReadBytes, WriteBytes, FifoOk, PipesOk;
    if reading {
      ReadFifo(c.sh, c.ctx.task, fd, Min(v.len, STAGING_MAX), v.vfs, p);
    } else {
      WriteFifo(c.sh, c.ctx.task, fd, v.data, v.vfs, p, lostR, lostW);
    }
  }

  lemma {:induction false} VectorFifo(c: Cpu, reading: bool, fd: int, iovs: seq<Iov>, i: nat, total: nat, p: nat,
    lostR: nat, lostW: nat)
    requires i <= |iovs| && FifoOk(c.sh, p) && PipesOk(c.sh, p, lostR, lostW)
    ensures FifoOk(DoVector(c, reading, fd, iovs, i, total).1.sh, p)
    decreases |iovs| - i
  {
    hide DoIov, FifoOk, PipesOk;
    if i < |iovs| && iovs[i].decodes {
      if IovLen(reading, iovs[i]) == 0 {
        VectorFifo(c, reading, fd, iovs, i + 1, total, p, lostR, lostW);
      } else {
        IovPipes(c, reading, fd, iovs[i], p, lostR, lostW);
        IovFifo(c, reading, fd, iovs[i], p, lostR, lostW);
        var (a, after) := DoIov(c, reading, fd, iovs[i]);
        if a.Value? && a.v >= IovLen(reading, iovs[i]) {
          VectorFifo(after, reading, fd, iovs, i + 1, Min(total + Max(a.v, 0), I32_MAX), p, lostR, lostW);
        }
      }
    }
  }

  lemma BytesFifo(c: Cpu, call: ByteCall, p: nat, lostR: nat, lostW: nat)
    requires FifoOk(c.sh, p) && PipesOk(c.sh, p, lostR, lostW)
    ensures FifoOk(HandleBytes(c, call).1.sh, p)
  {
    hide DoVector, ReadBytes, WriteBytes, FifoOk, PipesOk;
    match call
    case Read(fd, len, _, vfs) => ReadFifo(c.sh, c.ctx.task, fd, Min(len, STAGING_MAX), vfs, p);
    case Write(fd, _, data, vfs) => WriteFifo(c.sh, c.ctx.task, fd, data, vfs, p, lostR, lostW);
    case Readv(fd, iovs) => VectorFifo(c, true, fd, iovs, 0, 0, p, lostR, lostW);
    case Writev(fd, iovs) => VectorFifo(c, false, fd, iovs, 0, 0, p, lostR, lostW);
  }

  lemma HandleFifo(c: Cpu, call: Call, now: nat, p: nat, lostR: nat, lostW: nat)
    requires FifoOk(c.sh, p) && PipesOk(c.sh, p, lostR, lostW)
    ensures FifoOk(Handle(c, call, now).1.sh, p)
  {
    hide HandleLife, HandleFiles, HandleBytes, HandleMem, HandleWait, HandleOwn, Written, Seen, EofSeen, PipeOk, Sound;
    match call
    case Life(life) => LifeQuiet(c, life, p);
    case Own(own) => OwnFrame(c, own);
    case Wait(wait) => WaitFrame(c, wait, now);
    case Mem(mem) => MemFrame(c, mem);
    case Files(files) => FilesFifo(c, files, p);
    case Bytes(bytes) => BytesFifo(c, bytes, p, lostR, lostW);
    case FileCall(vfs) =>
    case Plainly(result) =>
  }

  lemma DispatchFifo(c: Cpu, call: Call, now: nat, p: nat, lostR: nat, lostW: nat)
    requires FifoOk(c.sh, p) && PipesOk(c.sh, p, lostR, lostW)
    ensures FifoOk(Dispatch(c, call, now).1.sh, p)
  {
    hide Handle, Finished, Written, Seen, EofSeen, Sound;
    HandleFifo(Counted(c), call, now, p, lostR, lostW);
    FinishFrame(Handle(Counted(c), call, now).1);
  }

  // ----- the other moves -----------------------------------------------------------------

  lemma {:induction false} StackEndsQuiet(sh: Shared, task: Task, stack: seq<Task>, status: int, p: nat)
    ensures Quiet(sh, StackEnds(sh, task, stack, status), p)
    decreases |stack|
  {
    hide ReleaseFds, ExitTable;
    ReleaseAllQuiet(sh, Drained(task.fds), p);
    assert ReleaseFds(sh, task.fds) == ReleaseAll(sh, Drained(task.fds)) by {
      FdsReleased(sh, task.fds);
    }
    if |stack| > 0 {
      StackEndsQuiet(TaskEnds(sh, task, StatusSignaled(SIGKILL)), stack[|stack| - 1], stack[..|stack| - 1], status, p);
    }
  }

  lemma FdsReleased(sh: Shared, fds: Slots)
    ensures ReleaseFds(sh, fds) == ReleaseAll(sh, Drained(fds))
  {
  }

  lemma FinishQuiet(s: Session, i: nat, status: int, p: nat)
    requires i < |s.procs|
    ensures Quiet(s.sh, FinishProcess(s, i, status).sh, p)
  {
    hide StackEnds;
    var q := s.procs[i];
    StackEndsQuiet(Uncharged(s.sh, AddU64(q.charged, q.ctx.exec.grown)), q.ctx.task, q.ctx.vforkStack, status, p);
  }

  lemma {:induction false} KillQuiet(s: Session, status: int, p: nat)
    ensures Quiet(s.sh, KillAll(s, status).sh, p)
    decreases |s.procs|
  {
    hide FinishProcess;
    if |s.procs| > 0 {
      FinishQuiet(s, 0, status, p);
      ShorterBy(s, status);
      KillQuiet(FinishProcess(s, 0, status), status, p);
    }
  }

  lemma ShorterBy(s: Session, status: int)
    requires |s.procs| > 0
    ensures |FinishProcess(s, 0, status).procs| == |s.procs| - 1
  {
    hide StackEnds;
  }

  lemma AbandonedQuiet(s: Session, spawn: Spawn, p: nat)
    ensures Quiet(s.sh, Abandoned(s, spawn).sh, p)
  {
    ReleaseAllQuiet(s.sh, Drained(spawn.task.fds), p);
  }

  lemma StartQuiet(s: Session, spawn: Spawn, launch: Launch, p: nat)
    ensures Quiet(s.sh, Start(s, spawn, launch).0.sh, p)
  {
    hide Abandoned;
    AbandonedQuiet(s, spawn, p);
    var charge := AddU64(launch.Size(), ASYNCIFY_PAGES * PAGE);
    AbandonedQuiet(s.(sh := Uncharged(Charged(s.sh, charge).0, charge)), spawn, p);
  }

  lemma StartNextQuiet(s: Session, launch: Launch, p: nat)
    requires |s.sh.spawn| > 0
    ensures Quiet(s.sh, StartNext(s, launch).sh, p)
  {
    hide Start, ExitTable;
    StartQuiet(s.(sh := s.sh.(spawn := s.sh.spawn[1..])), s.sh.spawn[0], launch, p);
  }

  lemma ReplaceQuiet(s: Session, i: nat, launch: Launch, p: nat)
    requires i < |s.procs| && s.procs[i].ctx.execRequest.Some?
    ensures Quiet(s.sh, ReplaceInstance(s, i, launch).sh, p)
  {
    hide Start, ExitTable;
    var q := s.procs[i];
    StartQuiet(s.(procs := Dropped(s.procs, i), sh := Uncharged(s.sh, AddU64(q.charged, q.ctx.exec.grown))),
               q.ctx.execRequest.value, launch, p);
  }

  lemma FetchQuiet(s: Session, i: nat, p: nat)
    requires i < |s.procs|
    ensures Quiet(s.sh, Fetch(s, i).sh, p)
  {
    hide NextSignal, FinishProcess, WithRecord;
    var q := s.procs[i];
    var pid := q.ctx.task.pid;
    var (d, left, t) := NextSignal(Pending(s.sh, pid), q.ctx.task);
    var r := Find(s.sh.table, pid);
    var sh := if r.Some? then s.sh.(table := WithRecord(s.sh.table, pid, r.value.(pending := left))) else s.sh;
    var exec := if d.NoSignal? && q.ctx.exec.hasFlag then q.ctx.exec.(flag := false) else q.ctx.exec;
    if d.Fatal? {
      FinishQuiet(s.(sh := sh, procs := s.procs[i := q.(ctx := q.ctx.(task := t, exec := exec))]), i, d.status, p);
    }
  }

  lemma {:induction false} DrainFifo(sh: Shared, t: Task, buffer: seq<byte>, vfs: seq<Vfs>, p: nat)
    requires FifoOk(sh, p)
    ensures FifoOk(DrainStdin(sh, t, buffer, vfs).2, p)
    decreases |vfs|
  {
    hide ReadBytes, FifoOk;
    if |vfs| > 0 {
      ReadFifo(sh, t, 0, CHUNK, vfs[0], p);
      var (got, sh') := ReadBytes(sh, t, 0, CHUNK, vfs[0]);
      if got.Got? && |got.bytes| > 0 {
        DrainFifo(sh', t, buffer + got.bytes, vfs[1..], p);
      }
    }
  }

  lemma {:induction false} FlushFifo(sh: Shared, t: Task, fd: int, bytes: seq<byte>, done: nat, vfs: seq<Vfs>, i: nat,
                                     p: nat, lostR: nat, lostW: nat)
    requires done <= |bytes| && FifoOk(sh, p) && PipesOk(sh, p, lostR, lostW)
    ensures FifoOk(FlushTo(sh, t, fd, bytes, done, vfs, i).2, p)
    decreases |bytes| - done
  {
    hide WriteBytes, FifoOk, PipesOk;
    if done < |bytes| {
      WritePipes(sh, t, fd, bytes[done..], VfsAt(vfs, i), p, lostR, lostW);
      WriteFifo(sh, t, fd, bytes[done..], VfsAt(vfs, i), p, lostR, lostW);
      var (put, sh') := WriteBytes(sh, t, fd, bytes[done..], VfsAt(vfs, i));
      if put.Put? && put.count > 0 {
        FlushFifo(sh', t, fd, bytes, done + put.count, vfs, i + 1, p, lostR, lostW);
      }
    }
  }

  lemma BothFifo(sh: Shared, t: Task, ph: Phase, vfsOut: seq<Vfs>, vfsErr: seq<Vfs>, p: nat, lostR: nat, lostW: nat)
    requires ph.Flushing? && PhaseOk(ph) && FifoOk(sh, p) && PipesOk(sh, p, lostR, lostW)
    ensures FifoOk(FlushBoth(sh, t, ph, vfsOut, vfsErr).2, p)
  {
    hide FlushTo, FifoOk, PipesOk;
    FlushKeeps(sh, t, 1, ph.out, ph.outDone, vfsOut, 0, p, lostR, lostW);
    FlushFifo(sh, t, 1, ph.out, ph.outDone, vfsOut, 0, p, lostR, lostW);
    var (f1, outDone, sh1) := FlushTo(sh, t, 1, ph.out, ph.outDone, vfsOut, 0);
    FlushFifo(sh1, t, 2, ph.err, ph.errDone, vfsErr, 0, p, lostR, lostW);
  }

  lemma HostStepFifo(sh: Shared, t: Task, readsStdin: bool, ph: Phase, o: HostOracle, p: nat, lostR: nat, lostW: nat)
    requires PhaseOk(ph) && FifoOk(sh, p) && PipesOk(sh, p, lostR, lostW)
    ensures var r := StepHost(sh, t, readsStdin, ph, o); r.Some? ==> FifoOk(r.value.2, p)
  {
    hide DrainStdin, FlushBoth, Written, Seen, EofSeen, PipesOk;
    match ph
    case Flushing(_, _, _, _, _) => BothFifo(sh, t, ph, o.outs, o.errs, p, lostR, lostW);
    case Reading(buffer) =>
      DrainFifo(sh, t, buffer, o.ins, p);
      DrainKeeps(sh, t, buffer, o.ins, 0, p, lostR, lostW);
      if !o.answer.NotYet? {
        BothFifo(if readsStdin then DrainStdin(sh, t, buffer, o.ins).2
          else sh, t, Started(o.answer), o.outs, o.errs, p, lostR, lostW);
      }
  }

  lemma HostFifo(s: Session, i: nat, o: HostOracle, p: nat, lostR: nat, lostW: nat)
    requires i < |s.procs| && s.procs[i].body.Host? && PhaseOk(s.procs[i].body.phase)
    requires FifoOk(s.sh, p) && PipesOk(s.sh, p, lostR, lostW)
    ensures FifoOk(HostTurn(s, i, o).sh, p)
  {
    hide StepHost, FinishProcess, FifoOk, PipesOk;
    var q := s.procs[i];
    HostStepFifo(s.sh, q.ctx.task, q.body.readsStdin, q.body.phase, o, p, lostR, lostW);
    match StepHost(s.sh, q.ctx.task, q.body.readsStdin, q.body.phase, o)
    case None =>
    case Some((step, phase, sh)) =>
      if step.EndedWith? {
        var stepped := s.(sh := sh, procs := s.procs[i := q.(body := q.body.(phase := phase))]);
        FinishQuiet(stepped, i, step.status, p);
        QuietFifo(sh, FinishProcess(stepped, i, step.status).sh, p);
      }
  }

  lemma ServeFifo(s: Session, i: nat, call: Call, now: nat, p: nat, lostR: nat, lostW: nat)
    requires i < |s.procs| && FifoOk(s.sh, p) && PipesOk(s.sh, p, lostR, lostW)
    ensures FifoOk(Serve(s, i, call, now).sh, p)
  {
    hide Dispatch, FinishProcess, FifoOk, PipesOk;
    var q := s.procs[i];
    var c := Cpu(s.sh, q.ctx, q.inst);
    DispatchFifo(c, call, now, p, lostR, lostW);
    var (a, after) := Dispatch(c, call, now);
    if a.Exits? {
      var q' := q.(ctx := after.ctx, inst := after.inst, resume := Running);
      var served := s.(sh := after.sh, procs := s.procs[i := q']);
      FinishQuiet(served, i, a.status, p);
      QuietFifo(served.sh, FinishProcess(served, i, a.status).sh, p);
    }
  }

  lemma GoneQuiet(s: Session, i: nat, status: int, complaint: seq<byte>, p: nat)
    requires i < |s.procs|
    ensures Quiet(s.sh, FinishProcess(s.(sh := WriteOutput(s.sh, 2, complaint)), i, status).sh, p)
  {
    hide FinishProcess;
    FinishQuiet(s.(sh := WriteOutput(s.sh, 2, complaint)), i, status, p);
  }

  lemma StepFifo(s: Session, m: Move, p: nat, lostR: nat, lostW: nat)
    requires FifoOk(s.sh, p) && PipesOk(s.sh, p, lostR, lostW)
    ensures FifoOk(Step(s, m).sh, p)
  {
    hide Serve, FinishProcess, ReplaceInstance, StartNext, Fetch, HostTurn, KillAll, PipesOk, Written, Seen, EofSeen;
    if Enabled(s, m) {
      match m
      case Syscall(i, call, now) => ServeFifo(s, i, call, now, p, lostR, lostW);
      case Retry(i, call, now) => ServeFifo(s, i, call, now, p, lostR, lostW);
      case Replace(i, launch) => ReplaceQuiet(s, i, launch, p);
      case FetchSignal(i) => FetchQuiet(s, i, p);
      case Gone(i, status, complaint) => GoneQuiet(s, i, status, complaint, p);
      case StartSpawn(launch) => StartNextQuiet(s, launch, p);
      case HostMove(i, o) => HostFifo(s, i, o, p, lostR, lostW);
      case WallClock(status) => KillQuiet(s, status, p);
      case _ =>
    }
  }

  // ----- every run -----------------------------------------------------------------------

  lemma {:induction false} RunFifo(u: Setup, moves: seq<Move>, p: nat)
    requires Begin(u).Some?
    ensures var s0 := Begin(u).value;
      && Orderly(Run(s0, moves)) && FifoOk(Run(s0, moves).sh, p)
      && PipesOk(Run(s0, moves).sh, p, LostReaders(s0, moves, p), LostWriters(s0, moves, p))
  {
    hide Step, Begin, FifoOk, PipesOk, LostReaderBy, LostWriterBy, Orderly;
    var s0 := Begin(u).value;
    if |moves| == 0 {
      BeginBooks(u, 0, p);
      BeginFifo(u, p);
    } else {
      var before, m := moves[..|moves| - 1], moves[|moves| - 1];
      RunFifo(u, before, p);
      var s := Run(s0, before);
      StepOrderly(s, m);
      StepPipes(s, m, p, LostReaders(s0, before, p), LostWriters(s0, before, p));
      StepFifo(s, m, p, LostReaders(s0, before, p), LostWriters(s0, before, p));
    }
  }

  lemma BeginFifo(u: Setup, p: nat)
    requires Begin(u).Some?
    ensures FifoOk(Begin(u).value.sh, p)
  {
    hide Start, Streams;
    StreamsBooks(u, 0, 0);
    var (sh, fds) := Streams(EmptyShared(u.limits)).value;
    var s0 := Session(sh.(nextPid := 2, table := [NewRecord(1, 0, 1, 1)]), [], None);
    StartQuiet(s0, Spawn(FirstTask(fds, u.cwd), u.program, u.exe, u.argv, u.envp), u.launch, p);
  }

  /** On every run, however many processes read and write a pipe: what was accepted, in order, is
      what was returned followed by what is buffered, never more than the capacity; and once a read
      has reported end of file every later read does, because no writing end is left anywhere. */
  lemma PipesAreFifo(u: Setup, moves: seq<Move>, p: nat, nonblock: bool, len: nat)
    requires Begin(u).Some? && Live(Run(Begin(u).value, moves).sh.pipes, p) && len > 0
    ensures var sh := Run(Begin(u).value, moves).sh; var q := At(sh.pipes, p).value;
      && Written(sh.log, p) == Seen(sh.log, p) + q.data && |q.data| <= PIPE_CAPACITY
      && (EofSeen(sh.log, p) ==>
            && ReadPipe(sh, p, nonblock, len).0 == Got([])
            && Written(sh.log, p) == Seen(sh.log, p)
            && forall k: nat :: Live(sh.descs, k) ==> At(sh.descs, k).value.kind != PipeWrite(p))
  {
    hide Begin, Run;
    RunFifo(u, moves, p);
    var sh := Run(Begin(u).value, moves).sh;
    forall k: nat | Live(sh.descs, k) && EofSeen(sh.log, p) ensures At(sh.descs, k).value.kind != PipeWrite(p) {
      EndCounted(sh.descs, k);
    }
  }
}
