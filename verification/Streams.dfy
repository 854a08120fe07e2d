/** The session's own three streams over whole runs: input is used up from the front, in the order it was
    fed, and output only grows. */
module Streams {
  import opened Base
  import opened Slabs
  import opened Sums
  import opened Fds
  import opened Kernel
  import opened Syscalls
  import opened HostSteps
  import opened Signals
  import opened Machine
  import opened References
  import opened CallFrames

  ghost predicate IsSuffix(s: seq<byte>, of: seq<byte>) {
    |s| <= |of| && s == of[|of| - |s|..]
  }

  ghost predicate Grown(before: OutputBuffer, after: OutputBuffer, limit: nat) {
    before.data <= after.data && |after.data| <= Max(|before.data|, limit)
  }

  /** Input is taken from the front alone, and output is added at the end alone, within the limit. */
  ghost predicate Flows(sh: Shared, after: Shared) {
    && after.limits == sh.limits && after.stdin.closed == sh.stdin.closed
    && IsSuffix(after.stdin.data, sh.stdin.data)
    && Grown(sh.stdout, after.stdout, sh.limits.output) && Grown(sh.stderr, after.stderr, sh.limits.output)
  }

  /** The streams are as they were. */
  ghost predicate Still(sh: Shared, after: Shared) {
    && after.limits == sh.limits && after.stdin.closed == sh.stdin.closed && after.stdin.data == sh.stdin.data
    && after.stdout == sh.stdout && after.stderr == sh.stderr
  }

  lemma StillFlows(sh: Shared, after: Shared)
    requires Still(sh, after)
    ensures Flows(sh, after)
  {
  }

  lemma FlowsOn(a: Shared, b: Shared, c: Shared)
    requires Flows(a, b) && Flows(b, c)
    ensures Flows(a, c)
  {
    SuffixTrans(c.stdin.data, b.stdin.data, a.stdin.data);
  }

  lemma SuffixTrans(s: seq<byte>, t: seq<byte>, u: seq<byte>)
    requires IsSuffix(s, t) && IsSuffix(t, u)
    ensures IsSuffix(s, u)
  {
    assert t[|t| - |s|..] == u[|u| - |t|..][|t| - |s|..];
  }

  // ----- calls ---------------------------------------------------------------------------

  lemma ReadFlows(sh: Shared, t: Task, fd: int, len: nat, vfs: Vfs)
    ensures Flows(sh, ReadBytes(sh, t, fd, len, vfs).1)
  {
    hide Flows, Stored, ReadStdin;
    StillFlows(sh, sh);
    if IsOpen(t.fds, fd) && Live(sh.descs, t.fds[fd].value.desc) {
      StdinFlows(sh, At(sh.descs, t.fds[fd].value.desc).value.nonblock, len);
    }
    ElsewhereStill(sh, t, fd, len, vfs);
    StillIfSo(sh, ReadBytes(sh, t, fd, len, vfs).1);
  }

  lemma StdinFlows(sh: Shared, nonblock: bool, len: nat)
    ensures Flows(sh, ReadStdin(sh, nonblock, len).1)
  {
    hide LineLen;
  }

  lemma StillIfSo(sh: Shared, after: Shared)
    ensures Still(sh, after) ==> Flows(sh, after)
  {
  }

  predicate ReadsInput(sh: Shared, t: Task, fd: int) {
    && IsOpen(t.fds, fd)
    && var d := At(sh.descs, t.fds[fd].value.desc); d.Some? && d.value.kind == Other(Plain.Stdin)
  }

  /** Reading anything but the input leaves the streams alone. */
  lemma ElsewhereStill(sh: Shared, t: Task, fd: int, len: nat, vfs: Vfs)
    ensures !ReadsInput(sh, t, fd) ==> Still(sh, ReadBytes(sh, t, fd, len, vfs).1)
  {
    hide Stored, ReadPipe, ReadStdin;
    if IsOpen(t.fds, fd) && Live(sh.descs, t.fds[fd].value.desc) {
      var d := At(sh.descs, t.fds[fd].value.desc).value;
      if d.kind.PipeRead? {
        ReadPipeFrame(sh, d.kind.pipe, d.nonblock, len);
      }
    }
  }

  lemma WriteFlows(sh: Shared, t: Task, fd: int, data: seq<byte>, vfs: Vfs)
    ensures Flows(sh, WriteBytes(sh, t, fd, data, vfs).1)
  {
    hide Stored, Raised;
  }

  lemma IovFlows(c: Cpu, reading: bool, fd: int, v: Iov)
    ensures Flows(c.sh, DoIov(c, reading, fd, v).1.sh)
  {
    hide ReadBytes, WriteBytes;
    ReadFlows(c.sh, c.ctx.task, fd, Min(v.len, STAGING_MAX), v.vfs);
    WriteFlows(c.sh, c.ctx.task, fd, v.data, v.vfs);
    StillFlows(c.sh, c.sh);
  }

  lemma {:induction false} VectorFlows(c: Cpu, reading: bool, fd: int, iovs: seq<Iov>, i: nat, total: nat)
    requires i <= |iovs|
    ensures Flows(c.sh, DoVector(c, reading, fd, iovs, i, total).1.sh)
    decreases |iovs| - i
  {
    hide DoIov, Flows;
    StillFlows(c.sh, c.sh);
    if i < |iovs| && iovs[i].decodes {
      if IovLen(reading, iovs[i]) == 0 {
        VectorFlows(c, reading, fd, iovs, i + 1, total);
      } else {
        IovFlows(c, reading, fd, iovs[i]);
        var (a, after) := DoIov(c, reading, fd, iovs[i]);
        if a.Value? && a.v >= IovLen(reading, iovs[i]) {
          var sum := Min(total + Max(a.v, 0), I32_MAX);
          VectorFlows(after, reading, fd, iovs, i + 1, sum);
          FlowsOn(c.sh, after.sh, DoVector(after, reading, fd, iovs, i + 1, sum).1.sh);
        }
      }
    }
  }

  lemma BytesFlow(c: Cpu, call: ByteCall)
    ensures Flows(c.sh, HandleBytes(c, call).1.sh)
  {
    hide ReadBytes, WriteBytes, DoVector, Flows;
    StillFlows(c.sh, c.sh);
    match call
    case Read(fd, len, _, vfs) => ReadFlows(c.sh, c.ctx.task, fd, Min(len, STAGING_MAX), vfs);
    case Write(fd, _, data, vfs) => WriteFlows(c.sh, c.ctx.task, fd, data, vfs);
    case Readv(fd, iovs) => VectorFlows(c, true, fd, iovs, 0, 0);
    case Writev(fd, iovs) => VectorFlows(c, false, fd, iovs, 0, 0);
  }

  lemma WaitStill(c: Cpu, call: WaitCall, now: nat)
    ensures Still(c.sh, HandleWait(c, call, now).1.sh)
  {
    hide ReadyCount, WokenAt, Interrupted;
  }

  lemma DispatchFlows(c: Cpu, call: Call, now: nat)
    ensures Flows(c.sh, Dispatch(c, call, now).1.sh)
  {
    hide HandleLife, HandleFiles, HandleMem, HandleWait, HandleOwn, HandleBytes, Finished, Flows, Interrupted;
    var start := Counted(c);
    match call {
      case Life(life) => LifeFrame(start, life);
      case Own(own) => OwnFrame(start, own);
      case Wait(wait) => WaitStill(start, wait, now);
      case Mem(mem) => MemFrame(start, mem);
      case Files(files) => FilesFrame(start, files);
      case Bytes(bytes) => BytesFlow(start, bytes);
      case _ =>
    }
    var after := Handle(start, call, now).1;
    FinishFrame(after);
    if !call.Bytes? {
      StillFlows(start.sh, after.sh);
    }
    StillFlows(c.sh, start.sh);
    FlowsOn(c.sh, start.sh, after.sh);
  }

  // ----- moves ---------------------------------------------------------------------------

  lemma {:induction false} StackStill(sh: Shared, task: Task, stack: seq<Task>, status: int)
    ensures Still(sh, StackEnds(sh, task, stack, status))
    decreases |stack|
  {
    hide ReleaseFds, ExitTable;
    ReleaseFdsFrame(sh, task.fds);
    var n := |stack|;
    if n > 0 {
      StackStill(TaskEnds(sh, task, StatusSignaled(SIGKILL)), stack[n - 1], stack[..n - 1], status);
    }
  }

  lemma FinishStill(k: Session, i: nat, status: int)
    requires i < |k.procs|
    ensures Still(k.sh, FinishProcess(k, i, status).sh) && |FinishProcess(k, i, status).procs| < |k.procs|
  {
    hide StackEnds;
    var p := k.procs[i];
    StackStill(Uncharged(k.sh, AddU64(p.charged, p.ctx.exec.grown)), p.ctx.task, p.ctx.vforkStack, status);
  }

  lemma {:induction false} KillStill(k: Session, status: int)
    ensures Still(k.sh, KillAll(k, status).sh)
    decreases |k.procs|
  {
    hide FinishProcess;
    if |k.procs| > 0 {
      FinishStill(k, 0, status);
      KillStill(FinishProcess(k, 0, status), status);
    }
  }

  lemma StartStill(k: Session, spawn: Spawn, launch: Launch)
    ensures Still(k.sh, Start(k, spawn, launch).0.sh)
  {
    hide ReleaseFds;
    ReleaseFdsFrame(k.sh, spawn.task.fds);
    if launch.GuestRuns? {
      var charge := AddU64(launch.Size(), ASYNCIFY_PAGES * PAGE);
      ReleaseFdsFrame(Uncharged(Charged(k.sh, charge).0, charge), spawn.task.fds);
    }
  }

  lemma BirthStill(k: Session, m: Move)
    requires Enabled(k, m) && (m.Replace? || m.StartSpawn?)
    ensures Still(k.sh, Step(k, m).sh)
  {
    hide Start, ExitTable;
    match m
    case Replace(i, launch) =>
      var p := k.procs[i];
      var freed := k.(procs := Dropped(k.procs, i), sh := Uncharged(k.sh, AddU64(p.charged, p.ctx.exec.grown)));
      StartStill(freed, p.ctx.execRequest.value, launch);
    case StartSpawn(launch) => StartStill(k.(sh := k.sh.(spawn := k.sh.spawn[1..])), k.sh.spawn[0], launch);
  }

  lemma ServeFlows(k: Session, i: nat, call: Call, now: nat)
    requires i < |k.procs|
    ensures Flows(k.sh, Serve(k, i, call, now).sh)
  {
    hide Dispatch, FinishProcess, Flows, Still;
    var p := k.procs[i];
    DispatchFlows(CpuAt(k, i), call, now);
    var (a, after) := Dispatch(CpuAt(k, i), call, now);
    if a.Exits? {
      var p' := p.(ctx := after.ctx, inst := after.inst, resume := Running);
      var served := k.(sh := after.sh, procs := k.procs[i := p']);
      FinishStill(served, i, a.status);
      StillFlows(after.sh, FinishProcess(served, i, a.status).sh);
      FlowsOn(k.sh, after.sh, FinishProcess(served, i, a.status).sh);
    }
  }

  lemma FetchStill(k: Session, i: nat)
    requires i < |k.procs|
    ensures Still(k.sh, Fetch(k, i).sh)
  {
    hide NextSignal, FinishProcess, WithRecord;
    var p := k.procs[i];
    var pid := p.ctx.task.pid;
    var (d, left, t) := NextSignal(Pending(k.sh, pid), p.ctx.task);
    var r := Find(k.sh.table, pid);
    var sh := if r.Some? then k.sh.(table := WithRecord(k.sh.table, pid, r.value.(pending := left))) else k.sh;
    var exec := if d.NoSignal? && p.ctx.exec.hasFlag then p.ctx.exec.(flag := false) else p.ctx.exec;
    if d.Fatal? {
      FinishStill(k.(sh := sh, procs := k.procs[i := p.(ctx := p.ctx.(task := t, exec := exec))]), i, d.status);
    }
  }

  lemma {:induction false} DrainFlows(sh: Shared, t: Task, buffer: seq<byte>, vfs: seq<Vfs>)
    ensures Flows(sh, DrainStdin(sh, t, buffer, vfs).2)
    decreases |vfs|
  {
    hide ReadBytes, Flows;
    StillFlows(sh, sh);
    if |vfs| > 0 {
      ReadFlows(sh, t, 0, CHUNK, vfs[0]);
      var (got, sh') := ReadBytes(sh, t, 0, CHUNK, vfs[0]);
      if got.Got? && |got.bytes| > 0 {
        DrainFlows(sh', t, buffer + got.bytes, vfs[1..]);
        FlowsOn(sh, sh', DrainStdin(sh', t, buffer + got.bytes, vfs[1..]).2);
      }
    }
  }

  lemma {:induction false} FlushFlows(sh: Shared, t: Task, fd: int, bytes: seq<byte>, done: nat, vfs: seq<Vfs>, i: nat)
    requires done <= |bytes|
    ensures Flows(sh, FlushTo(sh, t, fd, bytes, done, vfs, i).2)
    decreases |bytes| - done
  {
    hide WriteBytes, Flows;
    StillFlows(sh, sh);
    if done < |bytes| {
      WriteFlows(sh, t, fd, bytes[done..], VfsAt(vfs, i));
      var (put, sh') := WriteBytes(sh, t, fd, bytes[done..], VfsAt(vfs, i));
      if put.Put? && put.count > 0 {
        FlushFlows(sh', t, fd, bytes, done + put.count, vfs, i + 1);
        FlowsOn(sh, sh', FlushTo(sh', t, fd, bytes, done + put.count, vfs, i + 1).2);
      }
    }
  }

  lemma BothFlow(sh: Shared, t: Task, ph: Phase, vfsOut: seq<Vfs>, vfsErr: seq<Vfs>)
    requires ph.Flushing? && PhaseOk(ph)
    ensures Flows(sh, FlushBoth(sh, t, ph, vfsOut, vfsErr).2)
  {
    hide FlushTo, Flows;
    FlushFlows(sh, t, 1, ph.out, ph.outDone, vfsOut, 0);
    var sh1 := FlushTo(sh, t, 1, ph.out, ph.outDone, vfsOut, 0).2;
    FlushFlows(sh1, t, 2, ph.err, ph.errDone, vfsErr, 0);
    FlowsOn(sh, sh1, FlushTo(sh1, t, 2, ph.err, ph.errDone, vfsErr, 0).2);
  }

  lemma TurnFlows(sh: Shared, t: Task, readsStdin: bool, ph: Phase, o: HostOracle)
    requires PhaseOk(ph)
    ensures var r := StepHost(sh, t, readsStdin, ph, o); r.Some? ==> Flows(sh, r.value.2)
  {
    hide DrainStdin, FlushBoth, Flows;
    if ph.Flushing? {
      BothFlow(sh, t, ph, o.outs, o.errs);
    } else {
      StillFlows(sh, sh);
      DrainFlows(sh, t, ph.buffer, o.ins);
      var drawn := if readsStdin then DrainStdin(sh, t, ph.buffer, o.ins).2 else sh;
      StillFlows(drawn, drawn.(hostPending := true));
      FlowsOn(sh, drawn, drawn.(hostPending := true));
      if !o.answer.NotYet? {
        BothFlow(drawn, t, Started(o.answer), o.outs, o.errs);
        FlowsOn(sh, drawn, FlushBoth(drawn, t, Started(o.answer), o.outs, o.errs).2);
      }
    }
  }

  lemma HostFlows(k: Session, i: nat, o: HostOracle)
    requires i < |k.procs| && k.procs[i].body.Host? && PhaseOk(k.procs[i].body.phase)
    ensures Flows(k.sh, HostTurn(k, i, o).sh)
  {
    hide StepHost, FinishProcess, Flows, Still;
    StillFlows(k.sh, k.sh);
    var p := k.procs[i];
    TurnFlows(k.sh, p.ctx.task, p.body.readsStdin, p.body.phase, o);
    match StepHost(k.sh, p.ctx.task, p.body.readsStdin, p.body.phase, o)
    case None =>
    case Some((step, phase, sh)) =>
      if step.EndedWith? {
        var stepped := k.(sh := sh, procs := k.procs[i := p.(body := p.body.(phase := phase))]);
        FinishStill(stepped, i, step.status);
        StillFlows(sh, FinishProcess(stepped, i, step.status).sh);
        FlowsOn(k.sh, sh, FinishProcess(stepped, i, step.status).sh);
      }
  }

  lemma GoneFlows(k: Session, i: nat, status: int, complaint: seq<byte>)
    requires i < |k.procs|
    ensures Flows(k.sh, FinishProcess(k.(sh := WriteOutput(k.sh, 2, complaint)), i, status).sh)
  {
    hide FinishProcess;
    FinishStill(k.(sh := WriteOutput(k.sh, 2, complaint)), i, status);
  }

  /** Whatever the move, but feeding input and closing it. */
  lemma StepFlows(k: Session, m: Move)
    requires !m.Feed? && !m.CloseStdin?
    ensures Flows(k.sh, Step(k, m).sh)
  {
    hide Serve, FinishProcess, ReplaceInstance, StartNext, Fetch, HostTurn, KillAll, Flows, Still;
    StillFlows(k.sh, k.sh);
    if Enabled(k, m) {
      match m
      case Syscall(i, call, now) => ServeFlows(k, i, call, now);
      case Retry(i, call, now) => ServeFlows(k, i, call, now);
      case Replace(_, _) => BirthStill(k, m); StillFlows(k.sh, Step(k, m).sh);
      case StartSpawn(_) => BirthStill(k, m); StillFlows(k.sh, Step(k, m).sh);
      case FetchSignal(i) => FetchStill(k, i); StillFlows(k.sh, Step(k, m).sh);
      case Gone(i, status, complaint) => GoneFlows(k, i, status, complaint);
      case HostMove(i, o) => HostFlows(k, i, o);
      case WallClock(status) => KillStill(k, status); StillFlows(k.sh, Step(k, m).sh);
      case _ =>
    }
  }

  // ----- every run -----------------------------------------------------------------------

  /** All the input fed in a run, in order. */
  function Fed(k: Session, moves: seq<Move>): seq<byte> {
    if |moves| == 0 then []
    else
      var before, m := moves[..|moves| - 1], moves[|moves| - 1];
      Fed(k, before) + if m.Feed? && Enabled(Run(k, before), m) then m.bytes else []
  }

  predicate InputCloses(k: Session, moves: seq<Move>) {
    |moves| > 0 &&
    var before, m := moves[..|moves| - 1], moves[|moves| - 1];
    InputCloses(k, before) || (m.CloseStdin? && Enabled(Run(k, before), m))
  }

  /** On every run what is left of the input is the end of everything that was fed, in the order it came;
      it is closed exactly if it has been closed; and what either output keeps only grows, within its
      limit. */
  lemma {:induction false} StreamsFlow(k: Session, moves: seq<Move>)
    ensures var e := Run(k, moves);
      && IsSuffix(e.sh.stdin.data, k.sh.stdin.data + Fed(k, moves))
      && (e.sh.stdin.closed <==> k.sh.stdin.closed || InputCloses(k, moves))
      && e.sh.limits == k.sh.limits
      && Grown(k.sh.stdout, e.sh.stdout, k.sh.limits.output) && Grown(k.sh.stderr, e.sh.stderr, k.sh.limits.output)
  {
    hide Serve, FinishProcess, ReplaceInstance, StartNext, Fetch, HostTurn, KillAll, Enabled;
    var all := k.sh.stdin.data + Fed(k, moves);
    if |moves| == 0 {
      assert all == k.sh.stdin.data;
    } else {
      var before, m := moves[..|moves| - 1], moves[|moves| - 1];
      var b, e := Run(k, before), Run(k, moves);
      StreamsFlow(k, before);
      var had := k.sh.stdin.data + Fed(k, before);
      if m.Feed? && Enabled(b, m) {
        assert all == had + m.bytes;
        assert e.sh.stdin.data == b.sh.stdin.data + m.bytes;
        SuffixMore(b.sh.stdin.data, had, m.bytes);
      } else {
        assert all == had;
        if !m.Feed? && !m.CloseStdin? {
          hide Step;
          StepFlows(b, m);
          SuffixTrans(e.sh.stdin.data, b.sh.stdin.data, had);
        }
      }
    }
  }

  lemma SuffixMore(s: seq<byte>, of: seq<byte>, more: seq<byte>)
    requires IsSuffix(s, of)
    ensures IsSuffix(s + more, of + more)
  {
    assert (of + more)[|of| - |s|..] == of[|of| - |s|..] + more;
  }

  /** A guest that traps or cannot be entered again is gone from the list, and what is to be said about it is
      on standard error, as far as there is room. */
  lemma GoneComplains(k: Session, i: nat, status: int, complaint: seq<byte>)
    requires Enabled(k, Gone(i, status, complaint))
    ensures
      var after := Step(k, Gone(i, status, complaint));
      var room := if k.sh.limits.output > |k.sh.stderr.data| then k.sh.limits.output - |k.sh.stderr.data| else 0;
      && |after.procs| < |k.procs| && after.sh.stdout == k.sh.stdout && after.sh.stdin.data == k.sh.stdin.data
      && after.sh.stderr.data == k.sh.stderr.data + (if |complaint| <= room then complaint else complaint[..room])
  {
    hide FinishProcess;
    FinishStill(k.(sh := WriteOutput(k.sh, 2, complaint)), i, status);
  }
}
