/** A pass of the scheduler in which every process only retries a blocked call and fails: what it
    says about the state at its end, and what the verdict `Deadlock` then means. */
module Deadlock {
  import opened Base
  import opened Slabs
  import opened Sums
  import opened Fds
  import opened Kernel
  import opened Syscalls
  import opened Machine
  import opened References
  import opened CallFrames
  import opened Census
  import opened CensusCalls
  import opened CensusRuns
  import opened RefTheorems
  import opened Stutter

  // ----- what handlers see through an idle change ----------------------------------------

  lemma IdlesTrans(a: Shared, b: Shared, c: Shared)
    requires Idles(a, b) && Idles(b, c)
    ensures Idles(a, c)
  {
  }

  lemma {:induction false} WakesSameIndex(a: seq<Record>, b: seq<Record>, pid: int)
    requires SameButWakes(a, b)
    ensures IndexOf(a, pid) == IndexOf(b, pid)
  {
    SamePids(a, b, pid);
  }

  lemma IdleSignals(sh: Shared, after: Shared, ctx: Ctx)
    requires Idles(sh, after)
    ensures Interrupted(sh, ctx) == Interrupted(after, ctx) && GroupOf(sh, ctx.task.pid) == GroupOf(after, ctx.task.pid)
  {
    WakesSameIndex(sh.table, after.table, ctx.task.pid);
  }

  lemma {:induction false} IdleDead(a: seq<Record>, b: seq<Record>, pid: int, pgid: int, which: int)
    requires SameButWakes(a, b)
    ensures FirstDead(a, pid, pgid, which).None? == FirstDead(b, pid, pgid, which).None?
  {
    if |a| > 0 {
      IdleDead(a[1..], b[1..], pid, pgid, which);
    }
  }

  lemma IdleChildren(a: seq<Record>, b: seq<Record>, pid: int, pgid: int, which: int)
    requires SameButWakes(a, b) && AnyChild(a, pid, pgid, which)
    ensures AnyChild(b, pid, pgid, which)
  {
    var i :| 0 <= i < |a| && Waits(a[i], pid, pgid, which);
    assert Waits(b[i], pid, pgid, which);
  }

  lemma IdleRead(sh: Shared, after: Shared, t: Task, fd: int, len: nat, vfs: Vfs)
    requires Idles(sh, after)
    ensures ReadBytes(sh, t, fd, len, vfs).0 == ReadBytes(after, t, fd, len, vfs).0
  {
    hide SameButWakes, Stored, LineLen;
  }

  lemma IdleWrite(sh: Shared, after: Shared, t: Task, fd: int, data: seq<byte>, vfs: Vfs)
    requires Idles(sh, after)
    ensures WriteBytes(sh, t, fd, data, vfs).0 == WriteBytes(after, t, fd, data, vfs).0
  {
    hide SameButWakes, Stored, Raised;
  }

  lemma {:induction false} IdleReady(sh: Shared, after: Shared, t: Task, polls: seq<PollFd>, select: bool)
    requires Idles(sh, after)
    ensures ReadyCount(sh, t, polls, select) == ReadyCount(after, t, polls, select)
  {
    hide SameButWakes;
    if |polls| > 0 {
      IdleReady(sh, after, t, polls[1..], select);
    }
  }

  lemma IovStillBlocks(c: Cpu, after: Shared, reading: bool, fd: int, v: Iov)
    requires Idles(c.sh, after) && DoIov(c, reading, fd, v).0.Block?
    ensures DoIov(c.(sh := after), reading, fd, v).0.Block?
  {
    hide ReadBytes, WriteBytes, Idles;
    if reading {
      IdleRead(c.sh, after, c.ctx.task, fd, Min(v.len, STAGING_MAX), v.vfs);
    } else {
      IdleWrite(c.sh, after, c.ctx.task, fd, v.data, v.vfs);
    }
  }

  lemma BytesStillBlock(c: Cpu, after: Shared, call: ByteCall)
    requires Idles(c.sh, after) && HandleBytes(c, call).0.Block?
    ensures HandleBytes(c.(sh := after), call).0.Block?
  {
    hide ReadBytes, WriteBytes, DoVector, Idles;
    match call
    case Read(fd, len, _, vfs) => IdleRead(c.sh, after, c.ctx.task, fd, Min(len, STAGING_MAX), vfs);
    case Write(fd, _, data, vfs) => IdleWrite(c.sh, after, c.ctx.task, fd, data, vfs);
    case Readv(fd, iovs) =>
      VectorBlocks(c, true, fd, iovs, 0);
      VectorBlocks(c.(sh := after), true, fd, iovs, 0);
      IovStillBlocks(c, after, true, fd, FirstIov(true, iovs, 0).value);
    case Writev(fd, iovs) =>
      VectorBlocks(c, false, fd, iovs, 0);
      VectorBlocks(c.(sh := after), false, fd, iovs, 0);
      IovStillBlocks(c, after, false, fd, FirstIov(false, iovs, 0).value);
  }

  lemma WaitStillBlocks(c: Cpu, after: Shared, call: WaitCall, now: nat)
    requires Idles(c.sh, after) && HandleWait(c, call, now).0.Block?
    ensures HandleWait(c.(sh := after), call, now).0.Block?
  {
    hide ReadyCount, WokenAt, Interrupted, Idles;
    IdleSignals(c.sh, after, Waiting(c.ctx, Wait(call), now));
    match call
    case Ppoll(polls, _, _) => IdleReady(c.sh, after, c.ctx.task, polls[..Min(|polls|, POLL_MAX)], false);
    case Pselect(polls, _, _) => IdleReady(c.sh, after, c.ctx.task, polls[..Min(|polls|, POLL_MAX)], true);
    case _ =>
  }

  lemma Wait4StillBlocks(c: Cpu, after: Shared, which: int, noHang: bool, copyOk: bool)
    requires Idles(c.sh, after) && DoWait4(c, which, noHang, copyOk).0.Block?
    ensures DoWait4(c.(sh := after), which, noHang, copyOk).0.Block?
  {
    hide AnyChild, FirstDead;
    IdleSignals(c.sh, after, c.ctx);
    IdleDead(c.sh.table, after.table, c.ctx.task.pid, GroupOf(c.sh, c.ctx.task.pid), which);
    IdleChildren(c.sh.table, after.table, c.ctx.task.pid, GroupOf(c.sh, c.ctx.task.pid), which);
  }

  lemma LifeBlocks(c: Cpu, call: LifeCall)
    requires HandleLife(c, call).0.Block?
    ensures call.Wait4?
  {
    hide ReleaseFds, ReleaseAll, SetExit, ForkRecord, Bumped, Drained, DrainedCloexec, KeptOnExec, SignalTable;
  }

  lemma HandleStillBlocks(c: Cpu, after: Shared, call: Call, now: nat)
    requires Idles(c.sh, after) && !call.Mem? && Handle(c, call, now).0.Block?
    ensures Handle(c.(sh := after), call, now).0.Block?
  {
    hide HandleFiles, HandleWait, HandleBytes, HandleLife, Idles, DoWait4;
    match call {
      case Life(life) => LifeWaits(c, after, life);
      case Wait(wait) => WaitStillBlocks(c, after, wait, now);
      case Files(files) => FilesNeverBlock(c, files);
      case Bytes(bytes) => BytesStillBlock(c, after, bytes);
      case _ =>
    }
  }

  lemma LifeWaits(c: Cpu, after: Shared, call: LifeCall)
    requires Idles(c.sh, after) && HandleLife(c, call).0.Block?
    ensures HandleLife(c.(sh := after), call).0.Block?
  {
    hide DoWait4, Idles, DoExit, DoClone, DoExecve, DoKill, DoSetpgid, DoSetsid;
    LifeBlocks(c, call);
    Wait4StillBlocks(c, after, call.which, call.noHang, call.copyOk);
  }

  /** An idle change of the rest of the session does not make a blocked call answer. */
  lemma StillBlocks(c: Cpu, after: Shared, call: Call, now: nat)
    requires Idles(c.sh, after) && !call.Mem? && Dispatch(c, call, now).0.Block?
    ensures Dispatch(c.(sh := after), call, now).0.Block?
  {
    hide Handle, Finished, Idles, Interrupted, Waiting;
    var there := c.(sh := after);
    IdleCounted(c.sh, after);
    HandleStillBlocks(Counted(c), Counted(there).sh, call, now);
    HandleIdles(Counted(c), call, now);
    HandleIdles(Counted(there), call, now);
    var one, two := Handle(Counted(c), call, now).1, Handle(Counted(there), call, now).1;
    IdleSignals(Counted(c).sh, one.sh, one.ctx);
    IdleSignals(Counted(there).sh, two.sh, two.ctx);
    IdleSignals(Counted(c).sh, Counted(there).sh, one.ctx);
  }

  lemma IdleCounted(sh: Shared, after: Shared)
    requires Idles(sh, after)
    ensures Idles(sh.(syscalls := AddU64(sh.syscalls, 1)), after.(syscalls := AddU64(after.syscalls, 1)))
  {
  }

  // ----- a pass --------------------------------------------------------------------------

  /** The retry made of one process: its request, with what the outside answers, and the clock. */
  datatype Attempt = Attempt(call: Call, now: nat)

  /** The session once the first `n` processes have been retried. */
  function PassTo(k: Session, tries: seq<Attempt>, n: nat): Session
    requires n <= |k.procs| == |tries|
    decreases n
  {
    if n == 0 then k
    else
      var before := PassTo(k, tries, n - 1);
      if n - 1 < |before.procs| then Serve(before, n - 1, tries[n - 1].call, tries[n - 1].now) else before
  }

  /** Every process is a guest that retries its outstanding call and stays stuck. */
  ghost predicate AllStuck(k: Session, tries: seq<Attempt>, n: nat)
    requires n <= |k.procs| == |tries|
    decreases n
  {
    n > 0 ==>
      && AllStuck(k, tries, n - 1)
      && var before := PassTo(k, tries, n - 1);
         && |before.procs| == |k.procs|
         && before.procs[n - 1].body.Guest? && before.procs[n - 1].resume.BlockedIn?
         && Retries(before.procs[n - 1].resume.call, tries[n - 1].call)
         && Dispatch(CpuAt(before, n - 1), tries[n - 1].call, tries[n - 1].now).0.Block?
  }

  lemma PassKeepsList(k: Session, tries: seq<Attempt>, n: nat)
    requires n <= |k.procs| == |tries| && AllStuck(k, tries, n)
    ensures |PassTo(k, tries, n).procs| == |k.procs|
  {
    hide Dispatch, FinishProcess;
  }

  /** None of the outstanding calls is a file mapping. */
  predicate NoMapping(tries: seq<Attempt>) {
    forall i :: 0 <= i < |tries| ==> !tries[i].call.Mem?
  }

  /** Process `i` waits in the request it was retried with, and asking again would find it waiting. */
  ghost predicate StillWaits(k: Session, i: nat, t: Attempt) {
    && i < |k.procs| && k.procs[i].resume == BlockedIn(t.call) && !t.call.Mem?
    && Dispatch(CpuAt(k, i), t.call, t.now).0.Block?
  }

  lemma StuckServe(k: Session, i: nat, call: Call, now: nat)
    requires i < |k.procs| && !call.Mem? && Dispatch(CpuAt(k, i), call, now).0.Block?
    ensures var after := Serve(k, i, call, now);
      && Idles(k.sh, after.sh) && after.exitStatus == k.exitStatus
      && after.procs == k.procs[i := k.procs[i].(ctx := Waiting(k.procs[i].ctx, call, now), resume := BlockedIn(call))]
      && Dispatch(CpuAt(after, i), call, now).0.Block?
  {
    hide Dispatch, Waiting, Idles, FinishProcess;
    BlockedIsStutter(CpuAt(k, i), call, now);
    var after := Serve(k, i, call, now);
    RetryNowBlocks(CpuAt(k, i), call, now);
    StillBlocks(CpuAt(k, i).(ctx := Waiting(k.procs[i].ctx, call, now)), after.sh, call, now);
  }

  /** The same attempt again, at the same moment, blocks again. */
  lemma RetryNowBlocks(c: Cpu, call: Call, now: nat)
    requires !call.Mem? && Dispatch(c, call, now).0.Block?
    ensures Dispatch(c.(ctx := Waiting(c.ctx, call, now)), call, now).0.Block?
  {
    hide Dispatch, Interrupted;
    WaitingAnswers(c.sh, c.ctx, c.inst, call, now, call, now);
    TimedSame(c, call, now);
  }

  lemma TimedSame(c: Cpu, call: Call, now: nat)
    ensures Dispatch(c.(ctx := Timed(c.ctx, call, now)), call, now) == Dispatch(c, call, now)
  {
    hide Interrupted, Finished, ReadyCount, WokenAt;
    var a, b := Counted(c.(ctx := Timed(c.ctx, call, now))), Counted(c);
    if call.Wait? && !call.wait.Sigsuspend? {
      assert HandleWait(a, call.wait, now) == HandleWait(b, call.wait, now);
    }
  }

  /** Every outstanding call of a pass that got nowhere is still blocked in the state at the end of
      the pass, whatever came after its own retry. */
  lemma {:induction false} PassLeavesAllBlocked(k: Session, tries: seq<Attempt>, n: nat)
    requires n <= |k.procs| == |tries| && AllStuck(k, tries, n) && NoMapping(tries)
    ensures var e := PassTo(k, tries, n);
      && |e.procs| == |k.procs| && Idles(k.sh, e.sh) && e.exitStatus == k.exitStatus
      && (forall i :: 0 <= i < n ==> StillWaits(e, i, tries[i]))
      && (forall i :: n <= i < |k.procs| ==> e.procs[i] == k.procs[i])
    decreases n
  {
    hide Dispatch, Waiting, Idles, Serve;
    if n == 0 {
      IdlesSelf(k.sh);
    } else {
      PassLeavesAllBlocked(k, tries, n - 1);
      var before := PassTo(k, tries, n - 1);
      var e := PassTo(k, tries, n);
      StuckServe(before, n - 1, tries[n - 1].call, tries[n - 1].now);
      IdlesTrans(k.sh, before.sh, e.sh);
      forall i | 0 <= i < n - 1 ensures StillWaits(e, i, tries[i]) {
        assert StillWaits(before, i, tries[i]);
        StillBlocks(CpuAt(before, i), e.sh, tries[i].call, tries[i].now);
      }
    }
  }

  lemma IdlesSelf(sh: Shared)
    ensures Idles(sh, sh)
  {
  }

  // ----- the verdict ---------------------------------------------------------------------

  /** Why nothing ran, as the caller is told. */
  datatype Idle = OnVfs | OnHost | Until(when: nat) | OnStdin | Deadlocked

  /** The earliest moment any record asks to be woken at. */
  function Earliest(table: seq<Record>): Option<nat> {
    if |table| == 0 then None
    else
      var rest := Earliest(table[..|table| - 1]);
      match table[|table| - 1].wakeAt
      case None => rest
      case Some(when) => if rest.Some? && rest.value <= when then rest else Some(when)
  }

  function WhyIdle(sh: Shared): (Idle, Shared) {
    if sh.vfsPending then (OnVfs, sh.(vfsPending := false))
    else if sh.hostPending then (OnHost, sh.(hostPending := false))
    else match Earliest(sh.table)
      case Some(when) => (Until(when), sh)
      case None => (if sh.stdin.wanted && !sh.stdin.closed then OnStdin else Deadlocked, sh)
  }

  lemma {:induction false} EarliestIsLeast(table: seq<Record>)
    ensures Earliest(table).None? <==> forall i :: 0 <= i < |table| ==> table[i].wakeAt.None?
    ensures Earliest(table).Some? ==>
      && (forall i :: 0 <= i < |table| && table[i].wakeAt.Some? ==> Earliest(table).value <= table[i].wakeAt.value)
      && exists i :: 0 <= i < |table| && table[i].wakeAt == Earliest(table)
  {
    if |table| > 0 {
      var n := |table| - 1;
      EarliestIsLeast(table[..n]);
      if Earliest(table) == Earliest(table[..n]) && Earliest(table).Some? {
        var i :| 0 <= i < n && table[..n][i].wakeAt == Earliest(table);
        assert table[i].wakeAt == Earliest(table);
      } else if Earliest(table).Some? {
        assert table[n].wakeAt == Earliest(table);
      }
    }
  }

  /** A pipe this descriptor would wait on, until some process uses its other end. */
  predicate PipeHolds(sh: Shared, t: Task, fd: int, reading: bool) {
    match Lookup(t.fds, fd)
    case Err(_) => false
    case Ok(entry) =>
      match At(sh.descs, entry.desc)
      case None => false
      case Some(d) =>
        && !d.nonblock
        && if reading then
             && d.Readable() && d.kind.PipeRead?
             && var q := At(sh.pipes, d.kind.pipe); q.Some? && |q.value.data| == 0 && q.value.writers > 0
           else
             && d.Writable() && d.kind.PipeWrite?
             && var q := At(sh.pipes, d.kind.pipe); q.Some? && q.value.readers > 0 && q.value.Room() == 0
  }

  /** A wait that only another process's doing, or input, can end: not the clock, not a
      filesystem, not a signal already pending. */
  predicate OnOthers(sh: Shared, ctx: Ctx, call: Call) {
    match call
    case Bytes(Read(fd, len, _, _)) => len > 0 && PipeHolds(sh, ctx.task, fd, true)
    case Bytes(Write(fd, decodes, _, _)) => decodes && PipeHolds(sh, ctx.task, fd, false)
    case Bytes(Readv(fd, iovs)) => FirstIov(true, iovs, 0).Some? && PipeHolds(sh, ctx.task, fd, true)
    case Bytes(Writev(fd, iovs)) =>
      FirstIov(false, iovs, 0).Some? && FirstIov(false, iovs, 0).value.copyOk && PipeHolds(sh, ctx.task, fd, false)
    case Life(Wait4(which, noHang, _)) =>
      var pid := ctx.task.pid;
      !noHang && AnyChild(sh.table, pid, GroupOf(sh, pid), which)
        && FirstDead(sh.table, pid, GroupOf(sh, pid), which).None?
    case Wait(Sigsuspend(mask)) => ctx.task.sigmask == mask && ctx.exec.maskToRestore.Some?
    case Wait(Ppoll(polls, None, _)) => ReadyCount(sh, ctx.task, polls[..Min(|polls|, POLL_MAX)], false) == 0
    case Wait(Pselect(polls, None, _)) => ReadyCount(sh, ctx.task, polls[..Min(|polls|, POLL_MAX)], true) == 0
    case _ => false
  }

  predicate Dead(sh: Shared, ctx: Ctx, call: Call) {
    OnOthers(sh, ctx, call) && !Interrupted(sh, ctx)
  }

  /** What an idle state says it waits for from outside: time, a filesystem, input. */
  ghost predicate Hopes(sh: Shared, pid: int) {
    || sh.vfsPending || (sh.stdin.wanted && !sh.stdin.closed)
    || (Find(sh.table, pid).Some? ==> Find(sh.table, pid).value.wakeAt.Some?)
  }

  lemma ReadHopes(sh: Shared, t: Task, fd: int, len: nat, vfs: Vfs)
    requires ReadBytes(sh, t, fd, len, vfs).0.ReadWaits?
    ensures var after := ReadBytes(sh, t, fd, len, vfs).1;
      after.vfsPending || (after.stdin.wanted && !after.stdin.closed) || (PipeHolds(after, t, fd, true) && after == sh)
  {
    hide LineLen, Stored;
  }

  lemma WriteHopes(sh: Shared, t: Task, fd: int, data: seq<byte>, vfs: Vfs)
    requires WriteBytes(sh, t, fd, data, vfs).0.WriteWaits?
    ensures var after := WriteBytes(sh, t, fd, data, vfs).1;
      after.vfsPending || (PipeHolds(after, t, fd, false) && after == sh)
  {
    hide Stored, Raised;
  }

  lemma IovHopes(c: Cpu, reading: bool, fd: int, v: Iov)
    requires DoIov(c, reading, fd, v).0.Block?
    ensures var after := DoIov(c, reading, fd, v).1;
      Hopes(after.sh, c.ctx.task.pid) || (PipeHolds(after.sh, c.ctx.task, fd, reading) && (!reading ==> v.copyOk))
  {
    hide ReadBytes, WriteBytes, PipeHolds;
    if reading {
      ReadHopes(c.sh, c.ctx.task, fd, Min(v.len, STAGING_MAX), v.vfs);
    } else {
      WriteHopes(c.sh, c.ctx.task, fd, v.data, v.vfs);
    }
  }

  lemma BytesHope(c: Cpu, call: ByteCall)
    requires HandleBytes(c, call).0.Block?
    ensures var after := HandleBytes(c, call).1;
      after.ctx == c.ctx && (Hopes(after.sh, c.ctx.task.pid) || OnOthers(after.sh, c.ctx, Bytes(call)))
  {
    hide ReadBytes, WriteBytes, DoVector, PipeHolds, Find;
    BytesIdle(c, call);
    match call
    case Read(fd, len, _, vfs) => ReadHopes(c.sh, c.ctx.task, fd, Min(len, STAGING_MAX), vfs);
    case Write(fd, _, data, vfs) => WriteHopes(c.sh, c.ctx.task, fd, data, vfs);
    case Readv(fd, iovs) =>
      VectorBlocks(c, true, fd, iovs, 0);
      IovHopes(c, true, fd, FirstIov(true, iovs, 0).value);
    case Writev(fd, iovs) =>
      VectorBlocks(c, false, fd, iovs, 0);
      IovHopes(c, false, fd, FirstIov(false, iovs, 0).value);
  }

  lemma WokenIsAwaited(table: seq<Record>, pid: int, when: nat)
    ensures var r := Find(WokenAt(table, pid, Some(when)), pid); r.Some? ==> r.value.wakeAt.Some?
  {
    if Find(table, pid).Some? {
      SamePids(table, WokenAt(table, pid, Some(when)), pid);
    }
  }

  lemma WaitHopes(c: Cpu, call: WaitCall, now: nat)
    requires HandleWait(c, call, now).0.Block?
    ensures var after := HandleWait(c, call, now).1;
      Hopes(after.sh, c.ctx.task.pid) || OnOthers(after.sh, after.ctx, Wait(call))
  {
    hide WokenAt, Interrupted, Find, ReadyCount, Idles;
    WaitIdles(c, call, now);
    var after := HandleWait(c, call, now).1;
    forall when: nat ensures var r := Find(WokenAt(c.sh.table, c.ctx.task.pid, Some(when)), c.ctx.task.pid);
                             r.Some? ==> r.value.wakeAt.Some?
    {
      WokenIsAwaited(c.sh.table, c.ctx.task.pid, when);
    }
    match call
    case Ppoll(polls, _, _) => IdleReady(c.sh, after.sh, c.ctx.task, polls[..Min(|polls|, POLL_MAX)], false);
    case Pselect(polls, _, _) => IdleReady(c.sh, after.sh, c.ctx.task, polls[..Min(|polls|, POLL_MAX)], true);
    case _ =>
  }

  lemma HandleHopes(c: Cpu, call: Call, now: nat)
    requires !call.Mem? && Handle(c, call, now).0.Block?
    ensures var after := Handle(c, call, now).1;
      Hopes(after.sh, c.ctx.task.pid) || OnOthers(after.sh, after.ctx, call)
  {
    hide HandleFiles, HandleWait, HandleBytes, HandleLife, Find;
    match call {
      case Life(life) => LifeHopes(c, life);
      case Wait(wait) => WaitHopes(c, wait, now);
      case Files(files) => FilesNeverBlock(c, files);
      case Bytes(bytes) => BytesHope(c, bytes);
      case _ =>
    }
  }

  lemma LifeHopes(c: Cpu, call: LifeCall)
    requires HandleLife(c, call).0.Block?
    ensures OnOthers(HandleLife(c, call).1.sh, HandleLife(c, call).1.ctx, Life(call))
  {
    hide DoExit, DoClone, DoExecve, DoKill, DoSetpgid, DoSetsid, AnyChild, FirstDead;
    LifeBlocks(c, call);
  }

  /** A call blocks because of time, a filesystem or input, and leaves word of it; or because of
      the other processes. */
  lemma BlockedHow(c: Cpu, call: Call, now: nat)
    requires !call.Mem? && Dispatch(c, call, now).0.Block?
    ensures var after := Dispatch(c, call, now).1;
      Hopes(after.sh, c.ctx.task.pid) || Dead(after.sh, after.ctx, call)
  {
    hide Handle, Finished, Hopes, OnOthers;
    HandleHopes(Counted(c), call, now);
  }

  // ----- a deadlock lasts ----------------------------------------------------------------

  lemma IdlePipe(sh: Shared, after: Shared, t: Task, fd: int, reading: bool)
    requires Idles(sh, after)
    ensures PipeHolds(sh, t, fd, reading) == PipeHolds(after, t, fd, reading)
  {
    hide SameButWakes;
  }

  lemma DeadStays(sh: Shared, after: Shared, ctx: Ctx, call: Call)
    requires Idles(sh, after) && Dead(sh, ctx, call)
    ensures Dead(after, ctx, call)
  {
    hide SameButWakes, PipeHolds, AnyChild, FirstDead, Interrupted, ReadyCount;
    IdleSignals(sh, after, ctx);
    match call
    case Bytes(Read(fd, len, _, _)) => IdlePipe(sh, after, ctx.task, fd, true);
    case Bytes(Write(fd, decodes, _, _)) => IdlePipe(sh, after, ctx.task, fd, false);
    case Bytes(Readv(fd, iovs)) => IdlePipe(sh, after, ctx.task, fd, true);
    case Bytes(Writev(fd, iovs)) => IdlePipe(sh, after, ctx.task, fd, false);
    case Life(Wait4(which, noHang, _)) =>
      IdleDead(sh.table, after.table, ctx.task.pid, GroupOf(sh, ctx.task.pid), which);
      IdleChildren(sh.table, after.table, ctx.task.pid, GroupOf(sh, ctx.task.pid), which);
    case Wait(Ppoll(polls, _, _)) => IdleReady(sh, after, ctx.task, polls[..Min(|polls|, POLL_MAX)], false);
    case Wait(Pselect(polls, _, _)) => IdleReady(sh, after, ctx.task, polls[..Min(|polls|, POLL_MAX)], true);
    case _ =>
  }

  lemma {:induction false} FirstIovBare(reading: bool, a: seq<Iov>, b: seq<Iov>, i: nat)
    requires BareIovs(a) == BareIovs(b) && i <= |a|
    ensures |a| == |b|
    ensures var f, g := FirstIov(reading, a, i), FirstIov(reading, b, i);
      f.Some? == g.Some? && (f.Some? ==> BareIov(f.value) == BareIov(g.value))
    decreases |a| - i
  {
    assert |BareIovs(a)| == |BareIovs(b)|;
    if i < |a| {
      assert BareIovs(a)[i] == BareIovs(b)[i];
      assert BareIov(a[i]) == BareIov(b[i]);
      FirstIovBare(reading, a, b, i + 1);
    }
  }

  lemma OthersBare(sh: Shared, ctx: Ctx, call: Call, again: Call)
    requires OnOthers(sh, ctx, call) && Retries(call, again)
    ensures OnOthers(sh, ctx, again)
  {
    hide BareIovs, PipeHolds, AnyChild, FirstDead, ReadyCount;
    match call
    case Bytes(Readv(fd, iovs)) => FirstIovBare(true, iovs, again.bytes.iovs, 0);
    case Bytes(Writev(fd, iovs)) => FirstIovBare(false, iovs, again.bytes.iovs, 0);
    case _ =>
  }

  lemma PipeRetry(c: Cpu, fd: int, len: nat, data: seq<byte>, vfs: Vfs)
    ensures PipeHolds(c.sh, c.ctx.task, fd, true) && len > 0 ==>
      ReadBytes(c.sh, c.ctx.task, fd, len, vfs) == (ReadWaits, c.sh)
    ensures PipeHolds(c.sh, c.ctx.task, fd, false) ==> WriteBytes(c.sh, c.ctx.task, fd, data, vfs) == (WriteWaits, c.sh)
  {
    hide Stored, LineLen, Raised;
  }

  lemma {:induction false} FirstIovAsks(reading: bool, iovs: seq<Iov>, i: nat)
    requires i <= |iovs|
    ensures var f := FirstIov(reading, iovs, i); f.Some? ==> IovLen(reading, f.value) > 0
    decreases |iovs| - i
  {
    if i < |iovs| {
      FirstIovAsks(reading, iovs, i + 1);
    }
  }

  lemma BytesRetry(c: Cpu, call: ByteCall)
    requires OnOthers(c.sh, c.ctx, Bytes(call))
    ensures HandleBytes(c, call).0.Block?
  {
    hide ReadBytes, WriteBytes, DoVector, PipeHolds;
    match call
    case Read(fd, len, _, vfs) => PipeRetry(c, fd, Min(len, STAGING_MAX), [], vfs);
    case Write(fd, _, data, vfs) => PipeRetry(c, fd, 0, data, vfs);
    case Readv(fd, iovs) =>
      VectorBlocks(c, true, fd, iovs, 0);
      FirstIovAsks(true, iovs, 0);
      var v := FirstIov(true, iovs, 0).value;
      PipeRetry(c, fd, Min(v.len, STAGING_MAX), [], v.vfs);
    case Writev(fd, iovs) =>
      VectorBlocks(c, false, fd, iovs, 0);
      var v := FirstIov(false, iovs, 0).value;
      PipeRetry(c, fd, 0, v.data, v.vfs);
  }

  lemma HandleRetry(c: Cpu, call: Call, now: nat)
    requires Dead(c.sh, c.ctx, call)
    ensures Handle(c, call, now).0.Block? && Waiting(c.ctx, call, now) == c.ctx && !call.Mem?
  {
    hide HandleBytes, AnyChild, FirstDead, ReadyCount, PipeHolds, WokenAt, Interrupted;
    match call
    case Bytes(bytes) => BytesRetry(c, bytes);
    case Wait(Sigsuspend(mask)) =>
      var saved := c.ctx.exec.maskToRestore;
      assert c.ctx.(exec := c.ctx.exec.(maskToRestore := saved), task := c.ctx.task.(sigmask := mask)) == c.ctx;
    case _ =>
  }

  /** A process waiting on others waits again, whenever it asks and whatever the outside answers. */
  lemma DeadBlocks(c: Cpu, call: Call, again: Call, now: nat)
    requires Dead(c.sh, c.ctx, call) && Retries(call, again)
    ensures var (a, after) := Dispatch(c, again, now);
      && a == Block && Idles(c.sh, after.sh) && after.ctx == c.ctx && after.inst == c.inst
      && Dead(after.sh, after.ctx, again)
  {
    hide Handle, Finished, OnOthers, Interrupted, Idles;
    OthersBare(c.sh, c.ctx, call, again);
    IdleTick(c.sh);
    DeadStays(c.sh, Counted(c).sh, c.ctx, again);
    HandleRetry(Counted(c), again, now);
    HandleIdles(Counted(c), again, now);
    var after := Handle(Counted(c), again, now).1;
    IdlesTrans(c.sh, Counted(c).sh, after.sh);
    DeadStays(c.sh, after.sh, c.ctx, again);
  }

  lemma IdleTick(sh: Shared)
    ensures Idles(sh, sh.(syscalls := AddU64(sh.syscalls, 1)))
  {
  }

  /** Everyone waits on the others. */
  ghost predicate AllDead(k: Session) {
    && Settled(k) && k.sh.spawn == []
    && forall i :: 0 <= i < |k.procs| ==>
         k.procs[i].body.Guest? && k.procs[i].resume.BlockedIn? && Dead(k.sh, k.procs[i].ctx, k.procs[i].resume.call)
  }

  /** What only the outside can do: the wall clock, new input, the end of input. */
  predicate Outside(m: Move) {
    m.WallClock? || m.Feed? || m.CloseStdin?
  }

  /** The same processes, each as it was, still in the same request. */
  ghost predicate SameProcs(k: Session, after: Session) {
    && |after.procs| == |k.procs| && after.exitStatus == k.exitStatus
    && forall i :: 0 <= i < |k.procs| ==> after.procs[i] == k.procs[i].(resume := after.procs[i].resume)
  }

  lemma StepDead(k: Session, m: Move)
    requires AllDead(k) && !Outside(m)
    ensures AllDead(Step(k, m)) && Idles(k.sh, Step(k, m).sh) && SameProcs(k, Step(k, m))
  {
    hide Dispatch, FinishProcess, ReplaceInstance, StartNext, Fetch, HostTurn, KillAll, Dead, Idles, Retries;
    var after := Step(k, m);
    IdlesSelf(k.sh);
    if Enabled(k, m) {
      assert m.Retry?;
      var i := m.i;
      DeadBlocks(CpuAt(k, i), k.procs[i].resume.call, m.call, m.now);
      forall j | 0 <= j < |k.procs| && j != i ensures Dead(after.sh, after.procs[j].ctx, after.procs[j].resume.call) {
        DeadStays(k.sh, after.sh, k.procs[j].ctx, k.procs[j].resume.call);
      }
      IdleQueue(k.sh, after.sh);
    }
  }

  lemma IdleQueue(sh: Shared, after: Shared)
    requires Idles(sh, after)
    ensures after.spawn == sh.spawn
  {
  }

  lemma {:induction false} RunDead(k: Session, moves: seq<Move>)
    requires AllDead(k) && forall i :: 0 <= i < |moves| ==> !Outside(moves[i])
    ensures AllDead(Run(k, moves)) && SameProcs(k, Run(k, moves))
  {
    hide Step, AllDead, Idles;
    if |moves| > 0 {
      RunDead(k, moves[..|moves| - 1]);
      StepDead(Run(k, moves[..|moves| - 1]), moves[|moves| - 1]);
    }
  }

  lemma OwnRecord(k: Session, i: nat)
    requires Peopled(k) && i < |k.procs| && k.procs[i].ctx.execRequest.None?
    ensures Find(k.sh.table, k.procs[i].ctx.task.pid).Some?
  {
    hide TableOk, Sum;
    var pid := k.procs[i].ctx.task.pid;
    SumDropped(k.procs, i, ProcPids(pid));
    assert ProcPids(pid)(k.procs[i]) >= 1;
    assert Owners(k, pid) >= 1;
    assert Unit(Alive(k.sh.table, pid)) >= 1;
  }

  /** Word once left of what a process waits for is still there after an idle change. */
  lemma HopesStay(sh: Shared, after: Shared, pid: int)
    requires Idles(sh, after) && Hopes(sh, pid)
    ensures Hopes(after, pid)
  {
    WakesSameIndex(sh.table, after.table, pid);
  }

  lemma HopeIsTold(sh: Shared, pid: int)
    requires Hopes(sh, pid) && Find(sh.table, pid).Some?
    ensures WhyIdle(sh).0 != Deadlocked
  {
    EarliestIsLeast(sh.table);
  }

  lemma VfsIsTold(sh: Shared)
    requires sh.vfsPending
    ensures WhyIdle(sh).0 != Deadlocked
  {
  }

  ghost predicate Explained(k: Session, p: Proc) {
    && p.body.Guest? && p.resume.BlockedIn?
    && (Hopes(k.sh, p.ctx.task.pid) || Dead(k.sh, p.ctx, p.resume.call))
  }

  lemma ExplainedStays(k: Session, after: Session, p: Proc)
    requires Explained(k, p) && Idles(k.sh, after.sh)
    ensures Explained(after, p)
  {
    hide Hopes, Dead, Idles;
    if Hopes(k.sh, p.ctx.task.pid) {
      HopesStay(k.sh, after.sh, p.ctx.task.pid);
    } else {
      DeadStays(k.sh, after.sh, p.ctx, p.resume.call);
    }
  }

  lemma WaitingIsSame(ctx: Ctx, call: Call, now: nat)
    ensures var w := Waiting(ctx, call, now); w.task.pid == ctx.task.pid && w.execRequest == ctx.execRequest
  {
  }

  /** At the end of a pass that got nowhere each process has left word of what it waits for from
      outside, or waits on the others. */
  lemma {:induction false} PassExplains(k: Session, tries: seq<Attempt>, n: nat)
    requires n <= |k.procs| == |tries| && AllStuck(k, tries, n) && NoMapping(tries)
    ensures var e := PassTo(k, tries, n);
      && |e.procs| == |k.procs|
      && (forall i :: 0 <= i < n ==> Explained(e, e.procs[i]))
      && (forall i :: 0 <= i < |k.procs| ==>
            e.procs[i].ctx.task.pid == k.procs[i].ctx.task.pid
              && e.procs[i].ctx.execRequest == k.procs[i].ctx.execRequest)
    decreases n
  {
    hide Dispatch, Waiting, Idles, Serve, Explained;
    if n > 0 {
      PassExplains(k, tries, n - 1);
      var before := PassTo(k, tries, n - 1);
      var e := PassTo(k, tries, n);
      var t := tries[n - 1];
      StuckServe(before, n - 1, t.call, t.now);
      WaitingIsSame(before.procs[n - 1].ctx, t.call, t.now);
      ServeExplains(before, n - 1, t.call, t.now);
      forall i | 0 <= i < n - 1 ensures Explained(e, e.procs[i]) {
        ExplainedStays(before, e, before.procs[i]);
      }
    }
  }

  lemma ServeExplains(k: Session, i: nat, call: Call, now: nat)
    requires i < |k.procs| && k.procs[i].body.Guest? && !call.Mem? && Dispatch(CpuAt(k, i), call, now).0.Block?
    ensures |Serve(k, i, call, now).procs| == |k.procs|
      && Explained(Serve(k, i, call, now), Serve(k, i, call, now).procs[i])
  {
    hide Dispatch, Waiting, Idles, FinishProcess, Hopes, Dead;
    BlockedIsStutter(CpuAt(k, i), call, now);
    WaitingIsSame(k.procs[i].ctx, call, now);
    BlockedHow(CpuAt(k, i), call, now);
  }

  /** A file mapping that waits leaves word that it waits for a filesystem. */
  lemma MappingHopes(c: Cpu, call: Call, now: nat)
    requires call.Mem? && Dispatch(c, call, now).0.Block?
    ensures Dispatch(c, call, now).1.sh.vfsPending
  {
    hide Charged, Uncharged, Pages, Finished, Interrupted;
  }

  /** With a file mapping outstanding a pass that got nowhere is told to wait for a filesystem. */
  lemma {:induction false} MappingIsTold(k: Session, tries: seq<Attempt>, n: nat)
    requires n <= |k.procs| == |tries| && AllStuck(k, tries, n)
    ensures (exists i :: 0 <= i < n && tries[i].call.Mem?) ==> PassTo(k, tries, n).sh.vfsPending
    decreases n
  {
    hide Dispatch, FinishProcess, Waiting;
    if n > 0 {
      MappingIsTold(k, tries, n - 1);
      var before := PassTo(k, tries, n - 1);
      var t := tries[n - 1];
      if t.call.Mem? {
        MappingHopes(CpuAt(before, n - 1), t.call, t.now);
      } else {
        BlockedIsStutter(CpuAt(before, n - 1), t.call, t.now);
      }
    }
  }

  lemma IdleOwners(k: Session, e: Session, i: nat)
    requires Peopled(k) && i < |k.procs| == |e.procs| && k.procs[i].ctx.execRequest.None? && Idles(k.sh, e.sh)
    ensures Find(e.sh.table, k.procs[i].ctx.task.pid).Some?
  {
    hide Peopled;
    OwnRecord(k, i);
    WakesSameIndex(k.sh.table, e.sh.table, k.procs[i].ctx.task.pid);
  }

  /** On any run: when every process is stuck in the retry of a blocked call and the verdict on the
      state that leaves is `Deadlock`, then at any later time, whatever a mounted filesystem would
      answer, every process is still in the same request and nothing else can happen, until the
      wall clock runs out or input comes in. */
  lemma DeadlockIsFinal(u: Setup, moves: seq<Move>, tries: seq<Attempt>, later: seq<Move>)
    requires Begin(u).Some? && PidsLeft(Begin(u).value, moves)
    requires var k := Run(Begin(u).value, moves);
      && Settled(k) && k.sh.spawn == [] && |tries| == |k.procs| && AllStuck(k, tries, |tries|)
      && WhyIdle(PassTo(k, tries, |tries|).sh).0 == Deadlocked
    requires forall i :: 0 <= i < |later| ==> !Outside(later[i])
    ensures var e := PassTo(Run(Begin(u).value, moves), tries, |tries|);
      AllDead(e) && AllDead(Run(e, later)) && SameProcs(e, Run(e, later))
  {
    hide Begin, Run, Idles, Dead, Hopes, WhyIdle, AllStuck, PassTo, Peopled;
    RunPeopled(u, moves);
    var k := Run(Begin(u).value, moves);
    var n := |tries|;
    var e := PassTo(k, tries, n);
    MappingIsTold(k, tries, n);
    if e.sh.vfsPending { VfsIsTold(e.sh); }
    PassLeavesAllBlocked(k, tries, n);
    PassExplains(k, tries, n);
    IdleQueue(k.sh, e.sh);
    forall i | 0 <= i < n ensures Dead(e.sh, e.procs[i].ctx, e.procs[i].resume.call) {
      assert Explained(e, e.procs[i]);
      if Hopes(e.sh, e.procs[i].ctx.task.pid) {
        IdleOwners(k, e, i);
        HopeIsTold(e.sh, e.procs[i].ctx.task.pid);
      }
    }
    assert AllDead(e);
    RunDead(e, later);
  }
}
