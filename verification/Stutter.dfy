/** Calls that wait: an attempt that blocks changes nothing another call could notice, so blocking
    any number of times and then answering is the same as asking once. */
module Stutter {
  import opened Base
  import opened Slabs
  import opened Fds
  import opened Kernel
  import opened Syscalls
  import opened CallFrames
  import opened Census

  // ----- what an attempt that blocks leaves behind ---------------------------------------

  /** The same records, up to when their sleepers wake. */
  ghost predicate SameButWakes(a: seq<Record>, b: seq<Record>) {
    |a| == |b| && forall i :: 0 <= i < |a| ==>
      b[i] == a[i].(wakeAt := b[i].wakeAt) && (a[i].wakeAt.Some? ==> b[i].wakeAt.Some?)
  }

  /** Nothing differs but what tells the caller why everything is idle, and how many calls were made. */
  ghost predicate Idles(sh: Shared, after: Shared) {
    && after == sh.(table := after.table, stdin := sh.stdin.(wanted := after.stdin.wanted),
      vfsPending := after.vfsPending,
                    hostPending := after.hostPending, syscalls := after.syscalls)
    && SameButWakes(sh.table, after.table)
    && (sh.stdin.wanted ==> after.stdin.wanted) && (sh.vfsPending ==> after.vfsPending)
      && (sh.hostPending ==> after.hostPending)
  }

  /** The deadline a timed wait fixes at its first attempt. */
  function Timed(ctx: Ctx, call: Call, now: nat): Ctx {
    match call
    case Wait(Nanosleep(after)) => WithUntil(ctx, after, now)
    case Wait(Ppoll(_, Some(after), _)) => WithUntil(ctx, after, now)
    case Wait(Pselect(_, Some(after), _)) => WithUntil(ctx, after, now)
    case _ => ctx
  }

  function WithUntil(ctx: Ctx, after: nat, now: nat): Ctx {
    ctx.(exec := ctx.exec.(deadline := Some(DeadlineOf(ctx.exec, after, now))))
  }

  /** The context of a process waiting in `call` since `now`: a deadline, or a displaced mask. */
  function Waiting(ctx: Ctx, call: Call, now: nat): Ctx {
    match call
    case Wait(Sigsuspend(mask)) =>
      var saved := if ctx.exec.maskToRestore.None? then Some(ctx.task.sigmask) else ctx.exec.maskToRestore;
      ctx.(exec := ctx.exec.(maskToRestore := saved), task := ctx.task.(sigmask := mask))
    case _ => Timed(ctx, call, now)
  }

  lemma WokenIdles(table: seq<Record>, pid: int, when: nat)
    ensures SameButWakes(table, WokenAt(table, pid, Some(when)))
  {
  }

  lemma ReadIdles(sh: Shared, t: Task, fd: int, len: nat, vfs: Vfs)
    requires ReadBytes(sh, t, fd, len, vfs).0.ReadWaits?
    ensures Idles(sh, ReadBytes(sh, t, fd, len, vfs).1)
  {
    hide ReadBytes;
    ReadWaitsHow(sh, t, fd, len, vfs);
  }

  /** A read waits for a pipe's writers, for input, or for a filesystem. */
  lemma ReadWaitsHow(sh: Shared, t: Task, fd: int, len: nat, vfs: Vfs)
    requires ReadBytes(sh, t, fd, len, vfs).0.ReadWaits?
    ensures var after := ReadBytes(sh, t, fd, len, vfs).1;
      after == sh || after == sh.(stdin := sh.stdin.(wanted := true)) || after == sh.(vfsPending := true)
  {
    hide LineLen, Stored;
  }

  lemma WriteIdles(sh: Shared, t: Task, fd: int, data: seq<byte>, vfs: Vfs)
    requires WriteBytes(sh, t, fd, data, vfs).0.WriteWaits?
    ensures Idles(sh, WriteBytes(sh, t, fd, data, vfs).1)
  {
    hide Stored, Raised;
  }

  lemma IovIdles(c: Cpu, reading: bool, fd: int, v: Iov)
    requires DoIov(c, reading, fd, v).0.Block?
    ensures var after := DoIov(c, reading, fd, v).1; Idles(c.sh, after.sh) && after.ctx == c.ctx && after.inst == c.inst
  {
    hide ReadBytes, WriteBytes, Idles;
    if reading {
      ReadIdles(c.sh, c.ctx.task, fd, Min(v.len, STAGING_MAX), v.vfs);
    } else {
      WriteIdles(c.sh, c.ctx.task, fd, v.data, v.vfs);
    }
  }

  /** The first element of a vector that asks for any bytes, if everything up to it decodes. */
  function FirstIov(reading: bool, iovs: seq<Iov>, i: nat): Option<Iov>
    requires i <= |iovs|
    decreases |iovs| - i
  {
    if i == |iovs| || !iovs[i].decodes then None
    else if IovLen(reading, iovs[i]) == 0 then FirstIov(reading, iovs, i + 1)
    else Some(iovs[i])
  }

  lemma {:induction false} StartedNeverBlocks(c: Cpu, reading: bool, fd: int, iovs: seq<Iov>, i: nat, total: nat)
    requires i <= |iovs| && total > 0
    ensures !DoVector(c, reading, fd, iovs, i, total).0.Block?
    decreases |iovs| - i
  {
    hide DoIov;
    if i < |iovs| && iovs[i].decodes {
      if IovLen(reading, iovs[i]) == 0 {
        StartedNeverBlocks(c, reading, fd, iovs, i + 1, total);
      } else {
        var (a, after) := DoIov(c, reading, fd, iovs[i]);
        if a.Value? && a.v >= IovLen(reading, iovs[i]) {
          StartedNeverBlocks(after, reading, fd, iovs, i + 1, Min(total + Max(a.v, 0), I32_MAX));
        }
      }
    }
  }

  /** A vectored call waits exactly when the first element asking for bytes does, before any byte
      has moved. */
  lemma {:induction false} VectorBlocks(c: Cpu, reading: bool, fd: int, iovs: seq<Iov>, i: nat)
    requires i <= |iovs|
    ensures var (a, after) := DoVector(c, reading, fd, iovs, i, 0);
      var first := FirstIov(reading, iovs, i);
      && (a.Block? <==> first.Some? && DoIov(c, reading, fd, first.value).0.Block?)
      && (a.Block? ==> after == DoIov(c, reading, fd, first.value).1)
    decreases |iovs| - i
  {
    hide DoIov;
    if i < |iovs| && iovs[i].decodes {
      if IovLen(reading, iovs[i]) == 0 {
        VectorBlocks(c, reading, fd, iovs, i + 1);
      } else {
        var (a, after) := DoIov(c, reading, fd, iovs[i]);
        if a.Value? && a.v >= IovLen(reading, iovs[i]) {
          StartedNeverBlocks(after, reading, fd, iovs, i + 1, Min(Max(a.v, 0), I32_MAX));
        }
      }
    }
  }

  lemma BytesIdle(c: Cpu, call: ByteCall)
    requires HandleBytes(c, call).0.Block?
    ensures var after := HandleBytes(c, call).1; Idles(c.sh, after.sh) && after.ctx == c.ctx && after.inst == c.inst
  {
    hide DoVector, ReadBytes, WriteBytes, Idles;
    match call
    case Read(fd, len, _, vfs) => ReadIdles(c.sh, c.ctx.task, fd, Min(len, STAGING_MAX), vfs);
    case Write(fd, _, data, vfs) => WriteIdles(c.sh, c.ctx.task, fd, data, vfs);
    case Readv(fd, iovs) =>
      VectorBlocks(c, true, fd, iovs, 0);
      IovIdles(c, true, fd, FirstIov(true, iovs, 0).value);
    case Writev(fd, iovs) =>
      VectorBlocks(c, false, fd, iovs, 0);
      IovIdles(c, false, fd, FirstIov(false, iovs, 0).value);
  }

  lemma WaitIdles(c: Cpu, call: WaitCall, now: nat)
    requires HandleWait(c, call, now).0.Block?
    ensures var after := HandleWait(c, call, now).1;
      Idles(c.sh, after.sh) && after.ctx == Waiting(c.ctx, Wait(call), now) && after.inst == c.inst
  {
    hide ReadyCount, WokenAt, Interrupted;
    forall when: nat ensures SameButWakes(c.sh.table, WokenAt(c.sh.table, c.ctx.task.pid, Some(when))) {
      WokenIdles(c.sh.table, c.ctx.task.pid, when);
    }
  }

  lemma FilesNeverBlock(c: Cpu, call: FdCall)
    ensures !HandleFiles(c, call).0.Block?
  {
    hide ReleaseDesc, Inserted, BumpedOne, LowestFree;
  }

  lemma LifeIdles(c: Cpu, call: LifeCall)
    requires HandleLife(c, call).0.Block?
    ensures HandleLife(c, call).1 == c
  {
    hide ReleaseFds, ReleaseAll, SetExit, ForkRecord, Bumped, Drained, DrainedCloexec, KeptOnExec, SignalTable,
      FirstDead, Without;
  }

  lemma HandleIdles(c: Cpu, call: Call, now: nat)
    requires !call.Mem? && Handle(c, call, now).0.Block?
    ensures var after := Handle(c, call, now).1;
      Idles(c.sh, after.sh) && after.ctx == Waiting(c.ctx, call, now) && after.inst == c.inst
  {
    hide HandleFiles, HandleWait, HandleBytes, HandleLife;
    match call {
      case Life(life) => LifeIdles(c, life);
      case Wait(wait) => WaitIdles(c, wait, now);
      case Files(files) => FilesNeverBlock(c, files);
      case Bytes(bytes) => BytesIdle(c, bytes);
      case _ =>
    }
  }

  /** An attempt that blocks has no effect but to be counted, to say why it waits, and to fix its
      deadline or install its mask. */
  lemma BlockedIsStutter(c: Cpu, call: Call, now: nat)
    requires !call.Mem? && Dispatch(c, call, now).0.Block?
    ensures var after := Dispatch(c, call, now).1;
      Idles(c.sh, after.sh) && after.ctx == Waiting(c.ctx, call, now) && after.inst == c.inst
  {
    hide Handle, Finished, Waiting;
    HandleIdles(Counted(c), call, now);
  }

  // ----- blocking n times, then answering ------------------------------------------------

  /** Waiting again in the same request changes nothing more. */
  lemma WaitingOnce(ctx: Ctx, first: Call, since: nat, again: Call, now: nat)
    requires Retries(first, again)
    ensures Waiting(Waiting(ctx, first, since), again, now) == Waiting(ctx, first, since)
  {
  }

  /** An attempt made while waiting is one made afresh with the deadline already fixed. */
  lemma WaitingAnswers(sh: Shared, ctx: Ctx, inst: Inst, first: Call, since: nat, again: Call, now: nat)
    requires Retries(first, again)
    ensures Dispatch(Cpu(sh, Waiting(ctx, first, since), inst), again, now)
         == Dispatch(Cpu(sh, Timed(ctx, first, since), inst), again, now)
  {
    hide Interrupted, Finished;
    if first.Wait? && first.wait.Sigsuspend? {
      assert again == first;
      var a, b := Counted(Cpu(sh, Waiting(ctx, first, since), inst)), Counted(Cpu(sh, ctx, inst));
      assert DoSigsuspend(a, first.wait.mask) == DoSigsuspend(b, first.wait.mask);
    } else {
      assert Waiting(ctx, first, since) == Timed(ctx, first, since);
    }
  }

  /** One attempt: the state the rest of the session is in, the request with this time's outside
      answers, and the clock. */
  datatype Try = Try(sh: Shared, call: Call, now: nat)

  /** The process after a list of attempts. */
  function Tried(ctx: Ctx, inst: Inst, tries: seq<Try>): Cpu
    requires |tries| > 0
  {
    var t := tries[|tries| - 1];
    if |tries| == 1 then Dispatch(Cpu(t.sh, ctx, inst), t.call, t.now).1
    else
      var before := Tried(ctx, inst, tries[..|tries| - 1]);
      Dispatch(Cpu(t.sh, before.ctx, before.inst), t.call, t.now).1
  }

  /** Every attempt is a retry of the first, and every one blocks. */
  ghost predicate AllBlock(ctx: Ctx, inst: Inst, tries: seq<Try>)
    requires |tries| > 0
  {
    var t := tries[|tries| - 1];
    && !t.call.Mem? && Retries(tries[0].call, t.call)
    && if |tries| == 1 then Dispatch(Cpu(t.sh, ctx, inst), t.call, t.now).0.Block?
       else
         && AllBlock(ctx, inst, tries[..|tries| - 1])
         && var before := Tried(ctx, inst, tries[..|tries| - 1]);
            Dispatch(Cpu(t.sh, before.ctx, before.inst), t.call, t.now).0.Block?
  }

  lemma {:induction false} TriedWaits(ctx: Ctx, inst: Inst, tries: seq<Try>)
    requires |tries| > 0 && AllBlock(ctx, inst, tries)
    ensures var after := Tried(ctx, inst, tries);
      && after.ctx == Waiting(ctx, tries[0].call, tries[0].now) && after.inst == inst
      && Idles(tries[|tries| - 1].sh, after.sh)
  {
    hide Dispatch, Waiting, Idles, Retries;
    var n := |tries| - 1;
    var t := tries[n];
    if n == 0 {
      BlockedIsStutter(Cpu(t.sh, ctx, inst), t.call, t.now);
    } else {
      TriedWaits(ctx, inst, tries[..n]);
      var before := Tried(ctx, inst, tries[..n]);
      BlockedIsStutter(Cpu(t.sh, before.ctx, before.inst), t.call, t.now);
      WaitingOnce(ctx, tries[0].call, tries[0].now, t.call, t.now);
    }
  }

  /** A call that blocks any number of times, the rest of the session moving in between as it
      likes, and then answers, does what one call made in the answering state does: the same
      answer and the same new state, the deadline alone being the first attempt's. Nothing of the
      wait is left for the next call. */
  lemma RetriesAreOneCall(ctx: Ctx, inst: Inst, tries: seq<Try>, last: Try)
    requires Tidy(ctx.exec) && |tries| > 0 && AllBlock(ctx, inst, tries) && Retries(tries[0].call, last.call)
    ensures var waited := Tried(ctx, inst, tries);
      var (a, after) := Dispatch(Cpu(last.sh, waited.ctx, waited.inst), last.call, last.now);
      && (a, after) == Dispatch(Cpu(last.sh, Timed(ctx, tries[0].call, tries[0].now), inst), last.call, last.now)
      && (!a.Block? && !a.Exits? && !a.Execs? ==> Tidy(after.ctx.exec))
      && (!tries[0].call.Wait? ==> (a, after) == Dispatch(Cpu(last.sh, ctx, inst), last.call, last.now))
  {
    hide Dispatch, AllBlock, Tried;
    TriedWaits(ctx, inst, tries);
    WaitingAnswers(last.sh, ctx, inst, tries[0].call, tries[0].now, last.call, last.now);
    var waited := Tried(ctx, inst, tries);
    if last.call.Wait? {
      DispatchTidy(Cpu(last.sh, waited.ctx, waited.inst), last.call, last.now);
    } else {
      DispatchTidy(Cpu(last.sh, ctx, inst), last.call, last.now);
    }
  }

  // ----- what waiting waits for ----------------------------------------------------------

  /** A pipe end or standard input polls ready exactly when a blocking read or write of it would
      not wait, and a non-blocking one would not be told to come back. */
  lemma ReadyIsNoWait(sh: Shared, t: Task, fd: int, len: nat, data: seq<byte>, vfs: Vfs)
    requires IsOpen(t.fds, fd) && Live(sh.descs, t.fds[fd].value.desc) && len > 0
    requires var d := At(sh.descs, t.fds[fd].value.desc).value;
      match d.kind
      case PipeRead(p) => Live(sh.pipes, p) && d.Readable()
      case PipeWrite(p) => Live(sh.pipes, p) && d.Writable()
      case Other(plain) => plain.Stdin? && d.Readable()
    ensures var key := t.fds[fd].value.desc;
      var d := At(sh.descs, key).value;
      if d.kind.PipeWrite? then
        PollOne(sh, key, false, true).Any() <==>
          WriteBytes(sh, t, fd, data, vfs).0 != (if d.nonblock then NoWrite(AGAIN) else WriteWaits)
      else
        PollOne(sh, key, true, false).Any() <==>
          ReadBytes(sh, t, fd, len, vfs).0 != (if d.nonblock then NoRead(AGAIN) else ReadWaits)
  {
    hide Stored, LineLen, Raised;
  }

  /** `sigsuspend` puts the old mask back before it tells the guest whether a signal waits: the
      guest is told of a handler to run only if the old mask lets the signal through too. */
  lemma SuspendTellsOldMask(c: Cpu, mask: set<int>, now: nat)
    requires Tidy(c.ctx.exec) && c.ctx.exec.hasFlag && Interrupted(c.sh, c.ctx.(task := c.ctx.task.(sigmask := mask)))
    ensures var (a, after) := Dispatch(c, Wait(Sigsuspend(mask)), now);
      && a == Fail(INTR) && after.ctx.task == c.ctx.task
      && (after.ctx.exec.flag <==> Interrupted(c.sh, c.ctx))
  {
  }
}
