/** What the shorter calls promise their callers, and what they have done by the time the copy back
    to the guest can fault. */
module CallFacts {
  import opened Base
  import opened Slabs
  import opened Fds
  import opened Kernel
  import opened Syscalls
  import opened CallFrames
  import opened References
  import opened HostOnce
  import opened Reads

  // ----- signals -------------------------------------------------------------------------

  /** No request puts SIGKILL or SIGSTOP into the mask or takes them out of it; of the others
      exactly those asked for join it, leave it, or make it up; an unknown request changes nothing;
      and nothing but the mask changes, whether or not the old one can be copied out. */
  lemma MaskMoves(c: Cpu, how: int, sigs: set<int>, copyOk: bool, x: int)
    ensures
      var (a, after) := DoSigprocmask(c, how, Some(sigs), copyOk);
      var before, now := c.ctx.task.sigmask, after.ctx.task.sigmask;
      && after == c.(ctx := c.ctx.(task := c.ctx.task.(sigmask := now)))
      && (a == Fail(INVAL) <==> how !in {0, 1, 2})
      && (how !in {0, 1, 2} ==> now == before)
      && (x in {SIGKILL, SIGSTOP} ==> (x in now ==> x in before) && (how != 2 ==> (x in now <==> x in before)))
      && (x !in {SIGKILL, SIGSTOP} ==>
            && (how == 0 ==> (x in now <==> x in before || x in sigs))
            && (how == 1 ==> (x in now <==> x in before && x !in sigs))
            && (how == 2 ==> (x in now <==> x in sigs)))
  {
  }

  /** After a `sigaction` that succeeds the signal has the action given, and no other signal has
      another than before; SIGKILL and SIGSTOP keep theirs whatever is asked. */
  lemma ActionMoves(c: Cpu, signal: int, action: SigAction, copyOk: bool, x: int)
    requires |c.ctx.task.sigact| == NSIG
    ensures
      var (a, after) := DoSigaction(c, signal, Some(action), copyOk);
      && (a == Value(0) <==> 0 < signal < NSIG && copyOk && signal !in {SIGKILL, SIGSTOP})
      && after == c.(ctx := c.ctx.(task := c.ctx.task.(sigact := after.ctx.task.sigact)))
      && Action(after.ctx.task, x) == (if a == Value(0) && x == signal then action else Action(c.ctx.task, x))
      && Action(after.ctx.task, SIGKILL) == Action(c.ctx.task, SIGKILL)
  {
  }

  /** `umask` answers with the old mask and keeps the nine permission bits of the new one; `chdir` moves the
      caller; neither changes anything else of the caller, or anything of anybody else. */
  lemma OwnMoves(c: Cpu, mask: nat, cwd: string, now: nat)
    requires Tidy(c.ctx.exec)
    ensures
      var (a, masked) := Dispatch(c, Own(Umask(mask)), now);
      var (b, moved) := Dispatch(c, Own(Chdir(cwd)), now);
      && a == Value(c.ctx.task.umask) && b == Value(0)
      && masked.ctx.task == c.ctx.task.(umask := mask % 512) && moved.ctx.task == c.ctx.task.(cwd := cwd)
      && masked.sh == moved.sh == c.sh.(syscalls := masked.sh.syscalls) && masked.inst == moved.inst == c.inst
      && masked.ctx.vforkStack == moved.ctx.vforkStack == c.ctx.vforkStack
  {
    hide Interrupted;
  }

  // ----- time ----------------------------------------------------------------------------

  /** The first attempt of a timed wait fixes when it is over; whatever a later attempt would work
      out, at whatever time, the deadline is the first one's, and never before that attempt. */
  lemma DeadlineIsFirst(e: Exec, after: nat, now: nat, again: nat, later: nat)
    requires Tidy(e)
    ensures
      var until := DeadlineOf(e, after, now);
      && DeadlineOf(e.(deadline := Some(until)), again, later) == until
      && now <= until <= now + after && (now + after <= INSTANT_MAX ==> until == now + after)
  {
  }

  // ----- descriptors ---------------------------------------------------------------------

  /** `F_SETFL` changes the description: every descriptor that shares it, in whatever process, is
      append and non-blocking as asked, and every other description is what it was. */
  lemma FlagsAreShared(c: Cpu, fd: int, append: bool, nonblock: bool, t: Task, other: int)
    requires DescsOk(c.sh.descs) && IsOpen(c.ctx.task.fds, fd) && Live(c.sh.descs, c.ctx.task.fds[fd].value.desc)
    requires IsOpen(t.fds, other) && Live(c.sh.descs, t.fds[other].value.desc)
    ensures
      var (a, after) := DoSetFlags(c, fd, append, nonblock);
      && a == Value(0) && after == c.(sh := c.sh.(descs := after.sh.descs)) && DescsOk(after.sh.descs)
      && Live(after.sh.descs, t.fds[other].value.desc)
      && var d, e := DescAt(c.sh, t, other), DescAt(after.sh, t, other);
         if t.fds[other].value.desc == c.ctx.task.fds[fd].value.desc then
           e.append == append && e.nonblock == nonblock && e.kind == d.kind && e.access == d.access && e.refs == d.refs
         else e == d
  {
    var key := c.ctx.task.fds[fd].value.desc;
    StoredExact(c.sh.descs, key, At(c.sh.descs, key).value.(append := append, nonblock := nonblock));
  }

  // ----- what the session keeps for its caller -------------------------------------------

  /** The output buffer after a list of writes. */
  function AllPushed(writes: seq<seq<byte>>, limit: nat): OutputBuffer {
    if |writes| == 0 then OutputBuffer([], 0)
    else Pushed(AllPushed(writes[..|writes| - 1], limit), writes[|writes| - 1], limit)
  }

  function Flat(writes: seq<seq<byte>>): seq<byte> {
    if |writes| == 0 then [] else Flat(writes[..|writes| - 1]) + writes[|writes| - 1]
  }

  /** However the writes are cut, the session keeps the front of everything written, up to the
      limit, and counts the rest. */
  lemma {:induction false} OutputIsFront(writes: seq<seq<byte>>, limit: nat)
    ensures
      var out, all := AllPushed(writes, limit), Flat(writes);
      && out.data == all[..Min(limit, |all|)]
      && out.dropped == Min(|all| - |out.data|, U64_MAX)
  {
    if |writes| > 0 {
      OutputIsFront(writes[..|writes| - 1], limit);
    }
  }

  /** Memory is charged exactly if it fits the session's limit, a refused charge takes nothing, and
      giving a charge back undoes it. */
  lemma ChargeUndone(sh: Shared, bytes: nat)
    requires sh.memoryUsed <= sh.limits.memory < U64_MAX
    ensures
      var (after, ok) := Charged(sh, bytes);
      && (ok <==> sh.memoryUsed + bytes <= sh.limits.memory)
      && (if ok then after.memoryUsed == sh.memoryUsed + bytes && Uncharged(after, bytes) == sh else after == sh)
  {
  }

  // ----- faults that come late -----------------------------------------------------------

  /** A read whose copy to the guest faults has read all the same: it leaves the state a read that
      succeeds leaves, and is told of a fault exactly when that one is told of a count. What is lost is
      there to lose exactly when the descriptor, not being a mounted file, is open for reading on a
      pipe, standard input or a generated file that has bytes left; then some of them are gone from the
      front and the caller is told of a fault. The devices, and an end of file, lose nothing. */
  lemma ReadFaultsLate(c: Cpu, fd: int, len: nat, vfs: Vfs)
    requires len > 0 && !NamesFile(c.sh, c.ctx.task, fd)
    ensures
      var (a, after) := DoRead(c, fd, len, false, vfs);
      var t := c.ctx.task;
      var had, has := BytesLeft(c.sh, t, fd), BytesLeft(after.sh, t, fd);
      && after == DoRead(c, fd, len, true, vfs).1
      && (a == Fail(FAULT) <==> DoRead(c, fd, len, true, vfs).0.Value?)
      && (has != had <==> OpenToRead(c.sh, t, fd) && had != [])
      && (has != had ==> a == Fail(FAULT) && exists n :: 0 < n <= |had| && has == had[n..])
  {
    var t := c.ctx.task;
    var ask := Min(len, STAGING_MAX);
    if OpenToRead(c.sh, t, fd) {
      ReadTakes(c.sh, t, fd, ask, vfs);
      var (got, sh) := ReadBytes(c.sh, t, fd, ask, vfs);
      var had := BytesLeft(c.sh, t, fd);
      if had != [] {
        assert BytesLeft(sh, t, fd) == had[|got.bytes|..] && |BytesLeft(sh, t, fd)| < |had|;
      }
    } else {
      assert ReadBytes(c.sh, t, fd, ask, vfs).0.NoRead? && ReadBytes(c.sh, t, fd, ask, vfs).1 == c.sh;
    }
  }

  /** A `pipe2` whose copy faults has made the pipe: the caller is told of a fault, and two
      descriptors nobody has told it about are open, the two ends of a pipe. */
  lemma PipeFaultsLate(c: Cpu, cloexec: bool, nonblock: bool) returns (r: nat, w: nat, p: nat)
    requires Sound(c.sh.descs) && Sound(c.sh.pipes)
    ensures DoPipe2(c, cloexec, nonblock, false).1 == DoPipe2(c, cloexec, nonblock, true).1
    ensures DoPipe2(c, cloexec, nonblock, false).0 == Fail(FAULT) <==>
            DoPipe2(c, cloexec, nonblock, true).0 == Value(0)
    ensures DoPipe2(c, cloexec, nonblock, false).0 == Fail(FAULT) ==>
      var after := DoPipe2(c, cloexec, nonblock, false).1;
      && !IsOpen(c.ctx.task.fds, r) && !IsOpen(c.ctx.task.fds, w) && !Live(c.sh.pipes, p)
      && ReadsPipe(after.sh, after.ctx.task, r, p) && WritesPipe(after.sh, after.ctx.task, w, p)
  {
    hide Inserted, Sound, PipeReadEnd, ReadsPipe, WritesPipe;
    r, w, p := 0, 0, 0;
    InsertedFresh(c.sh.pipes, Pipe([], 1, 1), c.sh.limits.openFiles);
    var (pipes, made) := Inserted(c.sh.pipes, Pipe([], 1, 1), c.sh.limits.openFiles);
    if made.Some? {
      p := made.value;
      r, w := EndsOpen(WithPipe(c, pipes, p), p, cloexec, nonblock);
    }
  }

  lemma EndsOpen(c: Cpu, p: nat, cloexec: bool, nonblock: bool) returns (r: nat, w: nat)
    requires Sound(c.sh.descs) && Live(c.sh.pipes, p)
    ensures PipeReadEnd(c, p, cloexec, nonblock, false).1 == PipeReadEnd(c, p, cloexec, nonblock, true).1
    ensures PipeReadEnd(c, p, cloexec, nonblock, false).0 == Fail(FAULT) <==>
            PipeReadEnd(c, p, cloexec, nonblock, true).0 == Value(0)
    ensures PipeReadEnd(c, p, cloexec, nonblock, false).0 == Fail(FAULT) ==>
      var after := PipeReadEnd(c, p, cloexec, nonblock, false).1;
      && !IsOpen(c.ctx.task.fds, r) && !IsOpen(c.ctx.task.fds, w)
      && ReadsPipe(after.sh, after.ctx.task, r, p) && WritesPipe(after.sh, after.ctx.task, w, p)
  {
    hide Inserted, Sound, PipeFds;
    var limit := c.sh.limits.openFiles;
    r, w := 0, 0;
    InsertedFresh(c.sh.descs, ReadEnd(p, nonblock), limit * 4);
    var (descs1, one) := Inserted(c.sh.descs, ReadEnd(p, nonblock), limit * 4);
    if one.Some? {
      InsertedFresh(descs1, WriteEnd(p, nonblock), limit * 4);
      var (descs2, two) := Inserted(descs1, WriteEnd(p, nonblock), limit * 4);
      if two.Some? {
        r, w := FdsOpen(WithDescs(WithDescs(c, descs1), descs2), one.value, two.value, cloexec);
      }
    }
  }

  lemma FdsOpen(c: Cpu, one: nat, two: nat, cloexec: bool) returns (r: nat, w: nat)
    ensures PipeFds(c, one, two, cloexec, false).1 == PipeFds(c, one, two, cloexec, true).1
    ensures PipeFds(c, one, two, cloexec, false).0 == Fail(FAULT) <==>
            PipeFds(c, one, two, cloexec, true).0 == Value(0)
    ensures PipeFds(c, one, two, cloexec, false).0 == Fail(FAULT) ==>
      var after := PipeFds(c, one, two, cloexec, false).1;
      && !IsOpen(c.ctx.task.fds, r) && !IsOpen(c.ctx.task.fds, w) && r != w
      && after.sh == c.sh
      && IsOpen(after.ctx.task.fds, r) && after.ctx.task.fds[r].value.desc == one
      && IsOpen(after.ctx.task.fds, w) && after.ctx.task.fds[w].value.desc == two
  {
    hide ReleaseDesc;
    r, w := 0, 0;
    var limit := c.sh.limits.openFiles;
    var first := LowestFree(c.ctx.task.fds, 0, limit);
    if first.Some? {
      r := first.value;
      var fds := Placed(c.ctx.task.fds, r, Fd(one, cloexec));
      var second := LowestFree(fds, 0, limit);
      if second.Some? {
        w := second.value;
      }
    }
  }

  // ----- what the guest is told ----------------------------------------------------------

  /** After every call that is over, a guest that has registered its flag finds it up exactly if a signal is
      waiting that would do something. */
  lemma FlagTells(c: Cpu, call: Call, now: nat)
    requires var a := Dispatch(c, call, now).0; a.Value? || a.Fail?
    ensures var after := Dispatch(c, call, now).1;
      after.ctx.exec.hasFlag ==> (after.ctx.exec.flag <==> Interrupted(after.sh, after.ctx))
  {
    hide Handle, Interrupted;
    FlagsDown(Handle(Counted(c), call, now).1);
  }

  lemma FlagsDown(c: Cpu)
    ensures var after := Finished(c);
      after.ctx.exec.hasFlag ==> (after.ctx.exec.flag <==> Interrupted(after.sh, after.ctx))
  {
  }
}
