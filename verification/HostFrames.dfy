/** What one turn of a host command leaves alone, and that it keeps counts. */
module HostFrames {
  import opened Base
  import opened Slabs
  import opened Fds
  import opened Kernel
  import opened Syscalls
  import opened HostSteps
  import opened References
  import opened CallFrames
  import opened RefCalls
  import opened PipeCalls
  import opened Census

  /** What a host command's turn may change of the shared state. */
  ghost predicate HostOnly(sh: Shared, after: Shared) {
    && after == sh.(descs := after.descs, pipes := after.pipes, stdin := after.stdin, stdout := after.stdout,
                    stderr := after.stderr, table := after.table, vfsPending := after.vfsPending,
                    hostPending := after.hostPending, log := after.log)
    && SameShape(sh.table, after.table)
  }

  lemma {:induction false} DrainFrame(sh: Shared, t: Task, buffer: seq<byte>, vfs: seq<Vfs>)
    ensures var after := DrainStdin(sh, t, buffer, vfs).2; HostOnly(sh, after) && after.table == sh.table
    decreases |vfs|
  {
    hide ReadBytes;
    if |vfs| > 0 {
      ReadFrame(sh, t, 0, CHUNK, vfs[0]);
      var (got, sh') := ReadBytes(sh, t, 0, CHUNK, vfs[0]);
      if got.Got? && |got.bytes| > 0 {
        DrainFrame(sh', t, buffer + got.bytes, vfs[1..]);
      }
    }
  }

  lemma {:induction false} DrainKeeps(sh: Shared, t: Task, buffer: seq<byte>, vfs: seq<Vfs>, k: nat, p: nat,
    lostR: nat, lostW: nat)
    requires PipesOk(sh, p, lostR, lostW)
    ensures var after := DrainStdin(sh, t, buffer, vfs).2;
      PipesOk(after, p, lostR, lostW) && RefAt(after.descs, k) == RefAt(sh.descs, k)
    decreases |vfs|
  {
    hide ReadBytes, PipeOk, Sound;
    if |vfs| > 0 {
      ReadRefs(sh, t, 0, CHUNK, vfs[0], k);
      ReadPipes(sh, t, 0, CHUNK, vfs[0], p, lostR, lostW);
      var (got, sh') := ReadBytes(sh, t, 0, CHUNK, vfs[0]);
      if got.Got? && |got.bytes| > 0 {
        DrainKeeps(sh', t, buffer + got.bytes, vfs[1..], k, p, lostR, lostW);
      }
    }
  }

  lemma {:induction false} FlushFrame(sh: Shared, t: Task, fd: int, bytes: seq<byte>, done: nat, vfs: seq<Vfs>, i: nat)
    requires done <= |bytes|
    ensures var after := FlushTo(sh, t, fd, bytes, done, vfs, i).2; HostOnly(sh, after) && after.descs == sh.descs
    decreases |bytes| - done
  {
    hide WriteBytes, Raised;
    if done < |bytes| {
      WriteFrame(sh, t, fd, bytes[done..], VfsAt(vfs, i));
      RaisedShape(sh.table, t.pid, SIGPIPE);
      var (put, sh') := WriteBytes(sh, t, fd, bytes[done..], VfsAt(vfs, i));
      if put.Put? && put.count > 0 {
        FlushFrame(sh', t, fd, bytes, done + put.count, vfs, i + 1);
      }
    }
  }

  lemma {:induction false} FlushKeeps(sh: Shared, t: Task, fd: int, bytes: seq<byte>, done: nat, vfs: seq<Vfs>, i: nat,
                                      p: nat, lostR: nat, lostW: nat)
    requires done <= |bytes| && PipesOk(sh, p, lostR, lostW)
    ensures PipesOk(FlushTo(sh, t, fd, bytes, done, vfs, i).2, p, lostR, lostW)
    decreases |bytes| - done
  {
    hide WriteBytes, PipeOk, Sound;
    if done < |bytes| {
      WritePipes(sh, t, fd, bytes[done..], VfsAt(vfs, i), p, lostR, lostW);
      var (put, sh') := WriteBytes(sh, t, fd, bytes[done..], VfsAt(vfs, i));
      if put.Put? && put.count > 0 {
        FlushKeeps(sh', t, fd, bytes, done + put.count, vfs, i + 1, p, lostR, lostW);
      }
    }
  }

  lemma BothFrame(sh: Shared, t: Task, ph: Phase, vfsOut: seq<Vfs>, vfsErr: seq<Vfs>)
    requires ph.Flushing? && PhaseOk(ph)
    ensures var (step, ph', after) := FlushBoth(sh, t, ph, vfsOut, vfsErr);
      HostOnly(sh, after) && after.descs == sh.descs && PhaseOk(ph')
  {
    hide FlushTo;
    FlushFrame(sh, t, 1, ph.out, ph.outDone, vfsOut, 0);
    var (f1, outDone, sh1) := FlushTo(sh, t, 1, ph.out, ph.outDone, vfsOut, 0);
    FlushFrame(sh1, t, 2, ph.err, ph.errDone, vfsErr, 0);
  }

  lemma BothKeeps(sh: Shared, t: Task, ph: Phase, vfsOut: seq<Vfs>, vfsErr: seq<Vfs>, p: nat, lostR: nat, lostW: nat)
    requires ph.Flushing? && PhaseOk(ph) && PipesOk(sh, p, lostR, lostW)
    ensures PipesOk(FlushBoth(sh, t, ph, vfsOut, vfsErr).2, p, lostR, lostW)
  {
    hide FlushTo, PipesOk;
    FlushKeeps(sh, t, 1, ph.out, ph.outDone, vfsOut, 0, p, lostR, lostW);
    var (f1, outDone, sh1) := FlushTo(sh, t, 1, ph.out, ph.outDone, vfsOut, 0);
    FlushKeeps(sh1, t, 2, ph.err, ph.errDone, vfsErr, 0, p, lostR, lostW);
  }

  lemma HostFrame(sh: Shared, t: Task, readsStdin: bool, ph: Phase, o: HostOracle)
    requires PhaseOk(ph)
    ensures var r := StepHost(sh, t, readsStdin, ph, o);
      r.Some? ==> HostOnly(sh, r.value.2) && PhaseOk(r.value.1)
  {
    hide DrainStdin, FlushBoth;
    match ph
    case Flushing(_, _, _, _, _) => BothFrame(sh, t, ph, o.outs, o.errs);
    case Reading(buffer) =>
      DrainFrame(sh, t, buffer, o.ins);
      if !o.answer.NotYet? {
        BothFrame(if readsStdin then DrainStdin(sh, t, buffer, o.ins).2 else sh, t, Started(o.answer), o.outs, o.errs);
      }
  }

  /** A host command's turn takes and gives no reference and no pipe end. */
  lemma HostKeeps(sh: Shared, t: Task, readsStdin: bool, ph: Phase, o: HostOracle, k: nat, p: nat,
    lostR: nat, lostW: nat)
    requires PhaseOk(ph) && PipesOk(sh, p, lostR, lostW)
    ensures var r := StepHost(sh, t, readsStdin, ph, o);
      r.Some? ==> PipesOk(r.value.2, p, lostR, lostW) && RefAt(r.value.2.descs, k) == RefAt(sh.descs, k)
  {
    hide DrainStdin, FlushBoth, Sound;
    match ph
    case Flushing(_, _, _, _, _) =>
      BothFrame(sh, t, ph, o.outs, o.errs);
      BothKeeps(sh, t, ph, o.outs, o.errs, p, lostR, lostW);
    case Reading(buffer) =>
      DrainKeeps(sh, t, buffer, o.ins, k, p, lostR, lostW);
      if !o.answer.NotYet? {
        var sh1 := if readsStdin then DrainStdin(sh, t, buffer, o.ins).2 else sh;
        BothFrame(sh1, t, Started(o.answer), o.outs, o.errs);
        BothKeeps(sh1, t, Started(o.answer), o.outs, o.errs, p, lostR, lostW);
      }
  }
}
