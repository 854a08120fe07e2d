/** A host command as a process: drain standard input, run, flush two outputs, each step able to
    stop and be resumed. */
module HostSteps {
  import opened Base
  import opened Slabs
  import opened Fds
  import opened Kernel
  import opened Syscalls

  const CHUNK: nat := 8192

  datatype Phase =
    | Reading(buffer: seq<byte>)
    | Flushing(status: int, out: seq<byte>, err: seq<byte>, outDone: nat, errDone: nat)

  /** What the command is handed. */
  datatype Invocation = Invocation(argv: seq<seq<byte>>, envp: seq<seq<byte>>, cwd: string, stdin: seq<byte>)

  /** What the command answered; `complaint` is the message reporting that it could not run. */
  datatype HostAnswer =
    | Ran(status: int, out: seq<byte>, err: seq<byte>)
    | NotYet
    | CannotRun(complaint: seq<byte>)

  datatype HostStep = Stuck | EndedWith(status: int)

  /** How draining standard input left off. `Endless` is no outcome of the source: it says the
      loop was still going when the filesystem answers given to it ran out. */
  datatype Drain = Done | WantsMore | Endless

  /** Read chunk after chunk from descriptor 0 until end of file, an error, or a wait. */
  function DrainStdin(sh: Shared, t: Task, buffer: seq<byte>, vfs: seq<Vfs>): (Drain, seq<byte>, Shared)
    decreases |vfs|
  {
    if |vfs| == 0 then (Endless, buffer, sh)
    else
      var (got, sh') := ReadBytes(sh, t, 0, CHUNK, vfs[0]);
      match got
      case Got(bytes) => if |bytes| == 0 then (Done, buffer, sh') else DrainStdin(sh', t, buffer + bytes, vfs[1..])
      case ReadWaits => (WantsMore, buffer, sh')
      case NoRead(_) => (Done, buffer, sh')
  }

  function Started(answer: HostAnswer): Phase
    requires !answer.NotYet?
  {
    match answer
    case Ran(status, out, err) => Flushing(StatusExited(status), out, err, 0, 0)
    case CannotRun(complaint) => Flushing(StatusExited(126), [], complaint, 0, 0)
  }

  datatype Flush = Through | Jammed

  function VfsAt(vfs: seq<Vfs>, i: nat): Vfs {
    if i < |vfs| then vfs[i] else Fine([], 0)
  }

  /** Write what is left of one stream, resumable where it stops; an error or a write of nothing
      gives the stream up. */
  function FlushTo(sh: Shared, t: Task, fd: int, bytes: seq<byte>, done: nat, vfs: seq<Vfs>,
    i: nat): (r: (Flush, nat, Shared))
    requires done <= |bytes|
    ensures done <= r.1 <= |bytes|
    decreases |bytes| - done
  {
    if done == |bytes| then (Through, done, sh)
    else
      var (put, sh') := WriteBytes(sh, t, fd, bytes[done..], VfsAt(vfs, i));
      match put
      case Put(n) => if n == 0 then (Through, done, sh') else FlushTo(sh', t, fd, bytes, done + n, vfs, i + 1)
      case WriteWaits => (Jammed, done, sh')
      case NoWrite(_) => (Through, done, sh')
  }

  predicate PhaseOk(ph: Phase) {
    ph.Flushing? ==> ph.outDone <= |ph.out| && ph.errDone <= |ph.err|
  }

  /** Standard output first, then standard error. */
  function FlushBoth(sh: Shared, t: Task, ph: Phase, vfsOut: seq<Vfs>, vfsErr: seq<Vfs>): (HostStep, Phase, Shared)
    requires ph.Flushing? && PhaseOk(ph)
  {
    var (f1, outDone, sh1) := FlushTo(sh, t, 1, ph.out, ph.outDone, vfsOut, 0);
    var ph1 := ph.(outDone := outDone);
    if f1.Jammed? then (Stuck, ph1, sh1)
    else
      var (f2, errDone, sh2) := FlushTo(sh1, t, 2, ph1.err, ph1.errDone, vfsErr, 0);
      var ph2 := ph1.(errDone := errDone);
      if f2.Jammed? then (Stuck, ph2, sh2) else (EndedWith(ph.status), ph2, sh2)
  }

  /** The filesystem answers one step may need, and the command's own. */
  datatype HostOracle = HostOracle(ins: seq<Vfs>, answer: HostAnswer, outs: seq<Vfs>, errs: seq<Vfs>)

  /** One turn of the scheduler for a host command; `None` when draining never ends. */
  function StepHost(sh: Shared, t: Task, readsStdin: bool, ph: Phase, o: HostOracle): Option<(HostStep, Phase, Shared)>
    requires PhaseOk(ph)
  {
    match ph
    case Flushing(_, _, _, _, _) => Some(FlushBoth(sh, t, ph, o.outs, o.errs))
    case Reading(buffer) =>
      var (drain, all, sh1) := if readsStdin then DrainStdin(sh, t, buffer, o.ins) else (Done, buffer, sh);
      match drain
      case Endless => None
      case WantsMore => Some((Stuck, Reading(all), sh1))
      case Done =>
        if o.answer.NotYet? then Some((Stuck, Reading(all), sh1.(hostPending := true)))
        else Some(FlushBoth(sh1, t, Started(o.answer), o.outs, o.errs))
  }
}
