/** One turn of a host command: what it reads, what it is handed, what its writes put in, and that
    the session's history records exactly that. */
module HostOnce {
  import opened Base
  import opened Slabs
  import opened Fds
  import opened Kernel
  import opened Syscalls
  import opened HostSteps
  import opened Fifo
  import opened Steady
  import opened CallFrames
  import opened Reads

  /** Descriptor `fd` is a reading end of pipe `p`. */
  ghost predicate ReadsPipe(sh: Shared, t: Task, fd: int, p: nat) {
    && IsOpen(t.fds, fd) && Live(sh.descs, t.fds[fd].value.desc) && Live(sh.pipes, p)
    && DescAt(sh, t, fd).kind == PipeRead(p) && DescAt(sh, t, fd).Readable()
  }

  /** Descriptor `fd` is a writing end of pipe `p`. */
  ghost predicate WritesPipe(sh: Shared, t: Task, fd: int, p: nat) {
    && IsOpen(t.fds, fd) && Live(sh.descs, t.fds[fd].value.desc) && Live(sh.pipes, p)
    && DescAt(sh, t, fd).kind == PipeWrite(p) && DescAt(sh, t, fd).Writable()
  }

  ghost function DescAt(sh: Shared, t: Task, fd: int): Desc
    requires IsOpen(t.fds, fd) && Live(sh.descs, t.fds[fd].value.desc)
  {
    At(sh.descs, t.fds[fd].value.desc).value
  }

  ghost function PipeAt(sh: Shared, p: nat): Pipe
    requires Live(sh.pipes, p)
  {
    At(sh.pipes, p).value
  }

  /** No bytes, and nobody to write any. */
  ghost predicate AtEnd(sh: Shared, p: nat) {
    Live(sh.pipes, p) && PipeAt(sh, p).data == [] && PipeAt(sh, p).writers == 0
  }

  // ----- a stretch of history ------------------------------------------------------------

  /** What was added to a history. */
  ghost function New(log: seq<Event>, after: seq<Event>): seq<Event> {
    if log <= after then after[|log|..] else []
  }

  /** The bytes pipes returned to readers in a stretch of history. */
  ghost function ReturnedIn(events: seq<Event>): seq<byte> {
    if |events| == 0 then [] else ReturnedIn(events[..|events| - 1]) + ReturnedBy(events[|events| - 1])
  }

  /** The bytes pipes accepted from writers in a stretch of history. */
  ghost function AcceptedIn(events: seq<Event>): seq<byte> {
    if |events| == 0 then [] else AcceptedIn(events[..|events| - 1]) + AcceptedBy(events[|events| - 1])
  }

  function ReturnedBy(e: Event): seq<byte> {
    if e.Returned? then e.bytes else []
  }

  function AcceptedBy(e: Event): seq<byte> {
    if e.Accepted? then e.bytes else []
  }

  lemma {:induction false} InConcat(a: seq<Event>, b: seq<Event>)
    ensures ReturnedIn(a + b) == ReturnedIn(a) + ReturnedIn(b)
    ensures AcceptedIn(a + b) == AcceptedIn(a) + AcceptedIn(b)
  {
    hide ReturnedBy, AcceptedBy;
    if |b| == 0 {
      assert a + b == a;
    } else {
      var n := |b| - 1;
      InConcat(a, b[..n]);
      InOneMore(a + b[..n], b[n]);
      InOneMore(b[..n], b[n]);
      assert a + b == a + b[..n] + [b[n]] && b == b[..n] + [b[n]];
      hide ReturnedIn, AcceptedIn;
    }
  }

  lemma InOneMore(events: seq<Event>, e: Event)
    ensures ReturnedIn(events + [e]) == ReturnedIn(events) + ReturnedBy(e)
    ensures AcceptedIn(events + [e]) == AcceptedIn(events) + AcceptedBy(e)
  {
    hide ReturnedBy, AcceptedBy;
    OneMore(events, e);
  }

  lemma NewOne(log: seq<Event>, e: Event)
    ensures New(log, log + [e]) == [e] && New(log, log) == []
    ensures ReturnedIn([e]) == ReturnedBy(e) && AcceptedIn([e]) == AcceptedBy(e)
  {
    assert [e][..0] == [];
  }

  lemma NewTrans(a: seq<Event>, b: seq<Event>, c: seq<Event>)
    requires a <= b <= c
    ensures New(a, c) == New(a, b) + New(b, c)
    ensures ReturnedIn(New(a, c)) == ReturnedIn(New(a, b)) + ReturnedIn(New(b, c))
    ensures AcceptedIn(New(a, c)) == AcceptedIn(New(a, b)) + AcceptedIn(New(b, c))
  {
    assert c[|a|..] == b[|a|..] + c[|b|..];
    InConcat(b[|a|..], c[|b|..]);
  }

  // ----- reading to the end --------------------------------------------------------------

  /** One chunk: bytes off the front, the end, a wait, or, from an end that does not wait, a
      refusal. */
  lemma ChunkRead(sh: Shared, t: Task, p: nat, vfs: Vfs)
    requires ReadsPipe(sh, t, 0, p)
    ensures var (got, after) := ReadBytes(sh, t, 0, CHUNK, vfs);
      && ReadsPipe(after, t, 0, p) && DescAt(after, t, 0) == DescAt(sh, t, 0) && sh.log <= after.log
      && PipeAt(after, p).writers == PipeAt(sh, p).writers
      && ReturnedIn(New(sh.log, after.log)) == (if got.Got? then got.bytes else [])
      && (EndOfFile(p) in New(sh.log, after.log) <==> got == Got([]))
      && (got.ReadWaits? ==> !DescAt(sh, t, 0).nonblock && PipeAt(sh, p).writers > 0)
      && (got.NoRead? ==> DescAt(sh, t, 0).nonblock && PipeAt(sh, p).writers > 0)
      && (got == Got([]) ==> AtEnd(after, p) && EofSeen(after.log, p) && PipeAt(sh, p).writers == 0)
      && (got.Got? && got.bytes != [] ==> |PipeAt(after, p).data| < |PipeAt(sh, p).data|)
  {
    var d := DescAt(sh, t, 0);
    var q := PipeAt(sh, p);
    var n := Min(|q.data|, CHUNK);
    NewOne(sh.log, EndOfFile(p));
    NewOne(sh.log, Returned(p, q.data[..n]));
    NothingIn();
    OneMore(sh.log, EndOfFile(p));
    hide New, ReturnedIn, AcceptedIn;
    assert ReadBytes(sh, t, 0, CHUNK, vfs) == ReadPipe(sh, p, d.nonblock, CHUNK);
    var (got, after) := ReadPipe(sh, p, d.nonblock, CHUNK);
    if |q.data| > 0 {
      assert At(after.pipes, p) == Some(q.(data := q.data[n..]));
    }
  }

  /** What is drained is what the reads returned, in order, after what had been drained before. Once
      draining is over it has met end of file if and only if the end it reads waits or the pipe has no
      writers left, which draining does not change. */
  lemma {:induction false} DrainReads(sh: Shared, t: Task, buffer: seq<byte>, vfs: seq<Vfs>, p: nat)
    requires ReadsPipe(sh, t, 0, p)
    ensures var (drain, all, after) := DrainStdin(sh, t, buffer, vfs);
      && ReadsPipe(after, t, 0, p) && sh.log <= after.log && PipeAt(after, p).writers == PipeAt(sh, p).writers
      && all == buffer + ReturnedIn(New(sh.log, after.log))
      && (EndOfFile(p) in New(sh.log, after.log) <==> drain.Done? && WillEnd(sh, t, p))
      && (EndOfFile(p) in New(sh.log, after.log) ==> AtEnd(after, p) && EofSeen(after.log, p))
    decreases |vfs|
  {
    hide ReadBytes, AtEnd, EofSeen, New, ReturnedIn, AcceptedIn, ReadsPipe;
    NewOne(sh.log, EndOfFile(p));
    assert ReturnedIn([]) == [] by { NothingIn(); }
    if |vfs| > 0 {
      ChunkRead(sh, t, p, vfs[0]);
      var (got, sh') := ReadBytes(sh, t, 0, CHUNK, vfs[0]);
      if got.Got? && |got.bytes| > 0 {
        DrainReads(sh', t, buffer + got.bytes, vfs[1..], p);
        NewTrans(sh.log, sh'.log, DrainStdin(sh', t, buffer + got.bytes, vfs[1..]).2.log);
      }
    }
  }

  /** Draining, if it gets to an end, gets to end of file: the descriptor waits for the writers, or
      there are none. */
  ghost predicate WillEnd(sh: Shared, t: Task, p: nat) {
    ReadsPipe(sh, t, 0, p) && (!DescAt(sh, t, 0).nonblock || PipeAt(sh, p).writers == 0)
  }

  lemma NothingIn()
    ensures ReturnedIn([]) == [] && AcceptedIn([]) == []
  {
  }

  /** Descriptor 0 reads a mounted file, whose filesystem answers as it likes. */
  predicate FromMount(sh: Shared, t: Task) {
    OpenToRead(sh, t, 0) && NamesFile(sh, t, 0)
  }

  /** Descriptor 0 reads `/dev/zero` or a source of random bytes. */
  predicate Bottomless(sh: Shared, t: Task) {
    OpenToRead(sh, t, 0) && GivesAlways(At(sh.descs, t.fds[0].value.desc).value)
  }

  /** How many bytes there are to drain, if not from a filesystem or without end. */
  function Depth(sh: Shared, t: Task): nat {
    if OpenToRead(sh, t, 0) then |BytesLeft(sh, t, 0)| else 0
  }

  /** One chunk of anything but a mounted file: no end of it, or fewer bytes left than before. */
  lemma ChunkShrinks(sh: Shared, t: Task, vfs: Vfs)
    requires !FromMount(sh, t)
    ensures var (got, after) := ReadBytes(sh, t, 0, CHUNK, vfs);
      if Bottomless(sh, t) then got == Got(Zeros(CHUNK)) && after == sh
      else got.Got? && got.bytes != [] ==>
        !FromMount(after, t) && !Bottomless(after, t) && Depth(after, t) < Depth(sh, t)
  {
    hide Zeros, BytesLeft;
    if Bottomless(sh, t) {
      assert ReadBytes(sh, t, 0, CHUNK, vfs) == (Got(Zeros(CHUNK)), sh);
    } else if OpenToRead(sh, t, 0) {
      hide ReadBytes;
      ReadTakes(sh, t, 0, CHUNK, vfs);
    } else {
      assert ReadBytes(sh, t, 0, CHUNK, vfs).0.NoRead?;
    }
  }

  /** Draining ends within as many reads as there are bytes, whatever descriptor 0 is, open or not,
      unless it is a mounted file or one of the devices that have no end. */
  lemma {:induction false} DrainEnds(sh: Shared, t: Task, buffer: seq<byte>, vfs: seq<Vfs>)
    requires !FromMount(sh, t) && !Bottomless(sh, t) && |vfs| > Depth(sh, t)
    ensures !DrainStdin(sh, t, buffer, vfs).0.Endless?
    decreases |vfs|
  {
    hide ReadBytes, FromMount, Bottomless, Depth;
    ChunkShrinks(sh, t, vfs[0]);
    var (got, sh') := ReadBytes(sh, t, 0, CHUNK, vfs[0]);
    if got.Got? && |got.bytes| > 0 {
      DrainEnds(sh', t, buffer + got.bytes, vfs[1..]);
    }
  }

  /** With `/dev/zero`, `/dev/random` or `/dev/urandom` on descriptor 0 there is no end: the loop is
      still going however many times it has read. */
  lemma {:induction false} DevicesNeverEnd(sh: Shared, t: Task, buffer: seq<byte>, vfs: seq<Vfs>)
    requires Bottomless(sh, t)
    ensures DrainStdin(sh, t, buffer, vfs).0.Endless?
    decreases |vfs|
  {
    hide ReadBytes, FromMount, Bottomless;
    if |vfs| > 0 {
      assert !FromMount(sh, t) by { NotBoth(sh, t); }
      ChunkShrinks(sh, t, vfs[0]);
      DevicesNeverEnd(sh, t, buffer + Zeros(CHUNK), vfs[1..]);
    }
  }

  lemma NotBoth(sh: Shared, t: Task)
    ensures !(FromMount(sh, t) && Bottomless(sh, t))
  {
  }

  /** The reading loop of a host command goes on for ever exactly when descriptor 0, not being a
      mounted file, is open for reading on `/dev/zero` or a source of random bytes. */
  lemma EndlessExactly(sh: Shared, t: Task, buffer: seq<byte>)
    requires !FromMount(sh, t)
    ensures (forall vfs: seq<Vfs> :: DrainStdin(sh, t, buffer, vfs).0.Endless?) <==> Bottomless(sh, t)
  {
    hide DrainStdin, FromMount, Bottomless, Depth;
    if Bottomless(sh, t) {
      forall vfs: seq<Vfs> ensures DrainStdin(sh, t, buffer, vfs).0.Endless? {
        DevicesNeverEnd(sh, t, buffer, vfs);
      }
    } else {
      var enough := seq(Depth(sh, t) + 1, _ => Refuses(AGAIN));
      DrainEnds(sh, t, buffer, enough);
      assert !DrainStdin(sh, t, buffer, enough).0.Endless?;
    }
  }

  /** The filesystem has bytes to give. */
  predicate Gives(vfs: Vfs) {
    vfs.Fine? && vfs.bytes != []
  }

  /** From a mounted file draining goes on exactly as long as the filesystem has bytes to give. */
  lemma {:induction false} MountEndless(sh: Shared, t: Task, buffer: seq<byte>, vfs: seq<Vfs>)
    requires FromMount(sh, t)
    ensures DrainStdin(sh, t, buffer, vfs).0.Endless? <==> forall i :: 0 <= i < |vfs| ==> Gives(vfs[i])
    decreases |vfs|
  {
    hide ReadBytes, FromMount;
    if |vfs| > 0 {
      MountChunk(sh, t, vfs[0]);
      var (got, sh') := ReadBytes(sh, t, 0, CHUNK, vfs[0]);
      if Gives(vfs[0]) {
        MountEndless(sh, t, buffer + got.bytes, vfs[1..]);
        assert forall i :: 0 < i < |vfs| ==> vfs[i] == vfs[1..][i - 1];
      }
    }
  }

  lemma MountChunk(sh: Shared, t: Task, vfs: Vfs)
    requires FromMount(sh, t)
    ensures var (got, after) := ReadBytes(sh, t, 0, CHUNK, vfs);
      (got.Got? && got.bytes != [] <==> Gives(vfs)) && (Gives(vfs) ==> after == sh)
  {
    assert ReadBytes(sh, t, 0, CHUNK, vfs) == ReadDesc(sh, t.fds[0].value.desc, DescAt(sh, t, 0), CHUNK, vfs);
    if Gives(vfs) {
      assert |vfs.bytes[..Min(|vfs.bytes|, CHUNK)]| > 0;
    }
  }

  /** At the end of a pipe nothing more is drained. */
  lemma DrainAtEnd(sh: Shared, t: Task, buffer: seq<byte>, vfs: seq<Vfs>, p: nat)
    requires ReadsPipe(sh, t, 0, p) && AtEnd(sh, p)
    ensures var (drain, all, _) := DrainStdin(sh, t, buffer, vfs); all == buffer && !drain.WantsMore?
  {
    if |vfs| > 0 {
      assert ReadBytes(sh, t, 0, CHUNK, vfs[0]).0 == Got([]);
    }
  }

  /** An end that does not wait, as any process sharing it can make it, is drained no further than
      the bytes there are: an empty pipe with writers counts as the end of input, so that a retry
      can find more. */
  lemma DrainEarly(sh: Shared, t: Task, buffer: seq<byte>, vfs: seq<Vfs>, p: nat)
    requires ReadsPipe(sh, t, 0, p) && |vfs| > 0 && PipeAt(sh, p).data == [] && PipeAt(sh, p).writers > 0
    ensures DrainStdin(sh, t, buffer, vfs)
         == (if DescAt(sh, t, 0).nonblock then Done else WantsMore, buffer, sh)
  {
    assert ReadBytes(sh, t, 0, CHUNK, vfs[0]) == ReadPipe(sh, p, DescAt(sh, t, 0).nonblock, CHUNK);
  }

  // ----- writing what is left ------------------------------------------------------------

  /** The bytes the writes of a flush were told were accepted, in order. */
  function Sent(sh: Shared, t: Task, fd: int, bytes: seq<byte>, done: nat, vfs: seq<Vfs>, i: nat): seq<byte>
    requires done <= |bytes|
    decreases |bytes| - done
  {
    if done == |bytes| then []
    else
      var (put, sh') := WriteBytes(sh, t, fd, bytes[done..], VfsAt(vfs, i));
      match put
      case Put(n) => if n == 0 then [] else bytes[done..][..n] + Sent(sh', t, fd, bytes, done + n, vfs, i + 1)
      case _ => []
  }

  /** A write of the flush failed, or took nothing. */
  predicate Refused(sh: Shared, t: Task, fd: int, bytes: seq<byte>, done: nat, vfs: seq<Vfs>, i: nat)
    requires done <= |bytes|
    decreases |bytes| - done
  {
    done < |bytes| &&
    var (put, sh') := WriteBytes(sh, t, fd, bytes[done..], VfsAt(vfs, i));
    match put
    case Put(n) => n == 0 || Refused(sh', t, fd, bytes, done + n, vfs, i + 1)
    case NoWrite(_) => true
    case WriteWaits => false
  }

  /** Whatever the descriptor is, the cursor moves over exactly the bytes accepted; a flush that
      goes through has sent the whole stream exactly if no write failed. */
  lemma {:induction false} FlushSends(sh: Shared, t: Task, fd: int, bytes: seq<byte>, done: nat, vfs: seq<Vfs>, i: nat)
    requires done <= |bytes|
    ensures var (f, to, _) := FlushTo(sh, t, fd, bytes, done, vfs, i);
      && bytes[..done] + Sent(sh, t, fd, bytes, done, vfs, i) == bytes[..to]
      && (f.Through? ==> (to == |bytes| <==> !Refused(sh, t, fd, bytes, done, vfs, i)))
      && (f.Jammed? ==> to < |bytes| && !Refused(sh, t, fd, bytes, done, vfs, i))
    decreases |bytes| - done
  {
    hide WriteBytes;
    if done < |bytes| {
      var (put, sh') := WriteBytes(sh, t, fd, bytes[done..], VfsAt(vfs, i));
      if put.Put? && put.count > 0 {
        FlushSends(sh', t, fd, bytes, done + put.count, vfs, i + 1);
        assert bytes[..done] + bytes[done..][..put.count] == bytes[..done + put.count];
      }
    }
  }

  /** One write to a pipe takes what there is room for, and the history records just that. */
  lemma ChunkWritten(sh: Shared, t: Task, fd: int, data: seq<byte>, vfs: Vfs, p: nat)
    requires WritesPipe(sh, t, fd, p) && data != []
    ensures var (put, after) := WriteBytes(sh, t, fd, data, vfs);
      var q := PipeAt(sh, p);
      && WritesPipe(after, t, fd, p) && DescAt(after, t, fd) == DescAt(sh, t, fd) && sh.log <= after.log
      && AcceptedIn(New(sh.log, after.log)) == (if put.Put? then data[..put.count] else [])
      && PipeAt(after, p).readers == q.readers
      && (put.Put? <==> q.readers > 0 && q.Room() > 0)
      && (put.Put? ==> put.count == Min(q.Room(), |data|) && PipeAt(after, p).Room() == q.Room() - put.count)
      && (put.NoWrite? <==> q.readers == 0 || (q.Room() == 0 && DescAt(sh, t, fd).nonblock))
  {
    hide Raised;
    var d := DescAt(sh, t, fd);
    var q := PipeAt(sh, p);
    NewOne(sh.log, Accepted(p, data[..Min(q.Room(), |data|)]));
    NothingIn();
    assert WriteBytes(sh, t, fd, data, vfs) == WritePipe(sh, t.pid, p, d.nonblock, data);
  }

  /** Flushing into a pipe: everything there is room for goes in, none of it without a reader; the
      history records exactly the bytes sent; and a write fails exactly if nobody reads the pipe, or
      the pipe fills up and the descriptor does not wait. */
  lemma {:induction false} PipeFlush(sh: Shared, t: Task, fd: int, bytes: seq<byte>, done: nat, vfs: seq<Vfs>, i: nat,
                                     p: nat)
    requires done <= |bytes| && WritesPipe(sh, t, fd, p)
    ensures var (f, to, after) := FlushTo(sh, t, fd, bytes, done, vfs, i);
      var q := PipeAt(sh, p);
      && sh.log <= after.log
      && AcceptedIn(New(sh.log, after.log)) == Sent(sh, t, fd, bytes, done, vfs, i)
      && to == (if q.readers == 0 then done else done + Min(q.Room(), |bytes| - done))
      && (Refused(sh, t, fd, bytes, done, vfs, i) <==>
            done < |bytes| && (q.readers == 0 || (DescAt(sh, t, fd).nonblock && |bytes| - done > q.Room())))
    decreases |bytes| - done
  {
    hide WriteBytes, New, AcceptedIn, ReturnedIn;
    NewOne(sh.log, EndOfFile(p));
    assert AcceptedIn([]) == [] by { NothingIn(); }
    if done < |bytes| {
      ChunkWritten(sh, t, fd, bytes[done..], VfsAt(vfs, i), p);
      var (put, sh') := WriteBytes(sh, t, fd, bytes[done..], VfsAt(vfs, i));
      if put.Put? {
        PipeFlush(sh', t, fd, bytes, done + put.count, vfs, i + 1, p);
        NewTrans(sh.log, sh'.log, FlushTo(sh', t, fd, bytes, done + put.count, vfs, i + 1).2.log);
      }
    }
  }

  // ----- one turn ------------------------------------------------------------------------

  /** What a turn begins with: standard input, if the command has not answered and reads it. */
  function Drawn(sh: Shared, t: Task, readsStdin: bool, ph: Phase, o: HostOracle): (Drain, seq<byte>, Shared) {
    match ph
    case Reading(buffer) => if readsStdin then DrainStdin(sh, t, buffer, o.ins) else (Done, buffer, sh)
    case Flushing(_, _, _, _, _) => (Done, [], sh)
  }

  /** The output a turn goes on with: its own from before, or that of an answer given now. */
  function ToFlush(sh: Shared, t: Task, readsStdin: bool, ph: Phase, o: HostOracle): (r: Option<Phase>)
    requires PhaseOk(ph)
    ensures r.Some? ==> r.value.Flushing? && PhaseOk(r.value)
  {
    if ph.Flushing? then Some(ph)
    else if Drawn(sh, t, readsStdin, ph, o).0.Done? && !o.answer.NotYet? then Some(Started(o.answer))
    else None
  }

  /** Where the flush of standard output starts and what it comes to. */
  function OutFlush(sh: Shared, t: Task, readsStdin: bool, ph: Phase, o: HostOracle): (Flush, nat, Shared)
    requires PhaseOk(ph) && ToFlush(sh, t, readsStdin, ph, o).Some?
  {
    var f := ToFlush(sh, t, readsStdin, ph, o).value;
    FlushTo(Drawn(sh, t, readsStdin, ph, o).2, t, 1, f.out, f.outDone, o.outs, 0)
  }

  /** Standard error is flushed in the same turn unless standard output has to wait. */
  predicate ReachesErr(sh: Shared, t: Task, readsStdin: bool, ph: Phase, o: HostOracle)
    requires PhaseOk(ph)
  {
    ToFlush(sh, t, readsStdin, ph, o).Some? && OutFlush(sh, t, readsStdin, ph, o).0.Through?
  }

  /** The state in which a turn comes to read descriptor 0, or to write descriptor 1 or 2. */
  function Before(sh: Shared, t: Task, readsStdin: bool, ph: Phase, o: HostOracle, fd: int): Shared
    requires PhaseOk(ph) && (fd == 2 ==> ReachesErr(sh, t, readsStdin, ph, o))
  {
    if fd == 2 then OutFlush(sh, t, readsStdin, ph, o).2
    else if fd == 1 then Drawn(sh, t, readsStdin, ph, o).2
    else sh
  }

  /** The bytes a turn got accepted on descriptor 1 or 2. */
  function TurnSent(sh: Shared, t: Task, readsStdin: bool, ph: Phase, o: HostOracle, fd: int): seq<byte>
    requires PhaseOk(ph)
  {
    match ToFlush(sh, t, readsStdin, ph, o)
    case None => []
    case Some(f) =>
      if fd == 1 then Sent(Before(sh, t, readsStdin, ph, o, 1), t, 1, f.out, f.outDone, o.outs, 0)
      else if fd == 2 && ReachesErr(sh, t, readsStdin, ph, o) then
        Sent(Before(sh, t, readsStdin, ph, o, 2), t, 2, f.err, f.errDone, o.errs, 0)
      else []
  }

  /** A write of this turn on descriptor 1 or 2 failed. */
  predicate TurnRefused(sh: Shared, t: Task, readsStdin: bool, ph: Phase, o: HostOracle, fd: int)
    requires PhaseOk(ph)
  {
    match ToFlush(sh, t, readsStdin, ph, o)
    case None => false
    case Some(f) =>
      if fd == 1 then Refused(Before(sh, t, readsStdin, ph, o, 1), t, 1, f.out, f.outDone, o.outs, 0)
      else
        fd == 2 && ReachesErr(sh, t, readsStdin, ph, o)
        && Refused(Before(sh, t, readsStdin, ph, o, 2), t, 2, f.err, f.errDone, o.errs, 0)
  }

  /** What a turn adds to the history while it is at descriptor 0, 1 or 2. */
  ghost function TurnEvents(sh: Shared, t: Task, readsStdin: bool, ph: Phase, o: HostOracle, fd: int): seq<Event>
    requires PhaseOk(ph)
  {
    var drawn := Drawn(sh, t, readsStdin, ph, o).2;
    if fd == 0 then New(sh.log, drawn.log)
    else match ToFlush(sh, t, readsStdin, ph, o)
      case None => []
      case Some(f) =>
        var out := OutFlush(sh, t, readsStdin, ph, o).2;
        if fd == 1 then New(drawn.log, out.log)
        else if fd == 2 && ReachesErr(sh, t, readsStdin, ph, o) then
          New(out.log, FlushTo(out, t, 2, f.err, f.errDone, o.errs, 0).2.log)
        else []
  }

  /** A turn adds to the history what it does at its three descriptors, and nothing else. */
  lemma TurnLog(sh: Shared, t: Task, readsStdin: bool, ph: Phase, o: HostOracle)
    requires PhaseOk(ph)
    ensures var r := StepHost(sh, t, readsStdin, ph, o);
      r.Some? ==> r.value.2.log == sh.log + TurnEvents(sh, t, readsStdin, ph, o, 0)
                                   + TurnEvents(sh, t, readsStdin, ph, o, 1) + TurnEvents(sh, t, readsStdin, ph, o, 2)
  {
    hide DrainStdin, FlushTo;
    if ph.Reading? {
      DrainAdds(sh, t, ph.buffer, o.ins, 0);
    }
    var drawn := Drawn(sh, t, readsStdin, ph, o).2;
    match ToFlush(sh, t, readsStdin, ph, o)
    case None =>
    case Some(f) =>
      FlushAdds(drawn, t, 1, f.out, f.outDone, o.outs, 0, 0);
      FlushAdds(OutFlush(sh, t, readsStdin, ph, o).2, t, 2, f.err, f.errDone, o.errs, 0, 0);
  }

  /** A turn as its parts: it stops at standard input or at an answer not ready; else the cursors
      move over what was sent, and it ends unless one of the two outputs has to wait. */
  lemma TurnParts(sh: Shared, t: Task, readsStdin: bool, ph: Phase, o: HostOracle)
    requires PhaseOk(ph)
    ensures var r := StepHost(sh, t, readsStdin, ph, o);
      var (drain, all, _) := Drawn(sh, t, readsStdin, ph, o);
      match ToFlush(sh, t, readsStdin, ph, o)
      case None =>
        (r.None? <==> drain.Endless?)
        && (r.Some? ==> r.value.0.Stuck? && r.value.1 == Reading(all) && (drain.Done? ==> o.answer.NotYet?))
      case Some(f) =>
        var out, err := TurnSent(sh, t, readsStdin, ph, o, 1), TurnSent(sh, t, readsStdin, ph, o, 2);
        && r.Some?
        && f.out[..f.outDone] + out <= f.out && f.err[..f.errDone] + err <= f.err
        && r.value.1 == f.(outDone := f.outDone + |out|, errDone := f.errDone + |err|)
        && (r.value.0.EndedWith? ==>
              && r.value.0.status == f.status && ReachesErr(sh, t, readsStdin, ph, o)
              && (f.out[..f.outDone] + out == f.out <==> !TurnRefused(sh, t, readsStdin, ph, o, 1))
              && (f.err[..f.errDone] + err == f.err <==> !TurnRefused(sh, t, readsStdin, ph, o, 2)))
  {
    hide DrainStdin, FlushTo, Sent, Refused;
    match ToFlush(sh, t, readsStdin, ph, o)
    case None =>
    case Some(f) =>
      FlushSends(Drawn(sh, t, readsStdin, ph, o).2, t, 1, f.out, f.outDone, o.outs, 0);
      FlushSends(OutFlush(sh, t, readsStdin, ph, o).2, t, 2, f.err, f.errDone, o.errs, 0);
  }
}
