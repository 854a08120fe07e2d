/** Writing, whatever is written to: where the bytes go, and what a vectored call adds up to. */
module Writes {
  import opened Base
  import opened Slabs
  import opened Fds
  import opened Kernel
  import opened Syscalls
  import opened References
  import opened CallFrames
  import opened Census
  import opened LifeFacts
  import opened Exits
  import opened HostOnce
  import opened Reads

  /** Output keeps what there is room for, and counts what it drops. */
  ghost predicate Appended(before: OutputBuffer, after: OutputBuffer, data: seq<byte>, limit: nat) {
    var room := if limit > |before.data| then limit - |before.data| else 0;
    && after.data == before.data + (if |data| <= room then data else data[..room])
    && after.dropped == Min(before.dropped + SubSat(|data|, room), U64_MAX)
  }

  /** A write to one of the session's outputs is taken whole and goes to that output: descriptor 2's is
      standard error, whatever number the writer has it under, any other's standard output. */
  lemma OutputLands(sh: Shared, t: Task, fd: int, data: seq<byte>, vfs: Vfs, which: nat)
    requires IsOpen(t.fds, fd) && Live(sh.descs, t.fds[fd].value.desc)
    requires DescAt(sh, t, fd).kind == Other(Stdout(which)) && DescAt(sh, t, fd).Writable()
    ensures
      var (put, after) := WriteBytes(sh, t, fd, data, vfs);
      && put == Put(|data|)
      && (if which == 2 then
            after == sh.(stderr := after.stderr) && Appended(sh.stderr, after.stderr, data, sh.limits.output)
          else after == sh.(stdout := after.stdout) && Appended(sh.stdout, after.stdout, data, sh.limits.output))
  {
    hide WritePipe, Pushed, Appended;
    PushedIsAppended(sh.stdout, data, sh.limits.output);
    PushedIsAppended(sh.stderr, data, sh.limits.output);
  }

  lemma PushedIsAppended(out: OutputBuffer, data: seq<byte>, limit: nat)
    ensures Appended(out, Pushed(out, data, limit), data, limit)
  {
  }

  /** A write into a pipe that somebody reads goes behind what is in it, as much as there is room for; with
      no room it waits, or is told to come back; and with nobody to read it fails and the writer has a
      SIGPIPE pending. */
  lemma PipeLands(sh: Shared, t: Task, fd: int, data: seq<byte>, vfs: Vfs, p: nat)
    requires WritesPipe(sh, t, fd, p) && |PipeAt(sh, p).data| <= 65536
    ensures
      var (put, after) := WriteBytes(sh, t, fd, data, vfs);
      var q := PipeAt(sh, p);
      var room := 65536 - |q.data|;
      && (q.readers == 0 ==>
            && put == NoWrite(PIPE) && after == sh.(table := after.table)
            && (Find(sh.table, t.pid).Some? ==> Pending(after, t.pid) == Pending(sh, t.pid) + {13})
            && forall x :: x != t.pid ==> Find(after.table, x) == Find(sh.table, x))
      && (q.readers > 0 && room == 0 ==>
            put == (if DescAt(sh, t, fd).nonblock then NoWrite(AGAIN) else WriteWaits) && after == sh)
      && (q.readers > 0 && room > 0 ==>
            && put == Put(Min(room, |data|)) && Live(after.pipes, p)
            && PipeAt(after, p) == q.(data := q.data + data[..Min(room, |data|)])
            && after == sh.(pipes := after.pipes, log := after.log)
            && forall o: nat :: o != p ==> At(after.pipes, o) == At(sh.pipes, o))
  {
    hide Raised, Find;
    if PipeAt(sh, p).readers == 0 {
      forall x ensures Find(Raised(sh.table, t.pid, SIGPIPE), x) ==
        if x == t.pid && Find(sh.table, t.pid).Some? then Some(RaisedOn(Find(sh.table, t.pid).value, SIGPIPE))
        else Find(sh.table, x)
      {
        RaisedFinds(sh.table, t.pid, SIGPIPE, x);
      }
    }
  }

  /** A descriptor that is not open for writing, or that names what cannot be written, takes nothing. */
  lemma RefusedTakesNothing(sh: Shared, t: Task, fd: int, data: seq<byte>, vfs: Vfs)
    requires !IsOpen(t.fds, fd) || !Live(sh.descs, t.fds[fd].value.desc) || !DescAt(sh, t, fd).Writable()
             || DescAt(sh, t, fd).kind in {Other(Plain.Stdin), Other(Plain.Dir)} || DescAt(sh, t, fd).kind.PipeRead?
    ensures WriteBytes(sh, t, fd, data, vfs) == (NoWrite(BADF), sh)
  {
  }

  // ----- vectored calls ------------------------------------------------------------------

  /** The bytes a `writev` has to write from its `i`-th element on. */
  function Gathered(iovs: seq<Iov>, i: nat): seq<byte>
    requires i <= |iovs|
    decreases |iovs| - i
  {
    if i == |iovs| then [] else iovs[i].data + Gathered(iovs, i + 1)
  }

  /** A `writev` into a pipe puts in the front of its elements taken together, and answers with how many
      bytes that is; one that waits has put in nothing, and one that fails after it has begun has run into
      an element it cannot read. */
  lemma {:induction false} GatherMoves(c: Cpu, fd: int, iovs: seq<Iov>, i: nat, total: nat, p: nat)
    returns (moved: seq<byte>)
    requires i <= |iovs| && WritesPipe(c.sh, c.ctx.task, fd, p) && |PipeAt(c.sh, p).data| <= 65536
    requires total + |Gathered(iovs, i)| <= I32_MAX
    ensures moved <= Gathered(iovs, i)
    ensures
      var (a, after) := DoVector(c, false, fd, iovs, i, total);
      && Live(after.sh.pipes, p) && PipeAt(after.sh, p).data == PipeAt(c.sh, p).data + moved
      && (a.Value? ==> a.v == total + |moved|) && (a.Block? ==> moved == [])
      && (a.Fail? && moved != [] ==> a == Fail(FAULT)) && (total > 0 ==> a.Value? || a == Fail(FAULT))
    decreases |iovs| - i
  {
    hide WriteBytes;
    moved := [];
    if i < |iovs| && iovs[i].decodes {
      var v := iovs[i];
      if |v.data| == 0 {
        moved := GatherMoves(c, fd, iovs, i + 1, total, p);
        assert Gathered(iovs, i) == Gathered(iovs, i + 1);
      } else if v.copyOk {
        PipeLands(c.sh, c.ctx.task, fd, v.data, v.vfs, p);
        var (put, sh) := WriteBytes(c.sh, c.ctx.task, fd, v.data, v.vfs);
        var after := c.(sh := sh);
        if put.Put? {
          moved := v.data[..put.count];
          if put.count == |v.data| {
            var rest := GatherMoves(after, fd, iovs, i + 1, total + |v.data|, p);
            assert PipeAt(c.sh, p).data + v.data + rest == PipeAt(c.sh, p).data + (v.data + rest);
            moved := v.data + rest;
          }
        }
      }
    }
  }
}
