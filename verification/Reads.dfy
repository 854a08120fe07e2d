/** Reading, whatever is read: bytes come off the front of what there is. */
module Reads {
  import opened Base
  import opened Slabs
  import opened Fds
  import opened Kernel
  import opened Syscalls
  import opened CallFrames
  import opened Steady

  /** The bytes a descriptor has yet to give: what a pipe or standard input has buffered, what is left
      of a generated file. A device has none in store. */
  function BytesLeft(sh: Shared, t: Task, fd: int): seq<byte> {
    if !IsOpen(t.fds, fd) then []
    else match At(sh.descs, t.fds[fd].value.desc)
      case None => []
      case Some(d) => StoreOf(sh, d)
  }

  function StoreOf(sh: Shared, d: Desc): seq<byte> {
    match d.kind
    case PipeRead(p) => (match At(sh.pipes, p) case Some(q) => q.data case None => [])
    case PipeWrite(_) => []
    case Other(plain) =>
      match plain
      case Memory(data, pos) => data[Min(pos, |data|)..]
      case Stdin => sh.stdin.data
      case _ => []
  }

  /** The descriptor is open for reading. */
  predicate OpenToRead(sh: Shared, t: Task, fd: int) {
    && IsOpen(t.fds, fd)
    && var d := At(sh.descs, t.fds[fd].value.desc); d.Some? && d.value.Readable()
  }

  /** A device that gives as many bytes as it is asked for. */
  predicate GivesAlways(d: Desc) {
    d.kind in {Other(Plain.Zero), Other(Plain.Random)}
  }

  /** How many bytes a read of at most `len` returns out of `had`: all it may; of standard input no more
      than up to the end of a line, and a whole line if that fits. */
  predicate Ample(d: Desc, had: seq<byte>, len: nat, bytes: seq<byte>) {
    if d.kind == Other(Plain.Stdin) then
      && |bytes| <= len && (forall i :: 0 <= i < |bytes| - 1 ==> bytes[i] != 10)
      && (0 < |bytes| < Min(|had|, len) ==> bytes[|bytes| - 1] == 10)
    else |bytes| == Min(|had|, len)
  }

  lemma {:induction false} LineEnds(data: seq<byte>, max: nat)
    ensures var n := LineLen(data, max);
      && (forall i :: 0 <= i < n - 1 ==> data[i] != 10) && (0 < n < Min(|data|, max) ==> data[n - 1] == 10)
  {
    if |data| > 0 && max > 0 && data[0] != 10 {
      LineEnds(data[1..], max - 1);
      var n := LineLen(data, max);
      forall i | 0 <= i < n - 1 ensures data[i] != 10 {
        assert i > 0 ==> data[1..][i - 1] == data[i];
      }
      assert n > 1 ==> data[1..][n - 2] == data[n - 1];
    }
  }

  /** A read takes bytes off the front of what there is, if there is anything, and returns those, as many
      as it may; a device gives as many as are asked for. */
  lemma ReadTakes(sh: Shared, t: Task, fd: int, len: nat, vfs: Vfs)
    requires len > 0 && OpenToRead(sh, t, fd) && !NamesFile(sh, t, fd)
    ensures
      var (got, after) := ReadBytes(sh, t, fd, len, vfs);
      var had, has := BytesLeft(sh, t, fd), BytesLeft(after, t, fd);
      var d := At(sh.descs, t.fds[fd].value.desc).value;
      && (got.NoRead? ==> got.error != FAULT)
      && (if had == [] then has == []
          else got.Got? && got.bytes != [] && had == got.bytes + has && Ample(d, had, len, got.bytes))
      && (had == [] && !GivesAlways(d) ==> !got.Got? || got.bytes == [])
      && (GivesAlways(d) ==> got.Got? && |got.bytes| == len)
      && Live(after.descs, t.fds[fd].value.desc)
      && Akin(d, At(after.descs, t.fds[fd].value.desc).value)
  {
    hide ReadDesc, StoreOf;
    var key := t.fds[fd].value.desc;
    DescTakes(sh, key, At(sh.descs, key).value, len, vfs);
  }

  /** The read takes bytes off the front of what the description has in store, if it has any. */
  ghost predicate Takes(sh: Shared, key: nat, d: Desc, len: nat, vfs: Vfs) {
    var (got, after) := ReadDesc(sh, key, d, len, vfs);
    var had := StoreOf(sh, d);
    && (got.NoRead? ==> got.error != FAULT)
    && (had == [] && !GivesAlways(d) ==> !got.Got? || got.bytes == [])
    && (GivesAlways(d) ==> got.Got? && |got.bytes| == len)
    && Live(after.descs, key) && Akin(d, At(after.descs, key).value)
    && var has := StoreOf(after, At(after.descs, key).value);
       if had == [] then has == []
       else got.Got? && got.bytes != [] && had == got.bytes + has && Ample(d, had, len, got.bytes)
  }

  lemma DescTakes(sh: Shared, key: nat, d: Desc, len: nat, vfs: Vfs)
    requires len > 0 && At(sh.descs, key) == Some(d) && !(d.kind.Other? && d.kind.plain.File?)
    ensures Takes(sh, key, d, len, vfs)
  {
    hide Takes;
    match d.kind {
      case PipeRead(p) => PipeDescTakes(sh, key, d, len, vfs);
      case PipeWrite(p) => DeviceTakes(sh, key, d, len, vfs);
      case Other(plain) =>
        if plain.Memory? {
          MemoryTakes(sh, key, d, len, vfs);
        } else if plain.Stdin? {
          StdinDescTakes(sh, key, d, len, vfs);
        } else {
          DeviceTakes(sh, key, d, len, vfs);
        }
    }
  }

  lemma PipeDescTakes(sh: Shared, key: nat, d: Desc, len: nat, vfs: Vfs)
    requires len > 0 && At(sh.descs, key) == Some(d) && d.kind.PipeRead?
    ensures Takes(sh, key, d, len, vfs)
  {
    hide ReadPipe;
    PipeTakes(sh, d.kind.pipe, d.nonblock, len);
  }

  lemma MemoryTakes(sh: Shared, key: nat, d: Desc, len: nat, vfs: Vfs)
    requires len > 0 && At(sh.descs, key) == Some(d) && d.kind.Other? && d.kind.plain.Memory?
    ensures Takes(sh, key, d, len, vfs)
  {
    hide Stored;
    var data, start := d.kind.plain.data, Min(d.kind.plain.pos, |d.kind.plain.data|);
    var n := Min(|data| - start, len);
    StoredReads(sh.descs, key, d.(kind := Other(Memory(data, start + n))));
    assert data[start..][n..] == data[start + n..];
    assert data[start..][..n] == data[start..start + n];
  }

  lemma StdinDescTakes(sh: Shared, key: nat, d: Desc, len: nat, vfs: Vfs)
    requires len > 0 && At(sh.descs, key) == Some(d) && d.kind == Other(Stdin)
    ensures Takes(sh, key, d, len, vfs)
  {
    hide ReadStdin, LineLen;
    StdinTakes(sh, d.nonblock, len);
    LineEnds(sh.stdin.data, len);
    var (got, after) := ReadStdin(sh, d.nonblock, len);
    if sh.stdin.data != [] {
      assert forall i :: 0 <= i < |got.bytes| ==> got.bytes[i] == (got.bytes + after.stdin.data)[i];
    }
  }

  lemma DeviceTakes(sh: Shared, key: nat, d: Desc, len: nat, vfs: Vfs)
    requires len > 0 && At(sh.descs, key) == Some(d)
    requires d.kind.PipeWrite? || (d.kind.Other? && d.kind.plain in {Dir, Null, Zero, Random})
             || (d.kind.Other? && d.kind.plain.Stdout?)
    ensures Takes(sh, key, d, len, vfs)
  {
    hide Zeros;
  }

  lemma PipeTakes(sh: Shared, p: nat, nonblock: bool, len: nat)
    requires len > 0
    ensures
      var (got, after) := ReadPipe(sh, p, nonblock, len);
      && after.descs == sh.descs && (got.NoRead? ==> got.error != FAULT)
      && match At(sh.pipes, p)
         case None => after.pipes == sh.pipes && !got.Got?
         case Some(q) =>
           Live(after.pipes, p) &&
           var has := At(after.pipes, p).value.data;
           if q.data == [] then has == [] && (got.Got? ==> got.bytes == [])
           else got.Got? && |got.bytes| == Min(|q.data|, len) && q.data == got.bytes + has
  {
  }

  lemma StdinTakes(sh: Shared, nonblock: bool, len: nat)
    requires len > 0
    ensures
      var (got, after) := ReadStdin(sh, nonblock, len);
      var had, has := sh.stdin.data, after.stdin.data;
      && after.descs == sh.descs && (got.NoRead? ==> got.error != FAULT)
      && if had == [] then has == [] && (got.Got? ==> got.bytes == [])
         else got.Got? && |got.bytes| == LineLen(had, len) > 0 && had == got.bytes + has
  {
    hide LineLen;
  }

  lemma StoredReads(descs: SlabState<Desc>, key: nat, d: Desc)
    requires Live(descs, key)
    ensures At(Stored(descs, key, d), key) == Some(d)
  {
  }

  // ----- vectored calls ------------------------------------------------------------------

  /** The descriptor is open for reading on something that holds bytes and gives each once. */
  ghost predicate Gives(sh: Shared, t: Task, fd: int) {
    OpenToRead(sh, t, fd) && !NamesFile(sh, t, fd) && !GivesAlways(At(sh.descs, t.fds[fd].value.desc).value)
  }

  function Asked(iovs: seq<Iov>, i: nat): nat
    requires i <= |iovs|
    decreases |iovs| - i
  {
    if i == |iovs| then 0 else iovs[i].len + Asked(iovs, i + 1)
  }

  lemma OneTakes(c: Cpu, fd: int, v: Iov) returns (taken: seq<byte>)
    requires Gives(c.sh, c.ctx.task, fd) && v.len > 0
    ensures var (a, after) := DoIov(c, true, fd, v);
      && after == c.(sh := after.sh) && Gives(after.sh, c.ctx.task, fd)
      && BytesLeft(c.sh, c.ctx.task, fd) == taken + BytesLeft(after.sh, c.ctx.task, fd)
      && (a.Value? ==> a.v == |taken| <= v.len) && (a.Block? ==> taken == []) && (taken != [] && v.copyOk ==> a.Value?)
  {
    hide ReadBytes, BytesLeft;
    var t := c.ctx.task;
    ReadTakes(c.sh, t, fd, Min(v.len, STAGING_MAX), v.vfs);
    var (got, sh) := ReadBytes(c.sh, t, fd, Min(v.len, STAGING_MAX), v.vfs);
    taken := if BytesLeft(c.sh, t, fd) == [] then [] else got.bytes;
    AmpleFits(At(c.sh.descs, t.fds[fd].value.desc).value, BytesLeft(c.sh, t, fd), Min(v.len, STAGING_MAX), taken);
  }

  lemma AmpleFits(d: Desc, had: seq<byte>, len: nat, bytes: seq<byte>)
    ensures Ample(d, had, len, bytes) ==> |bytes| <= len
  {
  }

  /** A `readv` takes the front of what there is and answers with how many bytes it took, however its
      elements cut them up; a copy that faults loses what it took, so the answer is then no more. One that
      waits has taken nothing. */
  lemma {:induction false} ScatterTakes(c: Cpu, fd: int, iovs: seq<Iov>, i: nat, total: nat)
    returns (taken: seq<byte>)
    requires i <= |iovs| && Gives(c.sh, c.ctx.task, fd) && total + Asked(iovs, i) <= I32_MAX
    ensures
      var (a, after) := DoVector(c, true, fd, iovs, i, total);
      && BytesLeft(c.sh, c.ctx.task, fd) == taken + BytesLeft(after.sh, c.ctx.task, fd)
      && (a.Value? ==> total <= a.v <= total + |taken|)
      && (a.Value? && (forall j :: i <= j < |iovs| ==> iovs[j].copyOk) ==> a.v == total + |taken|)
      && (a.Block? ==> taken == []) && (total > 0 ==> !a.Block?)
    decreases |iovs| - i
  {
    hide DoIov, BytesLeft, Gives;
    taken := [];
    if i < |iovs| && iovs[i].decodes {
      var v := iovs[i];
      if v.len == 0 {
        taken := ScatterTakes(c, fd, iovs, i + 1, total);
      } else {
        taken := OneTakes(c, fd, v);
        var (a, after) := DoIov(c, true, fd, v);
        if a.Value? && a.v >= v.len {
          var rest := ScatterTakes(after, fd, iovs, i + 1, total + v.len);
          taken := taken + rest;
        }
      }
    }
  }
}
