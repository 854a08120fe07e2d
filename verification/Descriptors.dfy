/** The calls on descriptors, descriptor by descriptor: what each opens, closes or marks, and that it
    leaves every other one as it is. */
module Descriptors {
  import opened Base
  import opened Slabs
  import opened Fds
  import opened Kernel
  import opened Syscalls
  import opened References
  import opened CallFrames
  import opened HostOnce

  /** What a table has at descriptor `i`. */
  function SlotAt(fds: Slots, i: int): Option<Fd> {
    if IsOpen(fds, i) then fds[i] else None
  }

  /** Two tables differ at descriptor `i`, where the second has `slot`, and nowhere else. */
  ghost predicate ChangedAt(fds: Slots, after: Slots, i: int, slot: Option<Fd>) {
    SlotAt(after, i) == slot && forall j :: j != i ==> SlotAt(after, j) == SlotAt(fds, j)
  }

  /** `i` is the lowest descriptor from `min` up that is free. */
  ghost predicate IsLowestFree(fds: Slots, min: nat, i: int) {
    i >= min && !IsOpen(fds, i) && forall j :: min <= j < i ==> IsOpen(fds, j)
  }

  ghost predicate NoneFree(fds: Slots, min: nat, max: nat) {
    forall j :: min <= j < max ==> IsOpen(fds, j)
  }

  lemma PlacedAt(fds: Slots, i: nat, entry: Fd)
    ensures ChangedAt(fds, Placed(fds, i, entry), i, Some(entry))
  {
  }

  /** `close` frees the descriptor and no other, and refuses exactly one that is not open. */
  lemma CloseFrees(c: Cpu, fd: int)
    ensures
      var (a, after) := DoClose(c, fd);
      if IsOpen(c.ctx.task.fds, fd) then
        a == Value(0) && FilesOnly(c, after) && ChangedAt(c.ctx.task.fds, after.ctx.task.fds, fd, None)
      else a == Fail(BADF) && after == c
  {
    hide ReleaseDesc;
    CloseFrame(c, fd);
  }

  /** `dup`, `F_DUPFD` and their like open the lowest descriptor free from `min` up onto the description
      of the one given, marked as asked; they refuse exactly a descriptor that is not open and a table
      that is full. */
  lemma DupOpens(c: Cpu, fd: int, min: nat, cloexec: bool)
    ensures
      var (a, after) := DoDupAt(c, fd, min, cloexec);
      var fds, limit := c.ctx.task.fds, c.sh.limits.openFiles;
      && FilesOnly(c, after)
      && (a == Fail(BADF) <==> !IsOpen(fds, fd))
      && (a == Fail(MFILE) <==> IsOpen(fds, fd) && NoneFree(fds, min, limit))
      && (a.Fail? ==> after.ctx == c.ctx)
      && (IsOpen(fds, fd) && !NoneFree(fds, min, limit) ==>
            && a.Value? && a.v < limit && IsLowestFree(fds, min, a.v)
            && ChangedAt(fds, after.ctx.task.fds, a.v, Some(Fd(fds[fd].value.desc, cloexec))))
  {
    hide BumpedOne;
    if IsOpen(c.ctx.task.fds, fd) {
      var free := LowestFree(c.ctx.task.fds, min, c.sh.limits.openFiles);
      if free.Some? {
        PlacedAt(c.ctx.task.fds, free.value, Fd(c.ctx.task.fds[fd].value.desc, cloexec));
      }
    }
  }

  /** `dup3` makes the second descriptor one of the first's description, marked as asked, whatever it was
      before; it refuses two equal ones, a first that is not open, and a second out of range. */
  lemma Dup3Opens(c: Cpu, from: int, to: int, cloexec: bool)
    ensures
      var (a, after) := DoDup3(c, from, to, cloexec);
      var fds := c.ctx.task.fds;
      && FilesOnly(c, after)
      && a == (if from == to then Fail(INVAL)
               else if !IsOpen(fds, from) || to < 0 || to >= c.sh.limits.openFiles then Fail(BADF)
               else Value(to))
      && (a.Fail? ==> after.ctx == c.ctx)
      && (a.Value? ==> ChangedAt(fds, after.ctx.task.fds, to, Some(Fd(fds[from].value.desc, cloexec))))
  {
    hide BumpedOne, ReleaseDesc;
    Dup3Frame(c, from, to, cloexec);
    if IsOpen(c.ctx.task.fds, from) && 0 <= to {
      PlacedAt(c.ctx.task.fds, to, Fd(c.ctx.task.fds[from].value.desc, cloexec));
    }
  }

  /** `F_SETFD` marks the descriptor as asked, and no other one, whatever they share. */
  lemma MarkMarks(c: Cpu, fd: int, on: bool)
    ensures
      var (a, after) := DoSetCloexec(c, fd, on);
      var fds := c.ctx.task.fds;
      && after == c.(ctx := c.ctx.(task := c.ctx.task.(fds := after.ctx.task.fds)))
      && (if IsOpen(fds, fd) then
            a == Value(0) && ChangedAt(fds, after.ctx.task.fds, fd, Some(Fd(fds[fd].value.desc, on)))
          else a == Fail(BADF) && after == c)
  {
  }

  /** Opening makes a description of what was asked for and opens the lowest free descriptor onto it; with
      no descriptor free, or no description, nothing is opened. */
  lemma OpenOpens(c: Cpu, d: Desc, cloexec: bool)
    requires Sound(c.sh.descs) && d.kind.Other? && d.refs == 1
    ensures
      var (a, after) := DoOpen(c, d, cloexec);
      var fds, limit := c.ctx.task.fds, c.sh.limits.openFiles;
      && FilesOnly(c, after)
      && (a.Value? || a == Fail(MFILE))
      && (NoneFree(fds, 0, limit) ==> a.Fail?)
      && (a.Fail? ==> after.ctx == c.ctx)
      && (a.Value? ==>
            && a.v < limit && IsLowestFree(fds, 0, a.v) && IsOpen(after.ctx.task.fds, a.v)
            && var key := after.ctx.task.fds[a.v].value.desc;
               && !Live(c.sh.descs, key) && At(after.sh.descs, key) == Some(d)
               && ChangedAt(fds, after.ctx.task.fds, a.v, Some(Fd(key, cloexec))))
  {
    hide ReleaseDesc, Inserted, Sound;
    OpenFrame(c, d, cloexec);
    var limit := c.sh.limits.openFiles;
    InsertedFresh(c.sh.descs, d, limit * 4);
    var key := Inserted(c.sh.descs, d, limit * 4).1;
    var free := LowestFree(c.ctx.task.fds, 0, limit);
    if key.Some? && free.Some? {
      PlacedAt(c.ctx.task.fds, free.value, Fd(key.value, cloexec));
    }
  }

  /** `pipe2` makes an empty pipe with one end of each kind and opens the two lowest free descriptors onto
      them, the first for reading and the second for writing, both marked and blocking as asked. */
  lemma PipeOpens(c: Cpu, cloexec: bool, nonblock: bool) returns (r: int, w: int, p: nat)
    requires Sound(c.sh.descs) && Sound(c.sh.pipes)
    ensures DoPipe2(c, cloexec, nonblock, true).0 in {Value(0), Fail(MFILE)}
    ensures
      var (a, after) := DoPipe2(c, cloexec, nonblock, true);
      var fds, now := c.ctx.task.fds, after.ctx.task.fds;
      && FilesOnly(c, after)
      && (a == Value(0) ==>
            && IsLowestFree(fds, 0, r) && r < w && !IsOpen(fds, w) && (forall j :: r < j < w ==> IsOpen(fds, j))
            && ReadsPipe(after.sh, after.ctx.task, r, p) && WritesPipe(after.sh, after.ctx.task, w, p)
            && !Live(c.sh.pipes, p) && PipeAt(after.sh, p) == Pipe([], 1, 1)
            && DescAt(after.sh, after.ctx.task, r).nonblock == nonblock
            && DescAt(after.sh, after.ctx.task, w).nonblock == nonblock
            && now[r].value.cloexec == cloexec && now[w].value.cloexec == cloexec
            && forall j :: j != r && j != w ==> SlotAt(now, j) == SlotAt(fds, j))
  {
    hide Inserted, Sound, PipeFds;
    r, w, p := 0, 0, 0;
    var limit := c.sh.limits.openFiles;
    PipeFrame(c, cloexec, nonblock, true);
    InsertedFresh(c.sh.pipes, Pipe([], 1, 1), limit);
    var (pipes, made) := Inserted(c.sh.pipes, Pipe([], 1, 1), limit);
    if made.Some? {
      p := made.value;
      var c1 := WithPipe(c, pipes, p);
      InsertedFresh(c1.sh.descs, ReadEnd(p, nonblock), limit * 4);
      var (descs1, one) := Inserted(c1.sh.descs, ReadEnd(p, nonblock), limit * 4);
      if one.Some? {
        InsertedFresh(descs1, WriteEnd(p, nonblock), limit * 4);
        var (descs2, two) := Inserted(descs1, WriteEnd(p, nonblock), limit * 4);
        if two.Some? {
          r, w := TwoOpen(WithDescs(WithDescs(c1, descs1), descs2), one.value, two.value, cloexec);
        }
      }
    }
  }

  lemma TwoOpen(c: Cpu, one: nat, two: nat, cloexec: bool) returns (r: int, w: int)
    ensures PipeFds(c, one, two, cloexec, true).0 in {Value(0), Fail(MFILE)}
    ensures
      var (a, after) := PipeFds(c, one, two, cloexec, true);
      var fds, now := c.ctx.task.fds, after.ctx.task.fds;
      a == Value(0) ==>
        && after.sh == c.sh
        && IsLowestFree(fds, 0, r) && r < w && !IsOpen(fds, w) && (forall j :: r < j < w ==> IsOpen(fds, j))
        && SlotAt(now, r) == Some(Fd(one, cloexec)) && SlotAt(now, w) == Some(Fd(two, cloexec))
        && forall j :: j != r && j != w ==> SlotAt(now, j) == SlotAt(fds, j)
  {
    hide ReleaseDesc;
    r, w := 0, 0;
    var limit := c.sh.limits.openFiles;
    var first := LowestFree(c.ctx.task.fds, 0, limit);
    if first.Some? {
      r := first.value;
      PlacedAt(c.ctx.task.fds, first.value, Fd(one, cloexec));
      var fds := Placed(c.ctx.task.fds, first.value, Fd(one, cloexec));
      var second := LowestFree(fds, 0, limit);
      if second.Some? {
        w := second.value;
        PlacedAt(fds, second.value, Fd(two, cloexec));
        assert IsOpen(fds, r);
        forall j | r < j < w ensures IsOpen(c.ctx.task.fds, j) {
          assert IsOpen(fds, j) && SlotAt(fds, j) == SlotAt(c.ctx.task.fds, j);
        }
        assert SlotAt(fds, w) == SlotAt(c.ctx.task.fds, w) || w == r;
      }
    }
  }
}
