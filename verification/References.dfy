/** Reference counting, call by call: what every operation does to the number of references one
    description holds and to the ends one pipe has, leaks included. */
module References {
  import opened Base
  import opened Slabs
  import opened Sums
  import opened Fds
  import opened Kernel
  import opened Syscalls

  // ----- what is counted -----------------------------------------------------------------

  ghost function RefAt(descs: SlabState<Desc>, k: nat): nat {
    match At(descs, k)
    case Some(d) => d.refs
    case None => 0
  }

  /** The slab is sound and no description outlives its last reference. */
  ghost predicate DescsOk(descs: SlabState<Desc>) {
    && Sound(descs)
    && forall k: nat :: Live(descs, k) ==> At(descs, k).value.refs > 0
  }

  /** How many live descriptions are of a given kind. */
  ghost function Ends(slots: seq<Option<Desc>>, kind: DescKind): nat {
    if |slots| == 0 then 0
    else Ends(slots[..|slots| - 1], kind) + IsKind(slots[|slots| - 1], kind)
  }

  ghost function IsKind(slot: Option<Desc>, kind: DescKind): nat {
    if slot.Some? && slot.value.kind == kind then 1 else 0
  }

  /** A pipe counts its live end descriptions, plus any end lost to a failed allocation, and is
      live exactly while it has an end. */
  ghost predicate PipeOk(sh: Shared, p: nat, lostR: nat, lostW: nat) {
    var readers := Ends(sh.descs.slots, PipeRead(p)) + lostR;
    var writers := Ends(sh.descs.slots, PipeWrite(p)) + lostW;
    match At(sh.pipes, p)
    case Some(q) => q.readers == readers && q.writers == writers && readers + writers > 0
    case None => readers == 0 && writers == 0
  }

  ghost function StackCount(tasks: seq<Task>, k: nat): nat {
    Sum(tasks, TaskSlots(k))
  }

  ghost function TaskSlots(k: nat): Task -> nat {
    (t: Task) => Count(t.fds, k)
  }

  ghost function SpawnCount(spawn: seq<Spawn>, k: nat): nat {
    Sum(spawn, QueuedSlots(k))
  }

  ghost function QueuedSlots(k: nat): Spawn -> nat {
    (s: Spawn) => Count(s.task.fds, k)
  }

  ghost function RequestCount(r: Option<Spawn>, k: nat): nat {
    if r.Some? then Count(r.value.task.fds, k) else 0
  }

  ghost function CtxCount(ctx: Ctx, k: nat): nat {
    Count(ctx.task.fds, k) + StackCount(ctx.vforkStack, k) + RequestCount(ctx.execRequest, k)
  }

  /** Slots naming `k` in every table one handler can reach: its task, the vfork parents below it,
      its exec request and the spawn queue. */
  ghost function CpuCount(c: Cpu, k: nat): nat {
    CtxCount(c.ctx, k) + SpawnCount(c.sh.spawn, k)
  }

  /** A call that makes a `vfork` child, and so copies the calling task's table. */
  predicate Forks(c: Cpu, call: Call) {
    call == Life(Clone(true)) && LiveCount(c.sh.table) < c.sh.limits.processes
  }

  /** Room under a 32-bit count for one more reference, or for one from every slot copied. */
  ghost predicate Roomy(c: Cpu, call: Call, k: nat) {
    && RefAt(c.sh.descs, k) < U32_MAX
    && (Forks(c, call) ==> RefAt(c.sh.descs, k) + Count(c.ctx.task.fds, k) <= U32_MAX)
  }

  // ----- single operations ---------------------------------------------------------------

  lemma {:induction false} EndsUpdate(slots: seq<Option<Desc>>, i: nat, slot: Option<Desc>, kind: DescKind)
    requires i < |slots|
    ensures Ends(slots[i := slot], kind) + IsKind(slots[i], kind) == Ends(slots, kind) + IsKind(slot, kind)
  {
    var n := |slots| - 1;
    var after := slots[i := slot];
    if i < n {
      EndsUpdate(slots[..n], i, slot, kind);
      assert after[..n] == slots[..n][i := slot];
    } else {
      assert after[..n] == slots[..n];
    }
  }

  lemma EndsAppend(slots: seq<Option<Desc>>, slot: Option<Desc>, kind: DescKind)
    ensures Ends(slots + [slot], kind) == Ends(slots, kind) + IsKind(slot, kind)
  {
    assert (slots + [slot])[..|slots|] == slots;
  }

  /** A live end description is among those counted, so its pipe is live and counts it. */
  lemma EndCounted(descs: SlabState<Desc>, k: nat)
    requires Live(descs, k)
    ensures Ends(descs.slots, At(descs, k).value.kind) > 0
  {
    EndsUpdate(descs.slots, k, None, At(descs, k).value.kind);
  }

  lemma EndsStored(descs: SlabState<Desc>, k: nat, d: Desc, kind: DescKind)
    requires Live(descs, k)
    ensures Ends(Stored(descs, k, d).slots, kind) + IsKind(At(descs, k), kind) ==
      Ends(descs.slots, kind) + IsKind(Some(d), kind)
  {
    EndsUpdate(descs.slots, k, Some(d), kind);
  }

  lemma EndsInserted(descs: SlabState<Desc>, d: Desc, cap: nat, kind: DescKind)
    requires DescsOk(descs)
    ensures var (after, r) := Inserted(descs, d, cap);
      Ends(after.slots, kind) == Ends(descs.slots, kind) + if r.Some? then IsKind(Some(d), kind) else 0
  {
    if |descs.free| > 0 {
      var k := descs.free[|descs.free| - 1];
      EndsUpdate(descs.slots, k, Some(d), kind);
    } else {
      EndsAppend(descs.slots, Some(d), kind);
    }
  }

  lemma EndsRemoved(descs: SlabState<Desc>, k: nat, kind: DescKind)
    ensures Ends(Removed(descs, k).0.slots, kind) + IsKind(At(descs, k), kind) == Ends(descs.slots, kind)
  {
    if Live(descs, k) {
      EndsUpdate(descs.slots, k, None, kind);
    }
  }

  lemma BumpedOneRefs(descs: SlabState<Desc>, key: nat, k: nat)
    requires DescsOk(descs)
    ensures DescsOk(BumpedOne(descs, key))
    ensures RefAt(BumpedOne(descs, key), k)
         == if k == key && Live(descs, key) then AddU32(RefAt(descs, k), 1) else RefAt(descs, k)
  {
    if Live(descs, key) {
      StoredExact(descs, key, At(descs, key).value.(refs := AddU32(At(descs, key).value.refs, 1)));
    }
  }

  lemma BumpedOneEnds(descs: SlabState<Desc>, key: nat, kind: DescKind)
    ensures Ends(BumpedOne(descs, key).slots, kind) == Ends(descs.slots, kind)
  {
    if Live(descs, key) {
      var d := At(descs, key).value;
      EndsStored(descs, key, d.(refs := AddU32(d.refs, 1)), kind);
    }
  }

  lemma {:induction false} BumpedRefs(descs: SlabState<Desc>, keys: seq<nat>, k: nat)
    requires DescsOk(descs)
    requires RefAt(descs, k) + Occurs(keys, k) <= U32_MAX
    ensures DescsOk(Bumped(descs, keys))
    ensures RefAt(Bumped(descs, keys), k) == if RefAt(descs, k) == 0 then 0 else RefAt(descs, k) + Occurs(keys, k)
  {
    if |keys| > 0 {
      var n := |keys| - 1;
      BumpedRefs(descs, keys[..n], k);
      BumpedOneRefs(Bumped(descs, keys[..n]), keys[n], k);
    }
  }

  lemma {:induction false} BumpedEnds(descs: SlabState<Desc>, keys: seq<nat>, kind: DescKind)
    ensures Ends(Bumped(descs, keys).slots, kind) == Ends(descs.slots, kind)
  {
    if |keys| > 0 {
      var n := |keys| - 1;
      BumpedEnds(descs, keys[..n], kind);
      BumpedOneEnds(Bumped(descs, keys[..n]), keys[n], kind);
    }
  }

  lemma InsertedRefs(descs: SlabState<Desc>, d: Desc, cap: nat, k: nat)
    requires DescsOk(descs) && d.refs > 0
    ensures var (after, r) := Inserted(descs, d, cap);
      && DescsOk(after)
      && (r.Some? ==> RefAt(descs, r.value) == 0 && Live(after, r.value) && At(after, r.value) == Some(d))
      && RefAt(after, k) == if r == Some(k) then d.refs else RefAt(descs, k)
  {
    InsertedFresh(descs, d, cap);
  }

  lemma StoredRefs(descs: SlabState<Desc>, key: nat, d: Desc, k: nat)
    requires DescsOk(descs) && Live(descs, key) && d.refs > 0
    ensures DescsOk(Stored(descs, key, d))
    ensures RefAt(Stored(descs, key, d), k) == if k == key then d.refs else RefAt(descs, k)
  {
    StoredExact(descs, key, d);
  }

  /** Releasing a description touches nothing but descriptions and pipes. */
  lemma ReleaseFrame(sh: Shared, key: nat)
    ensures var after := ReleaseDesc(sh, key); after == sh.(descs := after.descs, pipes := after.pipes)
  {
    hide Stored, Removed;
  }

  /** One reference fewer on the description released, and on no other. */
  lemma ReleaseRefs(sh: Shared, key: nat, k: nat)
    requires DescsOk(sh.descs)
    ensures DescsOk(ReleaseDesc(sh, key).descs)
    ensures RefAt(ReleaseDesc(sh, key).descs, k)
         == if k == key then SubSat(RefAt(sh.descs, k), 1) else RefAt(sh.descs, k)
  {
    if Live(sh.descs, key) {
      var d := At(sh.descs, key).value;
      var less := d.(refs := d.refs - 1);
      var stored := Stored(sh.descs, key, less);
      StoredExact(sh.descs, key, less);
      if less.refs == 0 {
        RemovedExact(stored, key);
        assert forall j: nat :: At(Removed(stored, key).0, j) == if j == key then None else At(sh.descs, j);
        DropEndFrame(sh.(descs := Removed(stored, key).0), less.kind);
      }
    }
  }

  lemma DropEndFrame(sh: Shared, kind: DescKind)
    ensures var after := DropEnd(sh, kind); after == sh.(pipes := after.pipes)
  {
  }

  lemma CollectKeeps(sh: Shared, p: nat)
    requires Sound(sh.pipes)
    ensures var after := CollectPipe(sh, p);
      && after == sh.(pipes := after.pipes)
      && Sound(after.pipes)
      && forall j: nat :: At(after.pipes, j) ==
           if j == p && At(sh.pipes, p).Some? && At(sh.pipes, p).value.readers == 0
             && At(sh.pipes, p).value.writers == 0
           then None else At(sh.pipes, j)
  {
    RemovedExact(sh.pipes, p);
  }

  /** Closing the last reference to a pipe end takes exactly that end off its pipe, and the pipe
      goes when its last end does. */
  lemma ReleasePipes(sh: Shared, key: nat, p: nat, lostR: nat, lostW: nat)
    requires DescsOk(sh.descs) && Sound(sh.pipes) && PipeOk(sh, p, lostR, lostW)
    ensures Sound(ReleaseDesc(sh, key).pipes)
    ensures PipeOk(ReleaseDesc(sh, key), p, lostR, lostW)
  {
    if Live(sh.descs, key) {
      var d := At(sh.descs, key).value;
      var less := d.(refs := d.refs - 1);
      var stored := Stored(sh.descs, key, less);
      EndsStored(sh.descs, key, less, PipeRead(p));
      EndsStored(sh.descs, key, less, PipeWrite(p));
      if less.refs == 0 {
        EndsRemoved(stored, key, PipeRead(p));
        EndsRemoved(stored, key, PipeWrite(p));
        StoredExact(sh.descs, key, less);
        DropEndKeeps(sh.(descs := Removed(stored, key).0), d.kind, p, lostR, lostW);
      }
    }
  }

  /** `p` counted one end of `kind` more than is left; dropping that end settles the count. */
  lemma DropEndKeeps(sh: Shared, kind: DescKind, p: nat, lostR: nat, lostW: nat)
    requires Sound(sh.pipes)
    requires PipeOk(sh, p, lostR + (if kind == PipeRead(p) then 1 else 0),
      lostW + (if kind == PipeWrite(p) then 1 else 0))
    ensures var after := DropEnd(sh, kind);
      after.descs == sh.descs && Sound(after.pipes) && PipeOk(after, p, lostR, lostW)
  {
    match kind
    case PipeRead(r) =>
      if Live(sh.pipes, r) {
        var q := At(sh.pipes, r).value;
        StoredExact(sh.pipes, r, q.(readers := SubSat(q.readers, 1)));
        CollectKeeps(sh.(pipes := Stored(sh.pipes, r, q.(readers := SubSat(q.readers, 1)))), r);
      }
    case PipeWrite(w) =>
      if Live(sh.pipes, w) {
        var q := At(sh.pipes, w).value;
        StoredExact(sh.pipes, w, q.(writers := SubSat(q.writers, 1)));
        CollectKeeps(sh.(pipes := Stored(sh.pipes, w, q.(writers := SubSat(q.writers, 1)))), w);
      }
    case Other(_) =>
  }

  lemma {:induction false} ReleaseAllFrame(sh: Shared, keys: seq<nat>)
    ensures var after := ReleaseAll(sh, keys); after == sh.(descs := after.descs, pipes := after.pipes)
  {
    if |keys| > 0 {
      ReleaseAllFrame(sh, keys[..|keys| - 1]);
      ReleaseFrame(ReleaseAll(sh, keys[..|keys| - 1]), keys[|keys| - 1]);
    }
  }

  lemma {:induction false} ReleaseAllRefs(sh: Shared, keys: seq<nat>, k: nat)
    requires DescsOk(sh.descs)
    ensures DescsOk(ReleaseAll(sh, keys).descs)
    ensures RefAt(ReleaseAll(sh, keys).descs, k) == SubSat(RefAt(sh.descs, k), Occurs(keys, k))
  {
    if |keys| > 0 {
      ReleaseAllRefs(sh, keys[..|keys| - 1], k);
      ReleaseRefs(ReleaseAll(sh, keys[..|keys| - 1]), keys[|keys| - 1], k);
    }
  }

  lemma {:induction false} ReleaseAllPipes(sh: Shared, keys: seq<nat>, p: nat, lostR: nat, lostW: nat)
    requires DescsOk(sh.descs) && Sound(sh.pipes) && PipeOk(sh, p, lostR, lostW)
    ensures Sound(ReleaseAll(sh, keys).pipes)
    ensures PipeOk(ReleaseAll(sh, keys), p, lostR, lostW)
  {
    if |keys| > 0 {
      var before := ReleaseAll(sh, keys[..|keys| - 1]);
      ReleaseAllPipes(sh, keys[..|keys| - 1], p, lostR, lostW);
      ReleaseAllRefs(sh, keys[..|keys| - 1], 0);
      ReleasePipes(before, keys[|keys| - 1], p, lostR, lostW);
    }
  }
}
