/** Open file descriptions, pipes and descriptor tables: a descriptor names a description by key,
    and a description counts the descriptors that name it. */
module Fds {
  import opened Base
  import opened Slabs

  const PIPE_CAPACITY: nat := 65536

  /** What a description is when it is not a pipe end. */
  datatype Plain =
    | File(mount: nat, readOnly: bool)
    | Dir
    | Memory(data: seq<byte>, pos: nat)
    | Stdin
    | Stdout(which: nat)
    | Null
    | Zero
    | Random

  datatype DescKind = PipeRead(pipe: nat) | PipeWrite(pipe: nat) | Other(plain: Plain)

  datatype Access = ReadOnly | WriteOnly | ReadWrite | NoAccess

  /** An open file description: the state `dup` shares. */
  datatype Desc = Desc(kind: DescKind, access: Access, append: bool, nonblock: bool, refs: nat) {
    predicate Readable() { access.ReadOnly? || access.ReadWrite? }
    predicate Writable() { access.WriteOnly? || access.ReadWrite? }
  }

  datatype Pipe = Pipe(data: seq<byte>, readers: nat, writers: nat) {
    function Room(): nat { SubSat(PIPE_CAPACITY, |data|) }
  }

  datatype Fd = Fd(desc: nat, cloexec: bool)

  type Slots = seq<Option<Fd>>

  predicate IsOpen(slots: Slots, i: int) {
    0 <= i < |slots| && slots[i].Some?
  }

  function Lookup(slots: Slots, fd: int): Result<Fd, Errno> {
    if IsOpen(slots, fd) then Ok(slots[fd].value) else Err(BADF)
  }

  function Holes(n: nat): (r: Slots)
    ensures |r| == n && forall i :: 0 <= i < n ==> r[i] == None
  {
    seq(n, _ => None)
  }

  /** Grow the table with holes, as `resize` does, so that `i` is a slot of it. */
  function Padded(slots: Slots, i: nat): (r: Slots)
    ensures i < |r| && slots <= r
  {
    if i < |slots| then slots else slots + Holes(i + 1 - |slots|)
  }

  function Placed(slots: Slots, i: nat, entry: Fd): Slots {
    Padded(slots, i)[i := Some(entry)]
  }

  /** The lowest descriptor in `[min, max)` that is not open. */
  function LowestFree(slots: Slots, min: nat, max: nat): (r: Option<nat>)
    ensures r.Some? ==> min <= r.value < max && !IsOpen(slots, r.value)
    ensures forall j :: min <= j < (if r.Some? then r.value else max) ==> IsOpen(slots, j)
    decreases max - min
  {
    if min >= max then None
    else if !IsOpen(slots, min) then Some(min)
    else LowestFree(slots, min + 1, max)
  }

  /** Allocate at the lowest free descriptor at or above `min`. */
  function Allocated(slots: Slots, entry: Fd, min: nat, max: nat): (Slots, Result<nat, Errno>) {
    match LowestFree(slots, min, max)
    case Some(i) => (Placed(slots, i, entry), Ok(i))
    case None => (slots, Err(MFILE))
  }

  function Replaced(slots: Slots, fd: int, entry: Fd, max: nat): (Slots, Result<Option<Fd>, Errno>) {
    if fd < 0 || fd >= max then (slots, Err(BADF))
    else (Placed(slots, fd, entry), Ok(if IsOpen(slots, fd) then slots[fd] else None))
  }

  function Taken(slots: Slots, fd: int): (Slots, Result<Fd, Errno>) {
    if IsOpen(slots, fd) then (slots[fd := None], Ok(slots[fd].value)) else (slots, Err(BADF))
  }

  function Marked(slots: Slots, fd: int, on: bool): (Slots, Result<int, Errno>) {
    if IsOpen(slots, fd) then (slots[fd := Some(slots[fd].value.(cloexec := on))], Ok(0)) else (slots, Err(BADF))
  }

  function One(slot: Option<Fd>): seq<nat> {
    if slot.Some? then [slot.value.desc] else []
  }

  function OneCloexec(slot: Option<Fd>): seq<nat> {
    if slot.Some? && slot.value.cloexec then [slot.value.desc] else []
  }

  /** The descriptions the open descriptors name, in descriptor order. */
  function Drained(slots: Slots): seq<nat> {
    if |slots| == 0 then [] else Drained(slots[..|slots| - 1]) + One(slots[|slots| - 1])
  }

  function DrainedCloexec(slots: Slots): seq<nat> {
    if |slots| == 0 then [] else DrainedCloexec(slots[..|slots| - 1]) + OneCloexec(slots[|slots| - 1])
  }

  function Closed(slot: Option<Fd>): Option<Fd> {
    if slot.Some? && slot.value.cloexec then None else slot
  }

  /** The table left once the close-on-exec descriptors are gone. */
  function KeptOnExec(slots: Slots): (r: Slots)
    ensures |r| == |slots| && forall i :: 0 <= i < |r| ==> r[i] == Closed(slots[i])
  {
    seq(|slots|, i requires 0 <= i < |slots| => Closed(slots[i]))
  }

  /** How many slots of a table name description `k`. */
  ghost function Count(slots: Slots, k: nat): nat {
    if |slots| == 0 then 0 else Count(slots[..|slots| - 1], k) + Names(slots[|slots| - 1], k)
  }

  ghost function Names(slot: Option<Fd>, k: nat): nat {
    if slot.Some? && slot.value.desc == k then 1 else 0
  }

  /** How often `k` occurs in a list of descriptions. */
  ghost function Occurs(keys: seq<nat>, k: nat): nat {
    if |keys| == 0 then 0 else Occurs(keys[..|keys| - 1], k) + if keys[|keys| - 1] == k then 1 else 0
  }

  lemma OccursAppend(keys: seq<nat>, key: nat, k: nat)
    ensures Occurs(keys + [key], k) == Occurs(keys, k) + if key == k then 1 else 0
  {
    assert (keys + [key])[..|keys|] == keys;
  }

  /** Draining a table yields each description once per slot naming it. */
  lemma {:induction false} DrainedCounts(slots: Slots, k: nat)
    ensures Occurs(Drained(slots), k) == Count(slots, k)
  {
    if |slots| > 0 {
      var n := |slots| - 1;
      DrainedCounts(slots[..n], k);
      if slots[n].Some? {
        OccursAppend(Drained(slots[..n]), slots[n].value.desc, k);
      } else {
        assert Drained(slots) == Drained(slots[..n]);
      }
    }
  }

  lemma {:induction false} CountUpdate(slots: Slots, i: nat, slot: Option<Fd>, k: nat)
    requires i < |slots|
    ensures Count(slots[i := slot], k) + Names(slots[i], k) == Count(slots, k) + Names(slot, k)
  {
    var n := |slots| - 1;
    var after := slots[i := slot];
    if i < n {
      CountUpdate(slots[..n], i, slot, k);
      assert after[..n] == slots[..n][i := slot];
    } else {
      assert after[..n] == slots[..n];
    }
  }

  lemma {:induction false} CountHoles(slots: Slots, n: nat, k: nat)
    ensures Count(slots + Holes(n), k) == Count(slots, k)
  {
    if n == 0 {
      assert slots + Holes(0) == slots;
    } else {
      CountHoles(slots, n - 1, k);
      var all := slots + Holes(n);
      assert all[..|all| - 1] == slots + Holes(n - 1);
      assert all[|all| - 1] == None;
    }
  }

  lemma CountPlaced(slots: Slots, i: nat, entry: Fd, k: nat)
    ensures Count(Placed(slots, i, entry), k) + (if IsOpen(slots, i) then Names(slots[i], k) else 0)
         == Count(slots, k) + Names(Some(entry), k)
  {
    if i >= |slots| {
      CountHoles(slots, i + 1 - |slots|, k);
    }
    CountUpdate(Padded(slots, i), i, Some(entry), k);
  }

  /** An open descriptor is one of the slots counted. */
  lemma CountOpen(slots: Slots, i: nat)
    requires IsOpen(slots, i)
    ensures Count(slots, slots[i].value.desc) > 0
  {
    CountUpdate(slots, i, None, slots[i].value.desc);
  }

  lemma CountTaken(slots: Slots, fd: int, k: nat)
    ensures var (after, r) := Taken(slots, fd);
      Count(slots, k) == Count(after, k) + if r.Ok? && r.value.desc == k then 1 else 0
  {
    if IsOpen(slots, fd) {
      CountUpdate(slots, fd, None, k);
    }
  }

  lemma CountMarked(slots: Slots, fd: int, on: bool, k: nat)
    ensures Count(Marked(slots, fd, on).0, k) == Count(slots, k)
  {
    if IsOpen(slots, fd) {
      CountUpdate(slots, fd, Some(slots[fd].value.(cloexec := on)), k);
    }
  }

  /** Close-on-exec splits the table: what is released and what stays add up to what was open. */
  lemma {:induction false} CountSplitOnExec(slots: Slots, k: nat)
    ensures Count(slots, k) == Occurs(DrainedCloexec(slots), k) + Count(KeptOnExec(slots), k)
  {
    if |slots| > 0 {
      var n := |slots| - 1;
      CountSplitOnExec(slots[..n], k);
      assert KeptOnExec(slots)[..n] == KeptOnExec(slots[..n]);
      if OneCloexec(slots[n]) == [] {
        assert DrainedCloexec(slots) == DrainedCloexec(slots[..n]);
      } else {
        OccursAppend(DrainedCloexec(slots[..n]), slots[n].value.desc, k);
      }
    }
  }

  lemma {:induction false} CountNone(slots: Slots, k: nat)
    requires forall i :: 0 <= i < |slots| ==> slots[i].None?
    ensures Count(slots, k) == 0
  {
    if |slots| > 0 {
      CountNone(slots[..|slots| - 1], k);
    }
  }

  /** The counting half of `duplicate`: one more reference for each slot, in slot order. */
  function Bumped(descs: SlabState<Desc>, keys: seq<nat>): SlabState<Desc> {
    if |keys| == 0 then descs
    else BumpedOne(Bumped(descs, keys[..|keys| - 1]), keys[|keys| - 1])
  }

  function BumpedOne(descs: SlabState<Desc>, k: nat): SlabState<Desc> {
    match At(descs, k)
    case Some(d) => Stored(descs, k, d.(refs := AddU32(d.refs, 1)))
    case None => descs
  }

  /** A process's descriptor table, changed in place. */
  class FdTable {
    var slots: Slots

    constructor (slots: Slots)
      ensures this.slots == slots
    {
      this.slots := slots;
    }

    function Get(fd: int): (r: Result<Fd, Errno>)
      reads this
      ensures r == Lookup(slots, fd)
    {
      if fd < 0 || fd >= |slots| || slots[fd].None? then Err(BADF) else Ok(slots[fd].value)
    }

    /** The descriptor returned is the lowest free one at or above `min`; the table is full, and
        left alone, only if every descriptor in range is open. */
    method Alloc(entry: Fd, min: nat, max: nat) returns (r: Result<nat, Errno>)
      modifies this
      ensures (slots, r) == Allocated(old(slots), entry, min, max)
      ensures r.Ok? ==>
        min <= r.value < max && !IsOpen(old(slots), r.value) && slots == Placed(old(slots), r.value, entry)
      ensures r.Ok? ==> forall j :: min <= j < r.value ==> IsOpen(old(slots), j)
      ensures r.Err? ==> r.error == MFILE && slots == old(slots) && forall j :: min <= j < max ==> IsOpen(slots, j)
    {
      var i := min;
      while i < max
        invariant min <= i <= Max(min, max)
        invariant slots == old(slots)
        invariant forall j :: min <= j < i ==> IsOpen(slots, j)
        invariant LowestFree(slots, min, max) == LowestFree(slots, i, max)
      {
        if i >= |slots| {
          slots := slots + Holes(i + 1 - |slots|);
        }
        if slots[i].None? {
          slots := slots[i := Some(entry)];
          assert slots == Placed(old(slots), i, entry);
          return Ok(i);
        }
        i := i + 1;
      }
      r := Err(MFILE);
    }

    method Replace(fd: int, entry: Fd, max: nat) returns (r: Result<Option<Fd>, Errno>)
      modifies this
      ensures (slots, r) == Replaced(old(slots), fd, entry, max)
    {
      if fd < 0 || fd >= max {
        return Err(BADF);
      }
      if fd >= |slots| {
        slots := slots + Holes(fd + 1 - |slots|);
      }
      r := Ok(slots[fd]);
      slots := slots[fd := Some(entry)];
    }

    method Take(fd: int) returns (r: Result<Fd, Errno>)
      modifies this
      ensures (slots, r) == Taken(old(slots), fd)
    {
      if fd < 0 || fd >= |slots| || slots[fd].None? {
        return Err(BADF);
      }
      r := Ok(slots[fd].value);
      slots := slots[fd := None];
    }

    method SetCloexec(fd: int, on: bool) returns (r: Result<int, Errno>)
      modifies this
      ensures (slots, r) == Marked(old(slots), fd, on)
    {
      if fd < 0 || fd >= |slots| || slots[fd].None? {
        return Err(BADF);
      }
      slots := slots[fd := Some(slots[fd].value.(cloexec := on))];
      r := Ok(0);
    }

    method DrainCloexec() returns (released: seq<nat>)
      modifies this
      ensures slots == KeptOnExec(old(slots))
      ensures released == DrainedCloexec(old(slots))
    {
      released := [];
      var i := 0;
      while i < |slots|
        invariant 0 <= i <= |slots| == |old(slots)|
        invariant forall j :: 0 <= j < i ==> slots[j] == Closed(old(slots)[j])
        invariant forall j :: i <= j < |slots| ==> slots[j] == old(slots)[j]
        invariant released == DrainedCloexec(old(slots)[..i])
      {
        assert old(slots)[..i + 1][..i] == old(slots)[..i];
        if slots[i].Some? && slots[i].value.cloexec {
          released := released + [slots[i].value.desc];
          slots := slots[i := None];
        }
        i := i + 1;
      }
      assert old(slots)[..i] == old(slots);
    }

    /** Empties the table; every description that lost a slot is returned once per slot. */
    method DrainAll() returns (released: seq<nat>)
      modifies this
      ensures released == Drained(old(slots))
      ensures forall k: nat :: Occurs(released, k) == Count(old(slots), k) && Count(slots, k) == 0
    {
      released := [];
      var i := 0;
      while i < |slots|
        invariant 0 <= i <= |slots| == |old(slots)|
        invariant forall j :: 0 <= j < i ==> slots[j].None?
        invariant forall j :: i <= j < |slots| ==> slots[j] == old(slots)[j]
        invariant released == Drained(old(slots)[..i])
      {
        assert old(slots)[..i + 1][..i] == old(slots)[..i];
        if slots[i].Some? {
          released := released + [slots[i].value.desc];
        }
        slots := slots[i := None];
        i := i + 1;
      }
      assert old(slots)[..i] == old(slots);
      forall k: nat ensures Occurs(released, k) == Count(old(slots), k) && Count(slots, k) == 0 {
        DrainedCounts(old(slots), k);
        CountNone(slots, k);
      }
    }

    /** A copy for a new process; every description gains one reference per slot naming it. */
    method Duplicate(descs: Slab<Desc>) returns (copy: FdTable)
      modifies descs
      ensures fresh(copy) && copy.slots == slots
      ensures descs.View() == Bumped(old(descs.View()), Drained(slots))
    {
      var i := 0;
      while i < |slots|
        invariant 0 <= i <= |slots|
        invariant descs.View() == Bumped(old(descs.View()), Drained(slots[..i]))
      {
        ghost var done := Drained(slots[..i]);
        assert slots[..i + 1][..i] == slots[..i];
        assert Drained(slots[..i + 1]) == done + One(slots[i]);
        if slots[i].Some? {
          var k := slots[i].value.desc;
          assert (done + [k])[..|done|] == done;
          var entry := descs.Get(k);
          if entry.Some? {
            descs.Set(k, entry.value.(refs := AddU32(entry.value.refs, 1)));
          }
        } else {
          assert Drained(slots[..i + 1]) == done;
        }
        i := i + 1;
      }
      assert slots[..i] == slots;
      copy := new FdTable(slots);
    }
  }
}
