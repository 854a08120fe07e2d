/** The index-keyed store behind descriptions and pipes, and its free list. */
module Slabs {
  import opened Base

  /** What a slab holds: the slot vector and the stack of vacated keys. */
  datatype SlabState<T> = SlabState(slots: seq<Option<T>>, free: seq<nat>)

  function Empty<T>(): SlabState<T> {
    SlabState([], [])
  }

  function At<T>(s: SlabState<T>, k: nat): Option<T> {
    if k < |s.slots| then s.slots[k] else None
  }

  ghost predicate Live<T>(s: SlabState<T>, k: nat) {
    At(s, k).Some?
  }

  /** The free list holds exactly the dead keys, each once. */
  ghost predicate Sound<T>(s: SlabState<T>) {
    && (forall i :: 0 <= i < |s.free| ==> s.free[i] < |s.slots| && s.slots[s.free[i]].None?)
    && (forall i, j :: 0 <= i < j < |s.free| ==> s.free[i] != s.free[j])
    && (forall k :: 0 <= k < |s.slots| && s.slots[k].None? ==> k in s.free)
  }

  /** Store a value: reuse the most recently vacated key, else grow up to `cap`. */
  function Inserted<T>(s: SlabState<T>, value: T, cap: nat): (SlabState<T>, Option<nat>) {
    if |s.free| > 0 then
      var k := s.free[|s.free| - 1];
      var popped := s.free[..|s.free| - 1];
      if k < |s.slots| then
        (SlabState(s.slots[k := Some(value)], popped), Some(k))
      else
        (SlabState(s.slots, popped), None)
    else if |s.slots| >= cap || |s.slots| >= U32_MAX then
      (s, None)
    else
      (SlabState(s.slots + [Some(value)], s.free), Some(|s.slots|))
  }

  function Removed<T>(s: SlabState<T>, k: nat): (SlabState<T>, Option<T>) {
    if k >= |s.slots| || s.slots[k].None? then
      (s, None)
    else
      (SlabState(s.slots[k := None], s.free + [k]), s.slots[k])
  }

  /** Overwrite a live entry, as writing through `get_mut` does; a dead key is left alone. */
  function Stored<T>(s: SlabState<T>, k: nat, value: T): SlabState<T> {
    if At(s, k).Some? then SlabState(s.slots[k := Some(value)], s.free) else s
  }

  /** `insert` yields a key nobody held and disturbs no other entry; it refuses exactly when
      every slot is live and the slab has reached its cap. */
  lemma InsertedFresh<T>(s: SlabState<T>, value: T, cap: nat)
    requires Sound(s)
    ensures var (s', r) := Inserted(s, value, cap);
      && Sound(s')
      && (r.None? ==> s' == s)
      && (r.None? <==> (forall k :: 0 <= k < |s.slots| ==> Live(s, k)) && (|s.slots| >= cap || |s.slots| >= U32_MAX))
      && (r.Some? ==> !Live(s, r.value)
                      && forall k: nat :: At(s', k) == if k == r.value then Some(value) else At(s, k))
  {
    var (s', r) := Inserted(s, value, cap);
    if |s.free| > 0 {
      var k := s.free[|s.free| - 1];
      assert !Live(s, k);
      forall j | 0 <= j < |s'.slots| && s'.slots[j].None? ensures j in s'.free {
        assert j in s.free && j != k;
        var i :| 0 <= i < |s.free| && s.free[i] == j;
        assert s'.free[i] == j;
      }
    } else {
      forall k | 0 <= k < |s.slots| ensures Live(s, k) {
        assert s.slots[k].None? ==> k in s.free;
      }
    }
  }

  /** `remove` takes exactly one live entry out, once, and leaves the others alone. */
  lemma RemovedExact<T>(s: SlabState<T>, k: nat)
    requires Sound(s)
    ensures var (s', r) := Removed(s, k);
      && Sound(s')
      && r == At(s, k)
      && (forall j: nat :: At(s', j) == if j == k then None else At(s, j))
      && Removed(s', k) == (s', None)
  {
    var (s', r) := Removed(s, k);
    if Live(s, k) {
      assert k !in s.free;
      forall j | 0 <= j < |s'.slots| && s'.slots[j].None? ensures j in s'.free {
        if j == k {
          assert s'.free[|s.free|] == k;
        } else {
          var i :| 0 <= i < |s.free| && s.free[i] == j;
          assert s'.free[i] == j;
        }
      }
    }
  }

  lemma StoredExact<T>(s: SlabState<T>, k: nat, value: T)
    requires Sound(s) && Live(s, k)
    ensures Sound(Stored(s, k, value))
    ensures forall j: nat :: At(Stored(s, k, value), j) == if j == k then Some(value) else At(s, j)
  {
    var s' := Stored(s, k, value);
    forall j | 0 <= j < |s'.slots| && s'.slots[j].None? ensures j in s'.free {
      assert s.slots[j].None?;
    }
  }

  /** The keys of live entries below `n`. */
  ghost function LiveBelow<T>(s: SlabState<T>, n: nat): set<nat> {
    set k | 0 <= k < n && Live(s, k)
  }

  /** The reported length, slots less free entries, is the number of live entries. */
  lemma {:induction false} LenCountsLive<T>(s: SlabState<T>)
    requires Sound(s)
    ensures SubSat(|s.slots|, |s.free|) == |LiveBelow(s, |s.slots|)|
  {
    var dead := set i | 0 <= i < |s.free| :: s.free[i];
    FreeDistinct(s.free);
    var all := Upto(|s.slots|);
    assert LiveBelow(s, |s.slots|) == all - dead;
    assert dead <= all;
    assert |all - dead| == |all| - |dead|;
  }

  /** The first `n` keys. */
  ghost function Upto(n: nat): (r: set<nat>)
    ensures |r| == n && forall k: nat :: k in r <==> k < n
  {
    if n == 0 then {} else Upto(n - 1) + {n - 1}
  }

  lemma {:induction false} FreeDistinct(free: seq<nat>)
    requires forall i, j :: 0 <= i < j < |free| ==> free[i] != free[j]
    ensures |set i | 0 <= i < |free| :: free[i]| == |free|
  {
    if |free| > 0 {
      var n := |free| - 1;
      FreeDistinct(free[..n]);
      var shorter := set i | 0 <= i < n :: free[..n][i];
      forall i | 0 <= i < n ensures free[i] in shorter {
        assert free[..n][i] == free[i];
      }
      assert (set i | 0 <= i < |free| :: free[i]) == shorter + {free[n]};
    }
  }

  /** The store itself, changed in place. */
  class Slab<T> {
    var slots: seq<Option<T>>
    var free: seq<nat>

    ghost function View(): SlabState<T>
      reads this
    {
      SlabState(slots, free)
    }

    constructor ()
      ensures View() == Empty()
    {
      slots := [];
      free := [];
    }

    method Insert(value: T, cap: nat) returns (r: Option<nat>)
      modifies this
      ensures (View(), r) == Inserted(old(View()), value, cap)
    {
      if |free| > 0 {
        var k := free[|free| - 1];
        free := free[..|free| - 1];
        if k < |slots| {
          slots := slots[k := Some(value)];
          return Some(k);
        }
        return None;
      }
      if |slots| >= cap || |slots| >= U32_MAX {
        return None;
      }
      r := Some(|slots|);
      slots := slots + [Some(value)];
    }

    function Get(k: nat): (r: Option<T>)
      reads this
      ensures r == At(View(), k)
    {
      if k < |slots| then slots[k] else None
    }

    /** `get_mut` followed by a store through the reference. */
    method Set(k: nat, value: T)
      modifies this
      ensures View() == Stored(old(View()), k, value)
    {
      if k < |slots| && slots[k].Some? {
        slots := slots[k := Some(value)];
      }
    }

    method Remove(k: nat) returns (r: Option<T>)
      modifies this
      ensures (View(), r) == Removed(old(View()), k)
    {
      if k >= |slots| {
        return None;
      }
      r := slots[k];
      slots := slots[k := None];
      if r.Some? {
        free := free + [k];
      } else {
        assert slots == old(slots);
      }
    }

    method Len() returns (n: nat)
      requires Sound(View())
      ensures n == |LiveBelow(View(), |slots|)|
    {
      LenCountsLive(View());
      n := SubSat(|slots|, |free|);
    }
  }
}
