/** Checked access to a guest's memory: words, strings and the arrays of strings that `execve` is
    given. */
module GuestMemory {
  import opened Base

  const WORD: nat := 0x1_0000_0000
  const MAX_ARGS: nat := 4096
  const MAX_ARG_STRLEN: nat := 131072
  const MAX_ARG_TOTAL: nat := 2097152

  type Bytes = seq<byte>

  /** A 32-bit word, least significant byte first. */
  function Word(v: nat): (r: Bytes)
    requires v < WORD
    ensures |r| == 4
  {
    [v % 256, v / 256 % 256, v / 65536 % 256, v / 16777216]
  }

  function Value(b: Bytes): (v: nat)
    requires |b| == 4
    ensures v < WORD
  {
    (b[0] as int) + (b[1] as int) * 256 + (b[2] as int) * 65536 + (b[3] as int) * 16777216
  }

  lemma WordRoundTrip(v: nat)
    requires v < WORD
    ensures Value(Word(v)) == v
  {
  }

  /** `len` bytes at `at`, if they are all there. */
  function Slice(m: Bytes, at: nat, len: nat): Result<Bytes, Errno> {
    if at + len <= |m| then Ok(m[at..at + len]) else Err(FAULT)
  }

  function ReadWord(m: Bytes, at: nat): Result<nat, Errno> {
    match Slice(m, at, 4)
    case Ok(b) => Ok(Value(b))
    case Err(e) => Err(e)
  }

  function Written(m: Bytes, at: nat, data: Bytes): (Bytes, Result<(), Errno>) {
    if at + |data| <= |m| then (m[..at] + data + m[at + |data|..], Ok(())) else (m, Err(FAULT))
  }

  /** Where the first zero byte is, or the length. */
  function FirstZero(b: Bytes): (r: nat)
    ensures r <= |b| && (r < |b| ==> b[r] == 0)
    ensures forall i :: 0 <= i < r ==> b[i] != 0
  {
    if |b| == 0 || b[0] == 0 then 0 else 1 + FirstZero(b[1..])
  }

  /** A zero-terminated string of fewer than `cap` bytes. */
  function CStr(m: Bytes, at: nat, cap: nat): Result<Bytes, Errno> {
    if at > |m| then Err(FAULT)
    else
      var capped := m[at..Min(|m|, at + cap)];
      var end := FirstZero(capped);
      if end == |capped| then Err(NAMETOOLONG) else Ok(capped[..end])
  }

  /** The string a pointer at `p` leads to; nothing for a null pointer. */
  function ItemAt(m: Bytes, p: nat): Result<Option<Bytes>, Errno> {
    match ReadWord(m, p)
    case Err(e) => Err(e)
    case Ok(item) =>
      if item == 0 then Ok(None)
      else match CStr(m, item, MAX_ARG_STRLEN)
        case Err(e) => Err(if e == NAMETOOLONG then TOOBIG else e)
        case Ok(s) => Ok(Some(s))
  }

  /** Where the loop over an array stands: the next pointer, the strings so far, their bytes. */
  datatype Cursor = Cursor(p: nat, out: seq<Bytes>, total: nat)

  datatype Turn = Over(r: Result<seq<Bytes>, Errno>) | Further(to: Cursor)

  /** One turn of the loop. */
  function TurnAt(m: Bytes, c: Cursor): Turn {
    match ItemAt(m, c.p)
    case Err(e) => Over(Err(e))
    case Ok(None) => Over(Ok(c.out))
    case Ok(Some(s)) =>
      if c.total + |s| + 1 > MAX_ARG_TOTAL || |c.out| + 1 >= MAX_ARGS then Over(Err(TOOBIG))
      else if c.p + 4 >= WORD then Over(Err(FAULT))
      else Further(Cursor(c.p + 4, c.out + [s], c.total + |s| + 1))
  }

  /** The array from a cursor on. */
  function ArrayFrom(m: Bytes, c: Cursor): Result<seq<Bytes>, Errno>
    decreases MAX_ARGS - |c.out|
  {
    match TurnAt(m, c)
    case Over(r) => r
    case Further(to) => ArrayFrom(m, to)
  }

  /** A zero-terminated array of string pointers; none at all for a null one. */
  function CstrArray(m: Bytes, at: nat): Result<seq<Bytes>, Errno> {
    if at == 0 then Ok([]) else ArrayFrom(m, Cursor(at, [], 0))
  }

  /** A guest's memory as the kernel borrows it. */
  class Mem {
    const bytes: array<byte>

    constructor (bytes: array<byte>)
      ensures this.bytes == bytes
    {
      this.bytes := bytes;
    }

    /** Copy `data` to `at`, or change nothing. */
    method Put(at: nat, data: Bytes) returns (r: Result<(), Errno>)
      modifies bytes
      ensures (bytes[..], r) == Written(old(bytes[..]), at, data)
    {
      if at + |data| > bytes.Length {
        return Err(FAULT);
      }
      var i := 0;
      while i < |data|
        invariant i <= |data|
        invariant bytes[..] == old(bytes[..])[..at] + data[..i] + old(bytes[..])[at + i..]
      {
        bytes[at + i] := data[i];
        i := i + 1;
      }
      assert data[..i] == data;
      r := Ok(());
    }

    method Get(at: nat) returns (r: Result<nat, Errno>)
      ensures r == ReadWord(bytes[..], at)
    {
      if at + 4 > bytes.Length {
        return Err(FAULT);
      }
      r := Ok(Value(bytes[at..at + 4]));
      assert bytes[..][at..at + 4] == bytes[at..at + 4];
    }

    method GetString(at: nat, cap: nat) returns (r: Result<Bytes, Errno>)
      ensures r == CStr(bytes[..], at, cap)
    {
      if at > bytes.Length {
        return Err(FAULT);
      }
      var end := Min(bytes.Length, at + cap);
      var i := at;
      while i < end && bytes[i] != 0
        invariant at <= i <= end
        invariant forall j :: at <= j < i ==> bytes[j] != 0
      {
        i := i + 1;
      }
      ghost var capped := bytes[..][at..end];
      assert forall j :: 0 <= j < i - at ==> capped[j] == bytes[at + j];
      assert i < end ==> capped[i - at] == bytes[i];
      assert FirstZero(capped) == i - at;
      if i == end {
        return Err(NAMETOOLONG);
      }
      r := Ok(bytes[at..i]);
      assert bytes[at..i] == capped[..i - at];
    }

    method GetItem(p: nat) returns (r: Result<Option<Bytes>, Errno>)
      ensures r == ItemAt(bytes[..], p)
      ensures r.Ok? ==> p + 4 <= bytes.Length
    {
      var item := Get(p);
      if item.Err? {
        return Err(item.error);
      }
      if item.value == 0 {
        return Ok(None);
      }
      var s := GetString(item.value, MAX_ARG_STRLEN);
      if s.Err? {
        return Err(if s.error == NAMETOOLONG then TOOBIG else s.error);
      }
      r := Ok(Some(s.value));
    }

    method Turn(c: Cursor) returns (t: Turn)
      ensures t == TurnAt(bytes[..], c)
    {
      var item := GetItem(c.p);
      if item.Err? {
        return Over(Err(item.error));
      }
      if item.value.None? {
        return Over(Ok(c.out));
      }
      var s := item.value.value;
      var total := c.total + |s| + 1;
      if total > MAX_ARG_TOTAL {
        return Over(Err(TOOBIG));
      }
      var out := c.out + [s];
      if |out| >= MAX_ARGS {
        return Over(Err(TOOBIG));
      }
      t := if c.p + 4 >= WORD then Over(Err(FAULT)) else Further(Cursor(c.p + 4, out, total));
    }

    method GetArray(at: nat) returns (r: Result<seq<Bytes>, Errno>)
      ensures r == CstrArray(bytes[..], at)
    {
      if at == 0 {
        return Ok([]);
      }
      var c := Cursor(at, [], 0);
      while true
        invariant CstrArray(bytes[..], at) == ArrayFrom(bytes[..], c)
        decreases MAX_ARGS - |c.out|
      {
        var t := Turn(c);
        if t.Over? {
          return t.r;
        }
        c := t.to;
      }
    }
  }

  // ----- what can be read ----------------------------------------------------------------

  /** A string that ends in its own zero byte is read back whole. */
  lemma StringReads(m: Bytes, at: nat, s: Bytes, cap: nat)
    requires at + |s| < |m| && m[at..at + |s|] == s && m[at + |s|] == 0 && |s| < cap
    requires forall i :: 0 <= i < |s| ==> s[i] != 0
    ensures CStr(m, at, cap) == Ok(s)
  {
    var capped := m[at..Min(|m|, at + cap)];
    var end := FirstZero(capped);
    assert capped[|s|] == 0;
    assert forall i :: 0 <= i < |s| ==> capped[i] == s[i];
    assert end == |s|;
    assert capped[..end] == m[at..at + |s|];
  }

  function TotalLen(items: seq<Bytes>): nat {
    if |items| == 0 then 0 else TotalLen(items[..|items| - 1]) + |items[|items| - 1]| + 1
  }

  /** A list `execve` accepts: strings without zero bytes, within every cap. */
  ghost predicate ArgsOk(items: seq<Bytes>) {
    && |items| < MAX_ARGS && TotalLen(items) <= MAX_ARG_TOTAL
    && forall i :: 0 <= i < |items| ==> |items[i]| < MAX_ARG_STRLEN && forall j :: 0 <= j < |items[i]| ==>
      items[i][j] != 0
  }

  /** Whatever is read is within the caps. */
  lemma {:induction false} ArrayIsOk(m: Bytes, c: Cursor)
    requires ArgsOk(c.out) && c.total == TotalLen(c.out)
    ensures ArrayFrom(m, c).Ok? ==> ArgsOk(ArrayFrom(m, c).value)
    decreases MAX_ARGS - |c.out|
  {
    var t := TurnAt(m, c);
    if t.Further? {
      assert t.to.out[..|c.out|] == c.out;
      ArrayIsOk(m, t.to);
    }
  }

  /** Pointers to each string, then a null: the strings are what is read. */
  lemma {:induction false} ArrayReads(m: Bytes, p: nat, items: seq<Bytes>, at: seq<nat>, k: nat)
    requires ArgsOk(items) && |at| == |items| && k <= |items| && p + 4 * |items| < WORD
    requires forall i :: 0 <= i < |items| ==>
      at[i] != 0 && ReadWord(m, p + 4 * i) == Ok(at[i]) && CStr(m, at[i], MAX_ARG_STRLEN) == Ok(items[i])
    requires ReadWord(m, p + 4 * |items|) == Ok(0)
    ensures ArrayFrom(m, Cursor(p + 4 * k, items[..k], TotalLen(items[..k]))) == Ok(items)
    decreases |items| - k
  {
    hide ReadWord, CStr, TotalLen;
    if k == |items| {
      assert items[..k] == items;
    } else {
      assert items[..k + 1] == items[..k] + [items[k]];
      TotalNext(items, k);
      TotalUpTo(items, k + 1);
      ArrayReads(m, p, items, at, k + 1);
    }
  }

  lemma TotalNext(items: seq<Bytes>, k: nat)
    requires k < |items|
    ensures TotalLen(items[..k + 1]) == TotalLen(items[..k]) + |items[k]| + 1
  {
    assert items[..k + 1][..k] == items[..k];
  }

  lemma {:induction false} TotalUpTo(items: seq<Bytes>, k: nat)
    requires k <= |items|
    ensures TotalLen(items[..k]) <= TotalLen(items)
    decreases |items| - k
  {
    if k < |items| {
      TotalNext(items, k);
      TotalUpTo(items, k + 1);
    } else {
      assert items[..k] == items;
    }
  }
}
