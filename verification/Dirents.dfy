/** Directory listings: records printed into a buffer of limited size, call after call, and read
    back by record length. */
module Dirents {
  import opened Base

  type Bytes = seq<byte>

  const HEADER: nat := 19
  const U16: nat := 65536
  const U64: nat := 0x1_0000_0000_0000_0000

  datatype Entry = Entry(ino: nat, kind: byte, name: Bytes)

  // ----- little-endian numbers -----------------------------------------------------------

  function Le(v: nat, n: nat): (r: Bytes)
    ensures |r| == n
  {
    if n == 0 then [] else [v % 256] + Le(v / 256, n - 1)
  }

  function UnLe(b: Bytes): nat {
    if |b| == 0 then 0 else (b[0] as int) + 256 * UnLe(b[1..])
  }

  /** Small enough for `n` bytes. */
  predicate Fits(v: nat, n: nat) {
    if n == 0 then v == 0 else Fits(v / 256, n - 1)
  }

  lemma {:induction false} LeRoundTrip(v: nat, n: nat)
    requires Fits(v, n)
    ensures UnLe(Le(v, n)) == v
  {
    if n > 0 {
      LeRoundTrip(v / 256, n - 1);
      assert Le(v, n)[1..] == Le(v / 256, n - 1);
    }
  }

  // ----- one record ----------------------------------------------------------------------

  /** The header, the name and its zero, rounded up to a multiple of eight. */
  function RecordLen(name: Bytes): (r: nat)
    ensures r % 8 == 0 && HEADER + |name| + 1 <= r < HEADER + |name| + 9
  {
    (HEADER + |name| + 8) / 8 * 8
  }

  function Padding(n: nat): (r: Bytes)
    ensures |r| == n && forall i :: 0 <= i < n ==> r[i] == 0
  {
    seq(n, _ => 0)
  }

  /** A record: inode, the offset of the next entry, its own length, its kind, its name. */
  function Record(e: Entry, next: nat): (r: Bytes)
    ensures |r| == RecordLen(e.name)
  {
    Le(e.ino, 8) + Le(next, 8) + Le(RecordLen(e.name) % U16, 2) + [e.kind] + e.name
      + Padding(RecordLen(e.name) - HEADER - |e.name|)
  }

  /** Names are not empty of sense: no zero byte in them, and short enough for a 16-bit length. */
  ghost predicate EntryOk(e: Entry) {
    && Fits(e.ino, 8)
    && RecordLen(e.name) < U16
    && forall i :: 0 <= i < |e.name| ==> e.name[i] != 0
  }

  datatype Parsed = Parsed(entry: Entry, next: nat)

  function UpToZero(b: Bytes): (n: nat)
    ensures n <= |b| && (n < |b| ==> b[n] == 0)
    ensures forall i :: 0 <= i < n ==> b[i] != 0
  {
    if |b| == 0 || b[0] == 0 then 0 else 1 + UpToZero(b[1..])
  }

  /** The length field of the record a block begins with. */
  function LengthAt(block: Bytes): nat
    requires |block| >= HEADER
  {
    UnLe(block[16..18])
  }

  function ParseOne(r: Bytes): Parsed
    requires |r| >= HEADER
  {
    var name := r[HEADER..];
    Parsed(Entry(UnLe(r[..8]), r[18], name[..UpToZero(name)]), UnLe(r[8..16]))
  }

  /** Read a block the way a C library does: record after record, by the length each one gives. */
  function Parse(block: Bytes): seq<Parsed> {
    if |block| < HEADER then []
    else
      var len := LengthAt(block);
      if len < HEADER || len > |block| then [] else [ParseOne(block[..len])] + Parse(block[len..])
  }

  // ----- one call ------------------------------------------------------------------------

  /** Whole records from `pos` on while they fit; a buffer too small for the first is refused. */
  function Filled(entries: seq<Entry>, pos: nat, capacity: nat, block: Bytes): (Result<Bytes, Errno>, nat)
    decreases |entries| - pos
  {
    if pos >= |entries| then (Ok(block), pos)
    else if |block| + RecordLen(entries[pos].name) > capacity then (if |block| == 0 then Err(INVAL) else Ok(block), pos)
    else Filled(entries, pos + 1, capacity, block + Record(entries[pos], pos + 1))
  }

  /** A `getdents64` call: the size of its buffer, and whether the block can be copied there. */
  datatype Request = Request(capacity: nat, copyOk: bool)

  /** The answer, and the position afterwards: it has moved before the copy can fault. */
  function Answered(entries: seq<Entry>, pos: nat, q: Request): (Result<Bytes, Errno>, nat) {
    var (r, to) := Filled(entries, pos, q.capacity, []);
    (if r.Ok? && !q.copyOk then Err(FAULT) else r, to)
  }

  /** An open directory, its entries read at `open`. */
  class Directory {
    const entries: seq<Entry>
    var pos: nat

    constructor (entries: seq<Entry>)
      ensures this.entries == entries && pos == 0
    {
      this.entries := entries;
      pos := 0;
    }

    method Getdents(q: Request) returns (r: Result<Bytes, Errno>)
      modifies this
      ensures (r, pos) == Answered(entries, old(pos), q)
    {
      var block: Bytes := [];
      while pos < |entries|
        invariant Filled(entries, pos, q.capacity, block) == Filled(entries, old(pos), q.capacity, [])
        decreases |entries| - pos
      {
        hide Record, RecordLen;
        var item := entries[pos];
        if |block| + RecordLen(item.name) > q.capacity {
          if |block| == 0 {
            return Err(INVAL);
          }
          break;
        }
        block := block + Record(item, pos + 1);
        pos := pos + 1;
      }
      r := if q.copyOk then Ok(block) else Err(FAULT);
    }
  }

  /** The records of entries `from` up to `to`, one after the other. */
  function Records(entries: seq<Entry>, from: nat, to: nat): Bytes
    requires from <= to <= |entries|
    decreases (to - from)
  {
    if from == to then [] else Record(entries[from], from + 1) + Records(entries, from + 1, to)
  }

  /** What reading those records back should give. */
  function Listed(entries: seq<Entry>, from: nat, to: nat): (r: seq<Parsed>)
    requires from <= to <= |entries|
    ensures |r| == to - from && forall i :: 0 <= i < |r| ==> r[i] == Parsed(entries[from + i], from + i + 1)
  {
    seq(to - from, i requires 0 <= i < to - from => Parsed(entries[from + i], from + i + 1))
  }

  /** A call prints the records of as many entries as fit, and no more. */
  lemma {:induction false} FilledIs(entries: seq<Entry>, pos: nat, capacity: nat, block: Bytes)
    requires pos <= |entries| && |block| <= capacity && |block| % 8 == 0
    ensures var (r, to) := Filled(entries, pos, capacity, block);
      && pos <= to <= |entries|
      && (r.Ok? ==> r.value == block + Records(entries, pos, to) && |r.value| <= capacity && |r.value| % 8 == 0)
      && (r.Err? ==> to == pos && |block| == 0 && pos < |entries| && RecordLen(entries[pos].name) > capacity)
      && (r.Ok? && to < |entries| ==> |r.value| + RecordLen(entries[to].name) > capacity)
      && (r.Ok? && |block| == 0 && pos < |entries| ==> to > pos)
    decreases |entries| - pos
  {
    hide Record, RecordLen;
    if pos < |entries| && |block| + RecordLen(entries[pos].name) <= capacity {
      var next := block + Record(entries[pos], pos + 1);
      FilledIs(entries, pos + 1, capacity, next);
      var (r, to) := Filled(entries, pos + 1, capacity, next);
      if r.Ok? {
        assert next + Records(entries, pos + 1, to) ==
          block + (Record(entries[pos], pos + 1) + Records(entries, pos + 1, to));
      }
    }
  }

  // ----- reading back --------------------------------------------------------------------

  lemma FitsWord(v: nat)
    ensures v < U64 ==> Fits(v, 8)
    ensures v < U16 ==> Fits(v, 2)
  {
    if v < U64 {
      FitsUp(v, 8, U64);
    }
    if v < U16 {
      FitsUp(v, 2, U16);
    }
  }

  lemma {:induction false} FitsUp(v: nat, n: nat, bound: nat)
    requires v < bound && bound == Power(n)
    ensures Fits(v, n)
  {
    if n > 0 {
      FitsUp(v / 256, n - 1, Power(n - 1));
    }
  }

  function Power(n: nat): nat {
    if n == 0 then 1 else 256 * Power(n - 1)
  }

  /** One record reads back as the entry it was printed from. */
  lemma RecordReads(e: Entry, next: nat)
    requires EntryOk(e) && Fits(next, 8)
    ensures var r := Record(e, next);
      LengthAt(r) == |r| && ParseOne(r) == Parsed(e, next)
  {
    hide Le, UnLe, Fits;
    var r := Record(e, next);
    var len := RecordLen(e.name);
    assert r[..8] == Le(e.ino, 8);
    assert r[8..16] == Le(next, 8);
    assert r[16..18] == Le(len % U16, 2);
    FitsWord(len);
    LeRoundTrip(e.ino, 8);
    LeRoundTrip(next, 8);
    LeRoundTrip(len, 2);
    var name := r[HEADER..];
    assert forall i :: 0 <= i < |e.name| ==> name[i] == e.name[i];
    assert name[|e.name|] == 0;
    assert UpToZero(name) == |e.name|;
    assert name[..|e.name|] == e.name;
  }

  lemma ParseRecord(e: Entry, next: nat, rest: Bytes)
    requires EntryOk(e) && Fits(next, 8)
    ensures Parse(Record(e, next) + rest) == [Parsed(e, next)] + Parse(rest)
  {
    hide Record, ParseOne, LengthAt;
    var r := Record(e, next);
    RecordReads(e, next);
    assert LengthAt(r + rest) == LengthAt(r) by { SameLength(r, rest); }
    assert (r + rest)[..|r|] == r && (r + rest)[|r|..] == rest;
  }

  lemma SameLength(r: Bytes, rest: Bytes)
    requires |r| >= HEADER
    ensures LengthAt(r + rest) == LengthAt(r)
  {
    assert (r + rest)[16..18] == r[16..18];
  }

  /** Records printed one after the other read back one after the other. */
  lemma {:induction false} ParseRecords(entries: seq<Entry>, from: nat, to: nat)
    requires from <= to <= |entries| < U64 && forall i :: 0 <= i < |entries| ==> EntryOk(entries[i])
    ensures Parse(Records(entries, from, to)) == Listed(entries, from, to)
    decreases (to - from)
  {
    hide Record, EntryOk, Fits;
    if from < to {
      FitsWord(from + 1);
      ParseRecords(entries, from + 1, to);
      ParseRecord(entries[from], from + 1, Records(entries, from + 1, to));
      assert Listed(entries, from, to) == [Parsed(entries[from], from + 1)] + Listed(entries, from + 1, to);
    }
  }

  // ----- call after call -----------------------------------------------------------------

  /** Where the position is after some calls, and what the successful ones returned. */
  function Position(entries: seq<Entry>, calls: seq<Request>): nat {
    if |calls| == 0 then 0
    else Answered(entries, Position(entries, calls[..|calls| - 1]), calls[|calls| - 1]).1
  }

  function Returned(entries: seq<Entry>, calls: seq<Request>): seq<Parsed> {
    if |calls| == 0 then []
    else
      var n := |calls| - 1;
      var before := Returned(entries, calls[..n]);
      match Answered(entries, Position(entries, calls[..n]), calls[n]).0
      case Ok(block) => before + Parse(block)
      case Err(_) => before
  }

  /** A call had records to give and could not copy them. */
  predicate Loses(entries: seq<Entry>, calls: seq<Request>) {
    |calls| > 0 &&
    var n := |calls| - 1;
    var pos := Position(entries, calls[..n]);
    Loses(entries, calls[..n]) || (!calls[n].copyOk && Filled(entries, pos, calls[n].capacity, []).1 > pos)
  }

  /** Successive calls, whatever their buffers, list every entry exactly once and in order up to
      where the position has come, if and only if no copy faulted with records in it: those entries
      are passed over, and no later call gives them. */
  lemma {:induction false} EachEntryOnce(entries: seq<Entry>, calls: seq<Request>)
    requires |entries| < U64 && forall i :: 0 <= i < |entries| ==> EntryOk(entries[i])
    ensures Position(entries, calls) <= |entries|
    ensures Returned(entries, calls) == Listed(entries, 0, Position(entries, calls)) <==> !Loses(entries, calls)
    ensures Loses(entries, calls) ==> |Returned(entries, calls)| < Position(entries, calls)
  {
    hide EntryOk, Filled, Parse;
    if |calls| > 0 {
      var n := |calls| - 1;
      EachEntryOnce(entries, calls[..n]);
      var pos := Position(entries, calls[..n]);
      FilledIs(entries, pos, calls[n].capacity, []);
      var (r, to) := Filled(entries, pos, calls[n].capacity, []);
      ParseRecords(entries, pos, to);
      if r.Ok? {
        assert r.value == Records(entries, pos, to);
        assert Listed(entries, 0, pos) + Listed(entries, pos, to) == Listed(entries, 0, to);
      }
    }
  }

  /** A successful call returns nothing exactly at the end; every block is a multiple of eight long
      and within its buffer; and a refusal moves nothing. */
  lemma CallsProgress(entries: seq<Entry>, pos: nat, capacity: nat)
    requires pos <= |entries|
    ensures var (r, to) := Filled(entries, pos, capacity, []);
      && (r.Ok? ==> (r.value == [] <==> pos == |entries|) && |r.value| % 8 == 0 && |r.value| <= capacity)
      && (r.Ok? && pos < |entries| ==> to > pos)
      && (r.Err? <==> pos < |entries| && RecordLen(entries[pos].name) > capacity)
      && (r.Err? ==> to == pos)
  {
    FilledIs(entries, pos, capacity, []);
  }
}
