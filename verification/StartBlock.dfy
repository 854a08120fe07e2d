/** The block a program starts from, and the round trip of its arguments and environment through
    it. */
module StartBlocks {
  import opened Base
  import opened GuestMemory

  const AUXV_LEN: nat := 20
  const RANDOM_LEN: nat := 16

  /** Strings one after the other, each with its zero byte. */
  function Blob(items: seq<Bytes>): Bytes {
    if |items| == 0 then [] else Blob(items[..|items| - 1]) + items[|items| - 1] + [0]
  }

  function Encoded(words: seq<nat>): Bytes
    requires forall i :: 0 <= i < |words| ==> words[i] < WORD
  {
    if |words| == 0 then [] else Encoded(words[..|words| - 1]) + Word(words[|words| - 1])
  }

  /** The argument count, the pointers, and the auxiliary vector, all in words. */
  function HeaderWords(argc: nat, envc: nat): nat {
    argc + envc + 3 + AUXV_LEN
  }

  /** Where the random bytes are, from the start of the block. */
  function RandomAt(argc: nat, envc: nat): nat {
    HeaderWords(argc, envc) * 4
  }

  function StringsAt(argc: nat, envc: nat): nat {
    RandomAt(argc, envc) + RANDOM_LEN
  }

  /** A 32-bit address `offset` bytes past `base`, wrapping. */
  function Address(base: nat, offset: nat): (a: nat)
    ensures a < WORD
  {
    (base + offset) % WORD
  }

  /** The addresses of strings `from` up to `to` of `items`. */
  function Pointers(items: seq<Bytes>, from: nat, to: nat, base: nat, at: nat): (r: seq<nat>)
    requires from <= to <= |items|
    ensures |r| == to - from
    ensures forall i :: 0 <= i < |r| ==> r[i] == Address(base, at + |Blob(items[..from + i])|)
  {
    seq<nat>(to - from, i requires 0 <= i < to - from => Address(base, at + |Blob(items[..from + i])|))
  }

  /** Page size, clock tick, the identities, no privilege, the random bytes, the file name. */
  function Auxv(random: nat, execfn: nat): (r: seq<nat>)
    ensures |r| == AUXV_LEN
  {
    [6, 4096, 17, 100, 11, 0, 12, 0, 13, 0, 14, 0, 23, 0, 25, random, 31, execfn, 0, 0]
  }

  function Header(argv: seq<Bytes>, envp: seq<Bytes>, base: nat): (r: seq<nat>)
    ensures |r| == HeaderWords(|argv|, |envp|)
    ensures forall i :: 0 <= i < |r| ==> r[i] < WORD
  {
    var at := StringsAt(|argv|, |envp|);
    var all := argv + envp;
    [|argv| % WORD] + Pointers(all, 0, |argv|, base, at) + [0] + Pointers(all, |argv|, |all|, base, at) + [0]
      + Auxv(Address(base, RandomAt(|argv|, |envp|)), Address(base, at + |Blob(all)|))
  }

  function Block(argv: seq<Bytes>, envp: seq<Bytes>, exe: Bytes, seed: Bytes, base: nat): Bytes {
    Encoded(Header(argv, envp, base)) + seed + Blob(argv + envp) + exe + [0]
  }

  // ----- as it is written ----------------------------------------------------------------

  /** The strings, and where each of them starts. */
  method LayOut(items: seq<Bytes>, at: nat) returns (strings: Bytes, offsets: seq<nat>)
    ensures strings == Blob(items)
    ensures |offsets| == |items| && forall i :: 0 <= i < |items| ==> offsets[i] == at + |Blob(items[..i])|
  {
    strings, offsets := [], [];
    var i := 0;
    while i < |items|
      invariant i <= |items| && strings == Blob(items[..i])
      invariant |offsets| == i && forall j :: 0 <= j < i ==> offsets[j] == at + |Blob(items[..j])|
    {
      assert items[..i + 1][..i] == items[..i];
      offsets := offsets + [at + |strings|];
      strings := strings + items[i] + [0];
      i := i + 1;
    }
    assert items[..i] == items;
  }

  /** The words of a list, one pushed after the other. */
  method PushAll(out: Bytes, words: seq<nat>) returns (r: Bytes)
    requires forall i :: 0 <= i < |words| ==> words[i] < WORD
    ensures r == out + Encoded(words)
  {
    r := out;
    var i := 0;
    while i < |words|
      invariant i <= |words| && r == out + Encoded(words[..i])
    {
      assert words[..i + 1][..i] == words[..i];
      r := r + Word(words[i]);
      i := i + 1;
    }
    assert words[..i] == words;
  }

  method StartBlock(argv: seq<Bytes>, envp: seq<Bytes>, exe: Bytes, seed: Bytes, base: nat) returns (out: Bytes)
    ensures out == Block(argv, envp, exe, seed, base)
  {
    hide Blob, Encoded, Address;
    var all := argv + envp;
    var at := StringsAt(|argv|, |envp|);
    var strings, offsets := LayOut(all, at);
    var addresses := seq<nat>(|offsets|, i requires 0 <= i < |offsets| => Address(base, offsets[i]));
    var words := [|argv| % WORD] + addresses[..|argv|] + [0] + addresses[|argv|..] + [0]
      + Auxv(Address(base, RandomAt(|argv|, |envp|)), Address(base, at + |strings|));
    assert addresses[..|argv|] == Pointers(all, 0, |argv|, base, at);
    assert addresses[|argv|..] == Pointers(all, |argv|, |all|, base, at);
    assert words == Header(argv, envp, base);
    out := PushAll([], words);
    assert out == Encoded(words);
    out := out + seed + strings + exe + [0];
  }

  // ----- reading it back -----------------------------------------------------------------

  lemma {:induction false} EncodedAt(words: seq<nat>, i: nat)
    requires (forall j :: 0 <= j < |words| ==> words[j] < WORD)
    ensures |Encoded(words)| == 4 * |words|
    ensures i < |words| ==> Encoded(words)[4 * i..4 * i + 4] == Word(words[i])
  {
    hide Word;
    if |words| > 0 {
      var n := |words| - 1;
      EncodedAt(words[..n], i);
      if i < n {
        assert Encoded(words)[4 * i..4 * i + 4] == Encoded(words[..n])[4 * i..4 * i + 4];
      }
    }
  }

  lemma {:induction false} BlobAt(items: seq<Bytes>, i: nat)
    requires i < |items|
    ensures var at := |Blob(items[..i])|;
      && at + |items[i]| < |Blob(items)|
      && Blob(items)[at..at + |items[i]|] == items[i] && Blob(items)[at + |items[i]|] == 0
  {
    var n := |items| - 1;
    if i < n {
      BlobAt(items[..n], i);
      assert items[..n][..i] == items[..i];
      var at := |Blob(items[..i])|;
      assert Blob(items)[at..at + |items[i]|] == Blob(items[..n])[at..at + |items[i]|];
    }
  }

  /** The block sits in a guest's memory at `base`, with no wrap past the end of the address space. */
  ghost predicate Placed(m: Bytes, base: nat, block: Bytes) {
    0 < base && base + |block| <= |m| && base + |block| <= WORD && m[base..base + |block|] == block
  }

  lemma PlacedSlice(m: Bytes, base: nat, block: Bytes, at: nat, len: nat)
    requires Placed(m, base, block) && at + len <= |block|
    ensures m[base + at..base + at + len] == block[at..at + len]
    ensures at < |block| ==> m[base + at] == block[at]
  {
    var whole := m[base..base + |block|];
    var a, b := whole[at..at + len], m[base + at..base + at + len];
    forall i | 0 <= i < len ensures a[i] == b[i] {
      assert whole[at + i] == m[base + (at + i)];
    }
    assert a == b;
    assert at < |block| ==> whole[at] == m[base + at];
  }

  lemma HeaderReads(m: Bytes, argv: seq<Bytes>, envp: seq<Bytes>, exe: Bytes, seed: Bytes, base: nat, i: nat)
    requires Placed(m, base, Block(argv, envp, exe, seed, base)) && i < HeaderWords(|argv|, |envp|)
    ensures ReadWord(m, base + 4 * i) == Ok(Header(argv, envp, base)[i])
  {
    hide Blob, Word, Header, Value;
    var words := Header(argv, envp, base);
    var block := Block(argv, envp, exe, seed, base);
    EncodedAt(words, i);
    PlacedSlice(m, base, block, 4 * i, 4);
    assert block[4 * i..4 * i + 4] == Encoded(words)[4 * i..4 * i + 4];
    WordRoundTrip(words[i]);
  }

  lemma LengthIs(argv: seq<Bytes>, envp: seq<Bytes>, exe: Bytes, seed: Bytes, base: nat)
    requires |seed| == RANDOM_LEN
    ensures |Block(argv, envp, exe, seed, base)| == StringsAt(|argv|, |envp|) + |Blob(argv + envp)| + |exe| + 1
  {
    hide Blob, Word, Header;
    EncodedAt(Header(argv, envp, base), 0);
  }

  /** Every string is where its address says. */
  lemma StringsRead(m: Bytes, argv: seq<Bytes>, envp: seq<Bytes>, exe: Bytes, seed: Bytes, base: nat, i: nat)
    requires Placed(m, base, Block(argv, envp, exe, seed, base)) && |seed| == RANDOM_LEN
    requires ArgsOk(argv) && ArgsOk(envp) && i < |argv + envp|
    ensures var all := argv + envp;
      var offset := StringsAt(|argv|, |envp|) + |Blob(all[..i])|;
      && offset < |Block(argv, envp, exe, seed, base)|
      && Address(base, offset) == base + offset
      && CStr(m, base + offset, MAX_ARG_STRLEN) == Ok(all[i])
  {
    hide Blob, Word, Header, CStr;
    var all := argv + envp;
    var at := StringsAt(|argv|, |envp|);
    var block := Block(argv, envp, exe, seed, base);
    LengthIs(argv, envp, exe, seed, base);
    EncodedAt(Header(argv, envp, base), 0);
    BlobAt(all, i);
    var offset := at + |Blob(all[..i])|;
    var s := all[i];
    assert block[offset..offset + |s|] == Blob(all)[offset - at..offset - at + |s|];
    assert block[offset + |s|] == Blob(all)[offset - at + |s|];
    PlacedSlice(m, base, block, offset, |s|);
    PlacedSlice(m, base, block, offset + |s|, 0);
    StringReads(m, base + offset, s, MAX_ARG_STRLEN);
  }

  lemma HeaderIs(argv: seq<Bytes>, envp: seq<Bytes>, base: nat, i: nat)
    ensures var words := Header(argv, envp, base);
      var all := argv + envp; var at := StringsAt(|argv|, |envp|); var n := |argv|;
      && (i < n ==> words[1 + i] == Address(base, at + |Blob(all[..i])|))
      && words[1 + n] == 0
      && (i < |envp| ==> words[2 + n + i] == Address(base, at + |Blob(all[..n + i])|))
      && words[2 + n + |envp|] == 0
  {
    hide Blob, Address;
  }

  /** Arguments and environment survive `execve`: what a new program reads from the block it is
      started with, wherever the block is put, is byte for byte what `execve` read from the old
      program's memory. */
  lemma ArgumentsSurvive(caller: Bytes, argvAt: nat, envpAt: nat, m: Bytes, argv: seq<Bytes>, envp: seq<Bytes>,
    exe: Bytes, seed: Bytes,
                         base: nat)
    requires CstrArray(caller, argvAt) == Ok(argv) && CstrArray(caller, envpAt) == Ok(envp) && |seed| == RANDOM_LEN
    requires Placed(m, base, Block(argv, envp, exe, seed, base))
    ensures ReadWord(m, base) == Ok(|argv|)
    ensures CstrArray(m, base + 4) == CstrArray(caller, argvAt)
    ensures CstrArray(m, base + 4 * (|argv| + 2)) == CstrArray(caller, envpAt)
  {
    hide Blob, CStr, ReadWord, Block, Header, TotalLen;
    ReadIsOk(caller, argvAt);
    ReadIsOk(caller, envpAt);
    LengthIs(argv, envp, exe, seed, base);
    CountReads(m, argv, envp, exe, seed, base);
    ListReads(m, argv, envp, exe, seed, base, 0, argv);
    ListReads(m, argv, envp, exe, seed, base, |argv| + 1, envp);
  }

  lemma ReadIsOk(m: Bytes, at: nat)
    ensures CstrArray(m, at).Ok? ==> ArgsOk(CstrArray(m, at).value)
  {
    ArrayIsOk(m, Cursor(at, [], 0));
  }

  lemma CountReads(m: Bytes, argv: seq<Bytes>, envp: seq<Bytes>, exe: Bytes, seed: Bytes, base: nat)
    requires Placed(m, base, Block(argv, envp, exe, seed, base)) && ArgsOk(argv)
    ensures ReadWord(m, base) == Ok(|argv|)
  {
    hide Blob, Block, ReadWord, Placed, Address;
    HeaderReads(m, argv, envp, exe, seed, base, 0);
    assert Header(argv, envp, base)[0] == |argv| % WORD;
  }

  /** One of the two lists, its pointers starting `from + 1` words in. */
  lemma ListReads(m: Bytes, argv: seq<Bytes>, envp: seq<Bytes>, exe: Bytes, seed: Bytes, base: nat, from: nat,
    items: seq<Bytes>)
    requires Placed(m, base, Block(argv, envp, exe, seed, base)) && |seed| == RANDOM_LEN && ArgsOk(argv) && ArgsOk(envp)
    requires (from == 0 && items == argv) || (from == |argv| + 1 && items == envp)
    ensures CstrArray(m, base + 4 * (from + 1)) == Ok(items)
  {
    hide Blob, CStr, ReadWord, Block, Header, TotalLen, Address, ArgsOk;
    var all := argv + envp;
    var skip := if from == 0 then 0 else |argv|;
    var at := StringsAt(|argv|, |envp|);
    var p := base + 4 * (from + 1);
    var addresses := seq<nat>(|items|, i requires 0 <= i < |items| => base + at + |Blob(all[..skip + i])|);
    LengthIs(argv, envp, exe, seed, base);
    forall i | 0 <= i < |items|
      ensures addresses[i] != 0 && ReadWord(m, p + 4 * i) == Ok(addresses[i])
        && CStr(m, addresses[i], MAX_ARG_STRLEN) == Ok(items[i])
    {
      StringsRead(m, argv, envp, exe, seed, base, skip + i);
      HeaderReads(m, argv, envp, exe, seed, base, from + 1 + i);
      HeaderIs(argv, envp, base, i);
      assert all[skip + i] == items[i];
    }
    HeaderIs(argv, envp, base, 0);
    HeaderReads(m, argv, envp, exe, seed, base, from + 1 + |items|);
    ArrayReads(m, p, items, addresses, 0);
    assert items[..0] == [];
    NoneCounted();
  }

  lemma NoneCounted()
    ensures TotalLen([]) == 0
  {
  }

  /** The program's own file name is there too. */
  lemma FileNameReads(m: Bytes, argv: seq<Bytes>, envp: seq<Bytes>, exe: Bytes, seed: Bytes, base: nat)
    requires Placed(m, base, Block(argv, envp, exe, seed, base)) && |seed| == RANDOM_LEN
    requires |exe| < MAX_ARG_STRLEN && forall i :: 0 <= i < |exe| ==> exe[i] != 0
    ensures var p := ReadWord(m, base + 4 * (|argv| + |envp| + 20));
      p.Ok? && CStr(m, p.value, MAX_ARG_STRLEN) == Ok(exe)
  {
    hide Blob, Word, CStr, ReadWord, Pointers;
    var block := Block(argv, envp, exe, seed, base);
    var n := |argv| + |envp| + 20;
    var offset := StringsAt(|argv|, |envp|) + |Blob(argv + envp)|;
    LengthIs(argv, envp, exe, seed, base);
    EncodedAt(Header(argv, envp, base), 0);
    HeaderReads(m, argv, envp, exe, seed, base, n);
    assert Header(argv, envp, base)[n] == Address(base, offset) == base + offset;
    PlacedSlice(m, base, block, offset, |exe|);
    PlacedSlice(m, base, block, offset + |exe|, 0);
    assert block[offset..offset + |exe|] == exe;
    StringReads(m, base + offset, exe, MAX_ARG_STRLEN);
  }

  /** The block is as long wherever it is put. */
  lemma LengthIsFixed(argv: seq<Bytes>, envp: seq<Bytes>, exe: Bytes, seed: Bytes, base: nat, elsewhere: nat)
    requires |seed| == RANDOM_LEN
    ensures |Block(argv, envp, exe, seed, base)| == |Block(argv, envp, exe, seed, elsewhere)|
  {
    hide Blob, Header;
    LengthIs(argv, envp, exe, seed, base);
    LengthIs(argv, envp, exe, seed, elsewhere);
  }

  /** Everything the block points at is inside it. */
  lemma BlockIsSelfContained(argv: seq<Bytes>, envp: seq<Bytes>, exe: Bytes, seed: Bytes, base: nat)
    requires |seed| == RANDOM_LEN
    ensures var end := |Block(argv, envp, exe, seed, base)|;
      && RandomAt(|argv|, |envp|) + RANDOM_LEN <= end
      && StringsAt(|argv|, |envp|) + |Blob(argv + envp)| + |exe| < end
      && forall i :: 0 <= i < |argv + envp| ==>
           StringsAt(|argv|, |envp|) + |Blob((argv + envp)[..i])| + |(argv + envp)[i]| < end
  {
    hide Blob, Header;
    LengthIs(argv, envp, exe, seed, base);
    forall i | 0 <= i < |argv + envp|
      ensures StringsAt(|argv|, |envp|) + |Blob((argv + envp)[..i])| + |(argv + envp)[i]|
              < |Block(argv, envp, exe, seed, base)|
    {
      BlobAt(argv + envp, i);
    }
  }
}
