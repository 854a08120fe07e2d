/** `setjmp` and `longjmp` by copying the saved stack out of and back into the guest's memory. */
module Jumps {
  import opened Base
  import opened GuestMemory

  const AREA: nat := 1048576

  /** A saved stack and the stack pointer that went with it. */
  datatype Saved = Saved(bytes: Bytes, sp: nat)

  /** One instance: its memory, where its stack-saving area starts, the stacks saved by `jmp_buf`
      address, and what the import being resumed will find. */
  datatype Instance = Instance(mem: Bytes, data: nat, saved: map<nat, Saved>, resumeValue: int, resumeSp: nat,
    rewinding: bool)

  /** What can happen to it. Unwinding writes frames into the area and leaves the header's first
      word pointing past them; running changes memory at will and never shrinks it. */
  datatype Event =
    | Runs(mem: Bytes)
    | Setjmp(env: nat, sp: nat, frames: Bytes)
    | Longjmp(env: nat, value: int, frames: Bytes)
    | Blocks(sp: nat, frames: Bytes, value: int)

  // ----- the area ------------------------------------------------------------------------

  /** The two words at the start of the area: where the frames end, and where they must. */
  function Header(data: nat, used: nat): Bytes
    requires data + 8 + used < WORD && data + AREA < WORD
  {
    Word(data + 8 + used) + Word(data + AREA)
  }

  function Overlaid(m: Bytes, at: nat, bytes: Bytes): (r: Bytes)
    requires at + |bytes| <= |m|
    ensures |r| == |m| && r[at..at + |bytes|] == bytes
    ensures forall i :: 0 <= i < |m| && !(at <= i < at + |bytes|) ==> r[i] == m[i]
  {
    m[..at] + bytes + m[at + |bytes|..]
  }

  /** The stack that would be copied out: from the header up to where the first word points. */
  function ReadArea(m: Bytes, data: nat): Bytes {
    if data + 8 > |m| then []
    else
      var end := Value(m[data..data + 4]);
      if end <= data || end > |m| then [] else m[data..end]
  }

  function WriteArea(m: Bytes, data: nat, bytes: Bytes): Option<Bytes> {
    if data + |bytes| <= |m| then Some(Overlaid(m, data, bytes)) else None
  }

  // ----- one step ------------------------------------------------------------------------

  /** The area is inside the memory, and the memory inside a 32-bit address space. */
  ghost predicate RoomForArea(g: Instance) {
    g.data + AREA <= |g.mem| < WORD
  }

  predicate FramesFit(frames: Bytes) {
    8 + |frames| <= AREA
  }

  /** The kernel writes the header, then the guest saves its frames behind it. */
  function Unwound(g: Instance, frames: Bytes): Instance
    requires g.data + AREA <= |g.mem| < WORD && FramesFit(frames)
  {
    g.(mem := Overlaid(g.mem, g.data, Header(g.data, |frames|) + frames))
  }

  predicate Possible(g: Instance, e: Event) {
    && g.data + AREA <= |g.mem| < WORD
    && match e
       case Runs(mem) => |g.mem| <= |mem| < WORD
       case Setjmp(_, _, frames) => FramesFit(frames)
       case Longjmp(_, _, frames) => FramesFit(frames)
       case Blocks(_, frames, _) => FramesFit(frames)
  }

  /** What the scheduler makes of it once the guest has unwound; `None` is the guest's death. */
  function Next(g: Instance, e: Event): Option<Instance>
    requires Possible(g, e)
  {
    match e
    case Runs(mem) => Some(g.(mem := mem, rewinding := false))
    case Setjmp(env, sp, frames) =>
      var u := Unwound(g, frames);
      Some(u.(saved := u.saved[env := Saved(ReadArea(u.mem, u.data), sp)], resumeValue := 0, resumeSp := sp,
        rewinding := true))
    case Longjmp(env, value, frames) =>
      var u := Unwound(g, frames);
      if env !in u.saved then None
      else
        (match WriteArea(u.mem, u.data, u.saved[env].bytes)
         case None => None
         case Some(mem) => Some(u.(mem := mem, resumeValue := value, resumeSp := u.saved[env].sp, rewinding := true)))
    case Blocks(sp, frames, value) =>
      Some(Unwound(g, frames).(resumeValue := value, resumeSp := sp, rewinding := true))
  }

  /** The rewind lands: the value the import returns and the stack pointer it leaves. */
  function Landed(g: Instance, sp: nat): (int, nat) {
    (g.resumeValue, if g.resumeSp != 0 then g.resumeSp else sp)
  }

  function Lives(g: Instance, events: seq<Event>): Option<Instance> {
    if |events| == 0 then Some(g)
    else match Lives(g, events[..|events| - 1])
      case None => None
      case Some(before) =>
        if Possible(before, events[|events| - 1]) then Next(before, events[|events| - 1]) else None
  }

  /** The frames and stack pointer of the latest `setjmp` on `env`. */
  function Latest(events: seq<Event>, env: nat): Option<(Bytes, nat)> {
    if |events| == 0 then None
    else match events[|events| - 1]
      case Setjmp(e, sp, frames) => if e == env then Some((frames, sp)) else Latest(events[..|events| - 1], env)
      case _ => Latest(events[..|events| - 1], env)
  }

  // ----- what is saved -------------------------------------------------------------------

  lemma ReadsWhatWasUnwound(g: Instance, frames: Bytes)
    requires RoomForArea(g) && FramesFit(frames)
    ensures ReadArea(Unwound(g, frames).mem, g.data) == Header(g.data, |frames|) + frames
  {
    hide Word, Value;
    var bytes := Header(g.data, |frames|) + frames;
    var m := Unwound(g, frames).mem;
    assert m[g.data..g.data + |bytes|] == bytes;
    assert m[g.data..g.data + 4] == m[g.data..g.data + |bytes|][..4] == bytes[..4] == Word(g.data + 8 + |frames|);
    WordRoundTrip(g.data + 8 + |frames|);
  }

  /** Each `jmp_buf` holds the whole area, header included, as the latest `setjmp` on it left it. */
  ghost predicate Keeps(g: Instance, data: nat, events: seq<Event>) {
    && RoomForArea(g) && g.data == data
    && forall env: nat ::
         match Latest(events, env)
         case None => env !in g.saved
         case Some((frames, sp)) =>
           env in g.saved && FramesFit(frames) && g.saved[env] == Saved(Header(data, |frames|) + frames, sp)
  }

  lemma UnwoundSame(g: Instance, frames: Bytes)
    requires RoomForArea(g) && FramesFit(frames)
    ensures var u := Unwound(g, frames); u == g.(mem := u.mem) && |u.mem| == |g.mem|
  {
  }

  lemma WrittenSame(m: Bytes, data: nat, bytes: Bytes)
    ensures var w := WriteArea(m, data, bytes); w.Some? ==> |w.value| == |m|
  {
  }

  lemma StepKeeps(before: Instance, e: Event, data: nat, earlier: seq<Event>)
    requires Keeps(before, data, earlier) && Possible(before, e) && Next(before, e).Some?
    ensures Keeps(Next(before, e).value, data, earlier + [e])
  {
    hide ReadArea, WriteArea, Header, Unwound;
    forall other: nat ensures Latest(earlier + [e], other) ==
      if e.Setjmp? && e.env == other then Some((e.frames, e.sp)) else Latest(earlier, other)
    {
      assert (earlier + [e])[..|earlier|] == earlier;
    }
    match e
    case Runs(mem) =>
    case Setjmp(env, sp, frames) =>
      UnwoundSame(before, frames);
      ReadsWhatWasUnwound(before, frames);
      var after := Next(before, e).value;
      var bytes := Header(data, |frames|) + frames;
      assert after.saved == before.saved[env := Saved(bytes, sp)];
    case Longjmp(env, value, frames) =>
      UnwoundSame(before, frames);
      var u := Unwound(before, frames);
      WrittenSame(u.mem, u.data, u.saved[env].bytes);
    case Blocks(sp, frames, value) => UnwoundSame(before, frames);
  }

  lemma {:induction false} RunKeeps(g: Instance, events: seq<Event>)
    requires RoomForArea(g) && g.saved == map[] && Lives(g, events).Some?
    ensures Keeps(Lives(g, events).value, g.data, events)
  {
    hide Next, Keeps, Possible;
    if |events| == 0 {
      NoneSaved(g);
    } else {
      var n := |events| - 1;
      RunKeeps(g, events[..n]);
      StepKeeps(Lives(g, events[..n]).value, events[n], g.data, events[..n]);
      assert events[..n] + [events[n]] == events;
    }
  }

  lemma NoneSaved(g: Instance)
    requires RoomForArea(g) && g.saved == map[]
    ensures Keeps(g, g.data, [])
  {
  }

  /** After any run in one instance, `longjmp` ends the guest exactly if its `jmp_buf` was never
      set; otherwise it finds room, the area is byte for byte what the latest `setjmp` on that
      address left, the rewind lands in that call, which returns the value given with the stack
      pointer it was made at. */
  lemma LongjmpReturns(g: Instance, events: seq<Event>, env: nat, value: int, frames: Bytes, sp: nat)
    requires RoomForArea(g) && g.saved == map[] && Lives(g, events).Some? && FramesFit(frames)
    ensures
      var now := Lives(g, events).value;
      var jump := Longjmp(env, value, frames);
      Possible(now, jump) &&
      match Latest(events, env)
      case None => Next(now, jump).None?
      case Some((saved, savedSp)) =>
        var after := Next(now, jump);
        && after.Some? && after.value.rewinding
        && FramesFit(saved) && ReadArea(after.value.mem, g.data) == Header(g.data, |saved|) + saved
        && Landed(after.value, sp) == (value, if savedSp != 0 then savedSp else sp)
        && after.value.saved == now.saved
  {
    hide Header, ReadArea;
    RunKeeps(g, events);
    var now := Lives(g, events).value;
    if Latest(events, env).Some? {
      var (saved, savedSp) := Latest(events, env).value;
      var u := Unwound(now, frames);
      HeaderLen(g.data, |saved|);
      RestoredReads(u.mem, now, saved);
    }
  }

  lemma HeaderLen(data: nat, used: nat)
    requires data + 8 + used < WORD && data + AREA < WORD
    ensures |Header(data, used)| == 8
  {
  }

  /** An area written back reads as it was saved. */
  lemma RestoredReads(m: Bytes, g: Instance, frames: Bytes)
    requires RoomForArea(g) && FramesFit(frames) && |m| == |g.mem|
    ensures var w := WriteArea(m, g.data, Header(g.data, |frames|) + frames);
      w.Some? && ReadArea(w.value, g.data) == Header(g.data, |frames|) + frames
  {
    ReadsWhatWasUnwound(g.(mem := m), frames);
  }

  /** The first return of `setjmp` itself is zero, from the stack it was called on. */
  lemma SetjmpReturnsZero(g: Instance, env: nat, sp: nat, frames: Bytes, other: nat)
    requires RoomForArea(g) && FramesFit(frames) && sp != 0
    ensures var after := Next(g, Setjmp(env, sp, frames)).value;
      Landed(after, other) == (0, sp) && ReadArea(after.mem, g.data) == after.saved[env].bytes
  {
  }
}
