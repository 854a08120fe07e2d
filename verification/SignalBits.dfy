/** Signal sets as the kernel keeps them, in the bits of a word, against the sets they stand for. */
module SignalBits {
  import opened Base
  import opened Kernel
  import opened Syscalls
  import opened Signals
  import opened Words

  /** The bit of one signal; no bit for what is not a signal. */
  function Bit(sig: int): bv64 {
    if 0 < sig < NSIG then (1 as bv64) << (sig as bv8) else 0
  }

  predicate Has(word: bv64, sig: int) {
    And(word, Bit(sig)) != 0
  }

  /** The signals whose bits are set. */
  ghost function SetOf(word: bv64): set<int> {
    set s | 0 < s < NSIG && Has(word, s)
  }

  // ----- bits ----------------------------------------------------------------------------

  lemma SmallExact(i: int)
    requires 0 <= i < 64
    ensures (i as bv8) < 64 && (i as bv8) as int == i
  {
  }

  lemma BitIsSingle(i: int)
    requires 0 < i < NSIG
    ensures Single(Bit(i))
  {
    SmallExact(i);
    ShiftSingle(i as bv8);
  }

  lemma BitsApart(i: int, j: int)
    requires 0 < i < NSIG && 0 < j < NSIG && i != j
    ensures And(Bit(i), Bit(j)) == 0
  {
    SmallExact(i);
    SmallExact(j);
    ShiftsApart(i as bv8, j as bv8);
  }

  /** A word with one more bit set, with some bits cleared, and with none. */
  function With(word: bv64, sig: int): bv64 {
    Or(word, Bit(sig))
  }

  function Without(word: bv64, drop: bv64): bv64 {
    AndNot(word, drop)
  }

  predicate IsZero(word: bv64) {
    word == 0
  }

  lemma HasBit(sig: int, s: int)
    requires 0 < s < NSIG
    ensures Has(Bit(sig), s) <==> s == sig
  {
    SelfAnd(Bit(s));
    if 0 < sig < NSIG {
      if s == sig {
        BitIsSingle(s);
      } else {
        BitsApart(sig, s);
      }
    }
  }

  lemma HasWith(word: bv64, sig: int, s: int)
    requires 0 < s < NSIG
    ensures Has(With(word, sig), s) <==> Has(word, s) || s == sig
  {
    hide Bit, And, Or;
    HasBit(sig, s);
    OrWord(word, Bit(sig), Bit(s));
  }

  lemma HasWithout(word: bv64, drop: bv64, s: int)
    requires 0 < s < NSIG
    ensures Has(Without(word, drop), s) <==> Has(word, s) && !Has(drop, s)
  {
    hide Bit, And, AndNot, Single;
    BitIsSingle(s);
    AndNotWord(word, drop, Bit(s));
  }

  lemma HasZero(word: bv64, s: int)
    requires IsZero(word)
    ensures !Has(word, s)
  {
    SelfAnd(Bit(s));
  }

  // ----- sets ----------------------------------------------------------------------------

  /** Setting one bit adds one signal. */
  lemma Raises(word: bv64, sig: int)
    ensures SetOf(With(word, sig)) == SetOf(word) + (if 0 < sig < NSIG then {sig} else {})
  {
    hide Bit, Has, With;
    forall s | 0 < s < NSIG ensures Has(With(word, sig), s) <==> Has(word, s) || s == sig {
      HasWith(word, sig, s);
    }
  }

  /** Clearing bits takes exactly their signals away. */
  lemma Clears(word: bv64, drop: bv64)
    ensures SetOf(Without(word, drop)) == SetOf(word) - SetOf(drop)
  {
    hide Bit, Has, Without;
    forall s | 0 < s < NSIG ensures Has(Without(word, drop), s) <==> Has(word, s) && !Has(drop, s) {
      HasWithout(word, drop, s);
    }
  }

  lemma ZeroIsEmpty(word: bv64)
    requires IsZero(word)
    ensures SetOf(word) == {}
  {
    hide Bit, Has, IsZero;
    forall s | 0 < s < NSIG ensures !Has(word, s) {
      HasZero(word, s);
    }
  }

  lemma ZeroWord()
    ensures IsZero(0) && SetOf(0) == {}
  {
    ZeroIsEmpty(0);
  }

  lemma OneSignal(sig: int)
    ensures SetOf(Bit(sig)) == if 0 < sig < NSIG then {sig} else {}
  {
    hide Bit, Has;
    forall s | 0 < s < NSIG ensures Has(Bit(sig), s) <==> s == sig {
      HasBit(sig, s);
    }
  }

  // ----- triage --------------------------------------------------------------------------

  /** The deliverable and the ignored among the pending signals below `n`. */
  ghost predicate Sorted(pending: bv64, mask: set<int>, t: Task, live: bv64, discard: bv64, n: int) {
    && SetOf(live) == (set s | s in Deliverable(SetOf(pending), mask, t) && s < n)
    && SetOf(discard) == (set s | s in Discardable(SetOf(pending), t) && s < n)
  }

  /** Sort the pending signals into what would do something now, what is ignored, and, in neither,
      what is blocked. */
  method Triage(pending: bv64, mask: bv64, t: Task) returns (live: bv64, discard: bv64)
    ensures SetOf(live) == Deliverable(SetOf(pending), SetOf(mask), t)
    ensures SetOf(discard) == Discardable(SetOf(pending), t)
    ensures !IsZero(live) ==> SetOf(live) != {}
    ensures SetOf(live) !! SetOf(discard) && SetOf(live) + SetOf(discard) <= SetOf(pending)
  {
    hide Bit, Has, With, IsZero, Ignored, And, Or;
    live, discard := 0, 0;
    ZeroWord();
    if IsZero(pending) {
      ZeroIsEmpty(pending);
      return;
    }
    var sig := 1;
    while sig < NSIG
      invariant 1 <= sig <= NSIG
      invariant Sorted(pending, SetOf(mask), t, live, discard, sig)
      invariant !IsZero(live) ==> SetOf(live) != {}
    {
      if Has(pending, sig) {
        if Ignored(t, sig) {
          Raises(discard, sig);
          discard := With(discard, sig);
        } else if !Has(mask, sig) || sig == SIGKILL || sig == SIGSTOP {
          Raises(live, sig);
          live := With(live, sig);
        }
      }
      sig := sig + 1;
    }
  }

  /** The lowest signal whose bit is set. */
  method TrailingZeros(live: bv64) returns (sig: int)
    requires SetOf(live) != {}
    ensures sig in SetOf(live) && forall s :: s in SetOf(live) ==> sig <= s
  {
    hide Bit, Has;
    ghost var some :| some in SetOf(live);
    sig := 1;
    while !Has(live, sig)
      invariant 1 <= sig <= some && forall s :: s in SetOf(live) ==> sig <= s
      decreases NSIG - sig
    {
      sig := sig + 1;
    }
  }

  // ----- taking one ----------------------------------------------------------------------

  /** A deliverable signal is never an ignored one, so taking one always ends in a handler or a
      death and never goes round again. */
  lemma DeliverableActs(pending: set<int>, mask: set<int>, t: Task, s: int)
    requires s in Deliverable(pending, mask, t)
    ensures Action(t, s).handler != SIG_IGN && (Action(t, s).handler == SIG_DFL ==> !DefaultIgnored(s))
  {
  }

  /** Take the next deliverable signal out of the pending word. */
  method Take(pending: bv64, mask: bv64, t: Task) returns (d: Delivery, left: bv64, after: Task)
    requires t.sigmask == SetOf(mask)
    ensures (d, SetOf(left), after) == NextSignal(SetOf(pending), t)
  {
    hide Bit, Has, With, Without, Deliverable, Discardable, IsZero;
    var live, discard := Triage(pending, mask, t);
    Clears(pending, discard);
    left := Without(pending, discard);
    after := t;
    if IsZero(live) {
      ZeroIsEmpty(live);
      return NoSignal, left, t;
    }
    var signal := TrailingZeros(live);
    LowestLive(SetOf(pending), t);
    Clears(left, Bit(signal));
    OneSignal(signal);
    left := Without(left, Bit(signal));
    var action := Action(t, signal);
    if action.handler == SIG_DFL {
      return Fatal(StatusSignaled(signal)), left, t;
    }
    if action.resetHand && signal < |t.sigact| {
      after := t.(sigact := t.sigact[signal := DEFAULT_ACTION]);
    }
    d := Handler(signal, action);
  }

  /** What taking a signal does: ignored ones go, the lowest deliverable one goes and is what is
      delivered, and every blocked one stays pending; when there is none to deliver, none is left. A
      handler that asked for it is reset. */
  lemma NextSignalTakes(pending: set<int>, t: Task)
    ensures var (d, left, after) := NextSignal(pending, t);
      var live := Deliverable(pending, t.sigmask, t);
      && left <= pending && left !! Discardable(pending, t)
      && (forall s :: s in pending && s !in live && s !in Discardable(pending, t) ==> s in left)
      && (d.NoSignal? <==> live == {})
      && (d.NoSignal? ==> Deliverable(left, t.sigmask, t) == {} && after == t)
      && (!d.NoSignal? ==>
            exists s :: s in live && s !in left && (forall x :: x in live ==> s <= x)
              && live - {s} == Deliverable(left, t.sigmask, t)
              && d == (if Action(t, s).handler == SIG_DFL then Fatal(StatusSignaled(s)) else Handler(s, Action(t, s)))
              && after == t.(sigact := after.sigact) && |after.sigact| == |t.sigact|
              && forall x :: Action(after, x) ==
                   if x == s && d.Handler? && Action(t, s).resetHand then DEFAULT_ACTION else Action(t, x))
  {
    if Deliverable(pending, t.sigmask, t) != {} {
      LowestLive(pending, t);
    }
  }
}
