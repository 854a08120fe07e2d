/** A few facts about 64-bit words. The operations are named, and each lemma looks into as few of
    them as it can, so that the solver is asked about bits only in small pieces. */
module Words {
  function And(a: bv64, b: bv64): bv64 {
    a & b
  }

  function Or(a: bv64, b: bv64): bv64 {
    a | b
  }

  function AndNot(a: bv64, b: bv64): bv64 {
    a & !b
  }

  /** Exactly one bit is set. */
  predicate Single(x: bv64) {
    x != 0 && x & (x - 1) == 0
  }

  lemma ShiftSingle(i: bv8)
    requires i < 64
    ensures Single((1 as bv64) << i)
  {
  }

  lemma ShiftsApart(i: bv8, j: bv8)
    requires i < 64 && j < 64 && i != j
    ensures ((1 as bv64) << i) & ((1 as bv64) << j) == 0
  {
  }

  // The two sides of a distributive law, each named as a whole.

  function OrThenAnd(b: bv64, c: bv64, x: bv64): bv64 {
    (b | c) & x
  }

  function AndThenOr(b: bv64, c: bv64, x: bv64): bv64 {
    (b & x) | (c & x)
  }

  function NotThenAnd(b: bv64, d: bv64, x: bv64): bv64 {
    (b & !d) & x
  }

  function AndThenNot(b: bv64, d: bv64, x: bv64): bv64 {
    (b & x) & !(d & x)
  }

  lemma OrLeft(b: bv64, c: bv64, x: bv64)
    ensures And(Or(b, c), x) == OrThenAnd(b, c, x)
  {
  }

  lemma OrAcross(b: bv64, c: bv64, x: bv64)
    ensures OrThenAnd(b, c, x) == AndThenOr(b, c, x)
  {
  }

  lemma OrRight(b: bv64, c: bv64, x: bv64)
    ensures AndThenOr(b, c, x) == Or(And(b, x), And(c, x))
  {
  }

  lemma NotLeft(b: bv64, d: bv64, x: bv64)
    ensures And(AndNot(b, d), x) == NotThenAnd(b, d, x)
  {
  }

  lemma NotAcross(b: bv64, d: bv64, x: bv64)
    ensures NotThenAnd(b, d, x) == AndThenNot(b, d, x)
  {
  }

  lemma NotRight(b: bv64, d: bv64, x: bv64)
    ensures AndThenNot(b, d, x) == AndNot(And(b, x), And(d, x))
  {
  }

  lemma OrIsZero(y: bv64, z: bv64)
    ensures Or(y, z) == 0 <==> y == 0 && z == 0
  {
  }

  lemma OneBitOrNone(b: bv64, x: bv64)
    requires Single(x)
    ensures And(b, x) == 0 || And(b, x) == x
  {
  }

  lemma SingleIsSome(x: bv64)
    requires Single(x)
    ensures x != 0
  {
  }

  lemma NotSelf(x: bv64)
    ensures AndNot(x, x) == 0
  {
  }

  lemma NotNone(x: bv64)
    ensures AndNot(x, 0) == x
  {
  }

  lemma NotOfNone(x: bv64)
    ensures AndNot(0, x) == 0
  {
  }

  /** A bit of a union is a bit of one of the two. */
  lemma OrWord(b: bv64, c: bv64, x: bv64)
    ensures And(Or(b, c), x) != 0 <==> And(b, x) != 0 || And(c, x) != 0
  {
    hide *;
    OrLeft(b, c, x);
    OrAcross(b, c, x);
    OrRight(b, c, x);
    OrIsZero(And(b, x), And(c, x));
  }

  /** A bit left when others are cleared was there and was not cleared. */
  lemma AndNotWord(b: bv64, d: bv64, x: bv64)
    requires Single(x)
    ensures And(AndNot(b, d), x) != 0 <==> And(b, x) != 0 && And(d, x) == 0
  {
    hide *;
    NotLeft(b, d, x);
    NotAcross(b, d, x);
    NotRight(b, d, x);
    OneBitOrNone(b, x);
    OneBitOrNone(d, x);
    SingleIsSome(x);
    NotSelf(x);
    NotNone(And(b, x));
    NotOfNone(x);
  }

  lemma SelfAnd(x: bv64)
    ensures And(x, x) == x && And(0, x) == 0
  {
  }
}
