/** Sums of a weight over a list. */
module Sums {
  ghost function Sum<T>(s: seq<T>, f: T -> nat): nat {
    if |s| == 0 then 0 else Sum(s[..|s| - 1], f) + f(s[|s| - 1])
  }

  /** A list without its `i`-th element. */
  function Dropped<T>(s: seq<T>, i: nat): seq<T>
    requires i < |s|
  {
    s[..i] + s[i + 1..]
  }

  lemma SumPush<T>(s: seq<T>, x: T, f: T -> nat)
    ensures Sum(s + [x], f) == Sum(s, f) + f(x)
  {
    assert (s + [x])[..|s|] == s;
  }

  lemma {:induction false} SumConcat<T>(a: seq<T>, b: seq<T>, f: T -> nat)
    ensures Sum(a + b, f) == Sum(a, f) + Sum(b, f)
  {
    if |b| == 0 {
      assert a + b == a;
    } else {
      var n := |b| - 1;
      SumConcat(a, b[..n], f);
      assert (a + b)[..|a + b| - 1] == a + b[..n];
    }
  }

  lemma SumDropped<T>(s: seq<T>, i: nat, f: T -> nat)
    requires i < |s|
    ensures Sum(Dropped(s, i), f) + f(s[i]) == Sum(s, f)
  {
    hide Sum;
    SumConcat(s[..i], s[i + 1..], f);
    SumPush(s[..i], s[i], f);
    SumConcat(s[..i] + [s[i]], s[i + 1..], f);
    assert s == s[..i] + [s[i]] + s[i + 1..];
  }

  lemma SumPop<T>(s: seq<T>, f: T -> nat)
    requires |s| > 0
    ensures Sum(s, f) == f(s[0]) + Sum(s[1..], f)
  {
    SumDropped(s, 0, f);
    assert Dropped(s, 0) == s[1..];
  }

  lemma SumUpdate<T>(s: seq<T>, i: nat, x: T, f: T -> nat)
    requires i < |s|
    ensures Sum(s[i := x], f) + f(s[i]) == Sum(s, f) + f(x)
  {
    hide Sum;
    SumDropped(s, i, f);
    SumDropped(s[i := x], i, f);
    assert Dropped(s[i := x], i) == Dropped(s, i);
  }

  /** Moving the last element into place keeps the sum. */
  lemma SumMoved<T>(s: seq<T>, at: nat, f: T -> nat)
    requires at < |s|
    ensures var n := |s| - 1; Sum(s[..at] + [s[n]] + s[at..n], f) == Sum(s, f)
  {
    hide Sum;
    var n := |s| - 1;
    var moved := s[..at] + [s[n]] + s[at..n];
    SumDropped(moved, at, f);
    assert moved[at] == s[n];
    assert Dropped(moved, at) == s[..n];
    SumDropped(s, n, f);
    assert Dropped(s, n) == s[..n];
  }

  lemma SumMember<T>(s: seq<T>, i: nat, f: T -> nat)
    requires i < |s|
    ensures f(s[i]) <= Sum(s, f)
  {
    SumDropped(s, i, f);
  }

  lemma {:induction false} SumOnes<T>(s: seq<T>, one: T -> nat)
    requires forall x :: one(x) == 1
    ensures Sum(s, one) == |s|
  {
    if |s| > 0 {
      SumOnes(s[..|s| - 1], one);
    }
  }
}
