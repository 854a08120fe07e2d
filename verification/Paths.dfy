/** Lexical paths: folding one into clean components, joining components back, and finding the
    mount that owns a path. A `char` stands for one byte of a path. */
module Paths {
  import opened Base

  type Parts = seq<string>

  // ----- splitting and folding -----------------------------------------------------------

  /** The pieces between slashes, empty ones included. */
  function Split(s: string): (r: seq<string>)
    ensures |r| > 0
  {
    if |s| == 0 then [""]
    else
      var rest := Split(s[1..]);
      if s[0] == '/' then [""] + rest else [[s[0]] + rest[0]] + rest[1..]
  }

  /** One component onto the stack: nothing for an empty one or a dot, a pop for two dots. */
  function Step(parts: Parts, c: string): Parts {
    if c == "" || c == "." then parts
    else if c == ".." then (if |parts| == 0 then parts else parts[..|parts| - 1])
    else parts + [c]
  }

  function Fold(parts: Parts, components: seq<string>): Parts {
    if |components| == 0 then parts
    else Step(Fold(parts, components[..|components| - 1]), components[|components| - 1])
  }

  predicate Absolute(path: string) {
    |path| > 0 && path[0] == '/'
  }

  function Normalized(base: string, path: string): Parts {
    Fold(if Absolute(path) then [] else Fold([], Split(base)), Split(path))
  }

  /** Every component with a slash before it; nothing for no component. */
  function JoinAll(parts: Parts): string {
    if |parts| == 0 then "" else JoinAll(parts[..|parts| - 1]) + "/" + parts[|parts| - 1]
  }

  function Join(parts: Parts): string {
    if |parts| == 0 then "/" else JoinAll(parts)
  }

  predicate CleanPart(c: string) {
    c != "" && c != "." && c != ".." && '/' !in c
  }

  predicate Clean(parts: Parts) {
    forall i :: 0 <= i < |parts| ==> CleanPart(parts[i])
  }

  // ----- as the loops compute them -------------------------------------------------------

  /** Push and pop along one path. */
  method Along(start: Parts, components: seq<string>) returns (parts: Parts)
    ensures parts == Fold(start, components)
  {
    parts := start;
    var i := 0;
    while i < |components|
      invariant i <= |components| && parts == Fold(start, components[..i])
    {
      assert components[..i + 1][..i] == components[..i];
      var c := components[i];
      if c != "" && c != "." {
        if c == ".." {
          if |parts| > 0 { parts := parts[..|parts| - 1]; }
        } else {
          parts := parts + [c];
        }
      }
      i := i + 1;
    }
    assert components[..i] == components;
  }

  method Normalize(base: string, path: string) returns (parts: Parts)
    ensures parts == Normalized(base, path) && Clean(parts)
  {
    parts := [];
    if !Absolute(path) {
      parts := Along([], Split(base));
    }
    parts := Along(parts, Split(path));
    NormalizedIsClean(base, path);
  }

  method JoinParts(parts: Parts) returns (path: string)
    ensures path == Join(parts)
  {
    if |parts| == 0 {
      return "/";
    }
    path := "";
    var i := 0;
    while i < |parts|
      invariant i <= |parts| && path == JoinAll(parts[..i])
    {
      assert parts[..i + 1][..i] == parts[..i];
      path := path + "/" + parts[i];
      i := i + 1;
    }
    assert parts[..i] == parts;
  }

  // ----- what folding guarantees ---------------------------------------------------------

  lemma {:induction false} SplitHasNoSlash(s: string)
    ensures forall i :: 0 <= i < |Split(s)| ==> '/' !in Split(s)[i]
  {
    if |s| > 0 {
      SplitHasNoSlash(s[1..]);
    }
  }

  lemma {:induction false} FoldClean(parts: Parts, components: seq<string>)
    requires Clean(parts) && forall i :: 0 <= i < |components| ==> '/' !in components[i]
    ensures Clean(Fold(parts, components))
  {
    if |components| > 0 {
      FoldClean(parts, components[..|components| - 1]);
    }
  }

  /** Whatever was typed, no component is empty, a dot, two dots, or holds a slash. */
  lemma NormalizedIsClean(base: string, path: string)
    ensures Clean(Normalized(base, path))
  {
    SplitHasNoSlash(base);
    SplitHasNoSlash(path);
    FoldClean([], Split(base));
    FoldClean(if Absolute(path) then [] else Fold([], Split(base)), Split(path));
  }

  lemma {:induction false} FoldConcat(parts: Parts, a: seq<string>, b: seq<string>)
    ensures Fold(parts, a + b) == Fold(Fold(parts, a), b)
  {
    if |b| == 0 {
      assert a + b == a;
    } else {
      var n := |b| - 1;
      FoldConcat(parts, a, b[..n]);
      assert (a + b)[..|a + b| - 1] == a + b[..n];
    }
  }

  /** `normalize` is one fold over the base's components and then the path's. */
  lemma NormalizedIsOneFold(base: string, path: string)
    ensures Normalized(base, path) == Fold([], (if Absolute(path) then [] else Split(base)) + Split(path))
  {
    FoldConcat([], if Absolute(path) then [] else Split(base), Split(path));
  }

  lemma {:induction false} FoldPushes(parts: Parts, more: Parts)
    requires Clean(more)
    ensures Fold(parts, more) == parts + more
  {
    if |more| > 0 {
      FoldPushes(parts, more[..|more| - 1]);
      assert more == more[..|more| - 1] + [more[|more| - 1]];
    }
  }

  lemma SplitOnce(s: string)
    ensures Split("") == [""]
    ensures |s| > 0 ==>
      var rest := Split(s[1..]); Split(s) == if s[0] == '/' then [""] + rest else [[s[0]] + rest[0]] + rest[1..]
  {
  }

  lemma {:induction false} SplitConcat(a: string, b: string)
    ensures Split(a + "/" + b) == Split(a) + Split(b)
  {
    hide Split;
    var all := a + "/" + b;
    SplitOnce(all);
    SplitOnce(a);
    if |a| == 0 {
      assert all[1..] == b;
    } else {
      SplitConcat(a[1..], b);
      assert all[1..] == a[1..] + "/" + b && all[0] == a[0];
      var first, rest := Split(a[1..]), Split(b);
      assert (first + rest)[1..] == first[1..] + rest && (first + rest)[0] == first[0];
    }
  }

  lemma {:induction false} SplitPart(c: string)
    requires '/' !in c
    ensures Split(c) == [c]
  {
    if |c| > 0 {
      assert forall x :: x in c[1..] ==> x in c;
      SplitPart(c[1..]);
      assert c == [c[0]] + c[1..];
    }
  }

  lemma {:induction false} SplitJoinAll(parts: Parts)
    requires Clean(parts)
    ensures Split(JoinAll(parts)) == [""] + parts
  {
    if |parts| > 0 {
      var n := |parts| - 1;
      SplitJoinAll(parts[..n]);
      SplitConcat(JoinAll(parts[..n]), parts[n]);
      SplitPart(parts[n]);
      assert [""] + parts == [""] + parts[..n] + [parts[n]];
    }
  }

  /** Joining clean components and folding the path again gives the components back. */
  lemma JoinRoundTrip(parts: Parts)
    requires Clean(parts)
    ensures Normalized("/", Join(parts)) == parts && Fold([], Split(Join(parts))) == parts
  {
    JoinIsAbsolute(parts);
    if |parts| == 0 {
      assert Split("/") == ["", ""] by { assert "/"[1..] == ""; }
      assert ["", ""][..1] == [""];
    } else {
      SplitJoinAll(parts);
      FoldConcat([], [""], parts);
      assert Fold([], [""]) == [];
      FoldPushes([], parts);
    }
  }

  lemma {:induction false} JoinIsAbsolute(parts: Parts)
    ensures Absolute(Join(parts)) && (|parts| > 0 ==> |JoinAll(parts)| > 0)
  {
    if |parts| > 1 {
      var shorter := JoinAll(parts[..|parts| - 1]);
      JoinIsAbsolute(parts[..|parts| - 1]);
      assert Join(parts[..|parts| - 1]) == shorter;
      assert JoinAll(parts)[0] == shorter[0];
    } else if |parts| == 1 {
      assert JoinAll(parts) == "/" + parts[0];
    }
  }

  /** Normalizing in two stages, a directory and then a path in it, is normalizing both at once. */
  lemma TwoStages(base: string, dir: string, path: string)
    requires !Absolute(path) && |dir| > 0
    ensures Normalized(Join(Normalized(base, dir)), path) == Normalized(base, dir + "/" + path)
  {
    NormalizedIsClean(base, dir);
    JoinRoundTrip(Normalized(base, dir));
    SplitConcat(dir, path);
    FoldConcat(if Absolute(dir) then [] else Fold([], Split(base)), Split(dir), Split(path));
    assert Absolute(dir + "/" + path) == Absolute(dir);
  }

  /** Components typed after anything are split off as they are. */
  lemma {:induction false} SplitTail(t: string, rest: Parts)
    requires forall i :: 0 <= i < |rest| ==> '/' !in rest[i]
    ensures Split(t + JoinAll(rest)) == Split(t) + rest
  {
    hide Split;
    if |rest| == 0 {
      assert t + JoinAll(rest) == t;
    } else {
      var n := |rest| - 1;
      SplitTail(t, rest[..n]);
      SplitConcat(t + JoinAll(rest[..n]), rest[n]);
      SplitPart(rest[n]);
      assert t + JoinAll(rest) == t + JoinAll(rest[..n]) + "/" + rest[n];
      assert rest == rest[..n] + [rest[n]];
    }
  }

  /** What a path means, component by component: after the clean components `p`, two dots go up one,
      and stay at the root if there is nothing to go up from; a dot or nothing stays; anything else
      goes down; and the clean rest follows. */
  lemma DotsGoUp(p: Parts, c: string, rest: Parts)
    requires Clean(p) && Clean(rest) && '/' !in c
    ensures
      var there :=
        if c == ".." then (if p == [] then [] else p[..|p| - 1])
        else if c == "." || c == "" then p
        else p + [c];
      && Normalized("/", Join(p) + "/" + c + JoinAll(rest)) == there + rest
      && (c != "" ==> Normalized(Join(p), c + JoinAll(rest)) == there + rest)
  {
    hide Split, JoinAll, Join;
    var all := Join(p) + "/" + c + JoinAll(rest);
    JoinIsAbsolute(p);
    JoinRoundTrip(p);
    SplitTail(Join(p) + "/" + c, rest);
    SplitTail(c, rest);
    SplitConcat(Join(p), c);
    SplitPart(c);
    FoldConcat([], Split(Join(p)) + [c], rest);
    FoldConcat([], Split(Join(p)), [c]);
    FoldConcat(p, [c], rest);
    assert Fold(p, [c]) == Step(p, c) by { assert [c][..0] == []; }
    FoldPushes(Step(p, c), rest);
    if c != "" {
      assert (c + JoinAll(rest))[0] == c[0];
    }
  }

  /** A path given relative to a directory goes on from it; one that begins at the root does not. */
  lemma TailGoesOn(base: string, path: string, rest: Parts)
    requires Clean(rest) && path != ""
    ensures Normalized(base, path + JoinAll(rest)) == Normalized(base, path) + rest
  {
    hide Split, JoinAll;
    SplitTail(path, rest);
    FoldConcat(if Absolute(path) then [] else Fold([], Split(base)), Split(path), rest);
    FoldPushes(Normalized(base, path), rest);
    assert (path + JoinAll(rest))[0] == path[0];
  }

  // ----- joining and prefixes ------------------------------------------------------------

  lemma {:induction false} JoinConcat(a: Parts, b: Parts)
    ensures JoinAll(a + b) == JoinAll(a) + JoinAll(b)
  {
    if |b| == 0 {
      assert a + b == a;
    } else {
      var n := |b| - 1;
      JoinConcat(a, b[..n]);
      assert (a + b)[..|a + b| - 1] == a + b[..n];
    }
  }

  /** A joined path begins with another at a component boundary exactly when the components do. */
  lemma PrefixByParts(at: Parts, parts: Parts)
    requires Clean(at) && Clean(parts)
    ensures at <= parts <==> JoinAll(at) <= JoinAll(parts) && Boundary(JoinAll(parts)[|JoinAll(at)|..])
    ensures at <= parts ==> JoinAll(parts)[|JoinAll(at)|..] == JoinAll(parts[|at|..])
  {
    hide JoinAll, Clean;
    if at <= parts {
      PrefixForward(at, parts);
    }
    if JoinAll(at) <= JoinAll(parts) && Boundary(JoinAll(parts)[|JoinAll(at)|..]) {
      PrefixBackward(at, parts);
    }
  }

  predicate Boundary(rest: string) {
    rest == "" || rest[0] == '/'
  }

  lemma PrefixForward(at: Parts, parts: Parts)
    requires at <= parts
    ensures JoinAll(at) <= JoinAll(parts) && JoinAll(parts)[|JoinAll(at)|..] == JoinAll(parts[|at|..])
    ensures Boundary(JoinAll(parts[|at|..]))
  {
    var rest := parts[|at|..];
    JoinConcat(at, rest);
    assert parts == at + rest;
    JoinIsAbsolute(rest);
  }

  lemma PrefixBackward(at: Parts, parts: Parts)
    requires Clean(at) && Clean(parts)
    requires JoinAll(at) <= JoinAll(parts) && Boundary(JoinAll(parts)[|JoinAll(at)|..])
    ensures at <= parts
  {
    hide JoinAll, Split, Clean;
    var a, p := JoinAll(at), JoinAll(parts);
    var rest := p[|a|..];
    SplitJoinAll(at);
    SplitJoinAll(parts);
    assert ([""] + parts)[1..] == parts;
    if rest == "" {
      assert a == p;
      assert ([""] + at)[1..] == at;
    } else {
      assert p == a + "/" + rest[1..];
      SplitConcat(a, rest[1..]);
      assert ([""] + at + Split(rest[1..]))[1..] == at + Split(rest[1..]);
    }
  }

  // ----- mounts --------------------------------------------------------------------------

  datatype Mount = Mount(at: string, readOnly: bool, hasSymlinks: bool)

  /** The components of a mount point. */
  function At(m: Mount): Parts {
    Normalized("/", m.at)
  }

  /** `/`, or a normalized path. */
  predicate MountOk(m: Mount) {
    Join(At(m)) == m.at
  }

  predicate MountsOk(list: seq<Mount>) {
    forall i :: 0 <= i < |list| ==> MountOk(list[i])
  }

  predicate LongestFirst(list: seq<Mount>) {
    forall i, j :: 0 <= i < j < |list| ==> |list[i].at| >= |list[j].at|
  }

  /** Put one mount before the first that is shorter. */
  function Ranked(list: seq<Mount>, m: Mount): seq<Mount> {
    if |list| == 0 then [m]
    else if |list[0].at| < |m.at| then [m] + list
    else [list[0]] + Ranked(list[1..], m)
  }

  /** The mount table: longest mount point first, equal ones in the order given. */
  function Sorted(list: seq<Mount>): seq<Mount> {
    if |list| == 0 then [] else Ranked(Sorted(list[..|list| - 1]), list[|list| - 1])
  }

  lemma {:induction false} RankedSame(list: seq<Mount>, m: Mount)
    ensures multiset(Ranked(list, m)) == multiset(list) + multiset{m}
  {
    if |list| > 0 {
      RankedSame(list[1..], m);
      assert list == [list[0]] + list[1..];
    }
  }

  lemma {:induction false} RankedKeeps(list: seq<Mount>, m: Mount)
    requires LongestFirst(list)
    ensures LongestFirst(Ranked(list, m)) && multiset(Ranked(list, m)) == multiset(list) + multiset{m}
    ensures |Ranked(list, m)| > 0 && |Ranked(list, m)[0].at| <= Max(|m.at|, if |list| > 0 then |list[0].at| else 0)
  {
    RankedSame(list, m);
    if |list| > 0 && |list[0].at| >= |m.at| {
      RankedKeeps(list[1..], m);
      hide Ranked;
      var rest := Ranked(list[1..], m);
      assert Ranked(list, m) == [list[0]] + rest by { RankedOnce(list, m); }
      assert |rest[0].at| <= |list[0].at|;
    }
  }

  lemma RankedOnce(list: seq<Mount>, m: Mount)
    requires |list| > 0 && |list[0].at| >= |m.at|
    ensures Ranked(list, m) == [list[0]] + Ranked(list[1..], m)
  {
  }

  /** Sorting keeps every mount, once each. */
  lemma {:induction false} SortedKeeps(list: seq<Mount>)
    ensures LongestFirst(Sorted(list)) && multiset(Sorted(list)) == multiset(list)
  {
    if |list| > 0 {
      var n := |list| - 1;
      SortedKeeps(list[..n]);
      RankedKeeps(Sorted(list[..n]), list[n]);
      assert list == list[..n] + [list[n]];
    }
  }

  /** Whether a mount owns a path, and the path below its mount point. */
  function Owned(m: Mount, guest: string): Option<string> {
    if m.at == "/" then Some(guest)
    else if m.at <= guest then
      var rest := guest[|m.at|..];
      if rest == "" then Some("/") else if rest[0] == '/' then Some(rest) else None
    else None
  }

  /** The first mount in the table that owns a path. */
  method Find(list: seq<Mount>, guest: string) returns (r: Option<(nat, string)>)
    ensures r == Found(list, guest, 0)
  {
    var i := 0;
    while i < |list|
      invariant i <= |list| && Found(list, guest, 0) == Found(list, guest, i)
    {
      var rel := Owned(list[i], guest);
      if rel.Some? {
        return Some((i, rel.value));
      }
      i := i + 1;
    }
    r := None;
  }

  function Found(list: seq<Mount>, guest: string, i: nat): (r: Option<(nat, string)>)
    requires i <= |list|
    ensures r.Some? ==> r.value.0 < |list| && Owned(list[r.value.0], guest) == Some(r.value.1)
    ensures forall j :: i <= j < (if r.Some? then r.value.0 else |list|) ==> Owned(list[j], guest).None?
    decreases |list| - i
  {
    if i == |list| then None
    else match Owned(list[i], guest)
      case Some(rel) => Some((i, rel))
      case None => Found(list, guest, i + 1)
  }

  /** A mount owns exactly the paths whose components begin with its own, and hands on the rest. */
  lemma OwnedByParts(m: Mount, parts: Parts)
    requires MountOk(m) && Clean(parts)
    ensures Owned(m, Join(parts)) == if At(m) <= parts then Some(Join(parts[|At(m)|..])) else None
  {
    NormalizedIsClean("/", m.at);
    var at := At(m);
    if |at| == 0 {
      assert parts[0..] == parts;
    } else {
      JoinedIsLonger(at);
      PrefixByParts(at, parts);
      if |parts| == 0 {
        assert !(m.at <= "/");
      }
      if at <= parts {
        var rest := parts[|at|..];
        assert JoinAll(parts)[|m.at|..] == JoinAll(rest);
        if |rest| > 0 { JoinIsAbsolute(rest); }
      }
    }
  }

  lemma JoinedIsLonger(parts: Parts)
    requires Clean(parts) && |parts| > 0
    ensures |JoinAll(parts)| >= 2
  {
    assert |parts[|parts| - 1]| > 0;
  }

  /** Fewer components, shorter mount point. */
  lemma ShorterAt(a: Mount, b: Mount, parts: Parts)
    requires MountOk(a) && MountOk(b) && At(a) <= parts && At(b) <= parts && |At(a)| < |At(b)|
    ensures |a.at| < |b.at|
  {
    NormalizedIsClean("/", a.at);
    NormalizedIsClean("/", b.at);
    var more := At(b)[|At(a)|..];
    assert At(b) == At(a) + more;
    assert Clean(more);
    JoinConcat(At(a), more);
    JoinedIsLonger(more);
    JoinedIsLonger(At(b));
  }

  /** Of two mounts that own a path, the one first in the table has no fewer components. */
  lemma FirstIsLongest(list: seq<Mount>, parts: Parts, i: nat, j: nat)
    requires LongestFirst(list) && MountsOk(list) && i < j < |list|
    requires At(list[i]) <= parts && At(list[j]) <= parts
    ensures |At(list[j])| <= |At(list[i])|
  {
    if |At(list[j])| > |At(list[i])| {
      ShorterAt(list[i], list[j], parts);
    }
  }

  /** The mount found is the one with the most components in common with the path; its mount point
      and what is handed on reassemble the path; and what is handed on is itself normalized. */
  lemma FindIsLongest(list: seq<Mount>, parts: Parts)
    requires LongestFirst(list) && MountsOk(list) && Clean(parts)
    ensures var r := Found(list, Join(parts), 0);
      if r.None? then forall j :: 0 <= j < |list| ==> !(At(list[j]) <= parts)
      else
        var at := At(list[r.value.0]);
        && at <= parts
        && (forall j :: 0 <= j < |list| && At(list[j]) <= parts ==> |At(list[j])| <= |at|)
        && r.value.1 == Join(parts[|at|..])
        && at + Normalized("/", r.value.1) == parts
  {
    hide At, Join, Owned, MountOk, Normalized, LongestFirst;
    var r := Found(list, Join(parts), 0);
    forall j | 0 <= j < |list|
      ensures Owned(list[j], Join(parts)) == if At(list[j]) <= parts then Some(Join(parts[|At(list[j])|..])) else None
    {
      OwnedByParts(list[j], parts);
    }
    if r.Some? {
      var at := At(list[r.value.0]);
      JoinRoundTrip(parts[|at|..]);
      forall j | 0 <= j < |list| && At(list[j]) <= parts ensures |At(list[j])| <= |at| {
        if j > r.value.0 {
          FirstIsLongest(list, parts, r.value.0, j);
        }
      }
    }
  }
}
