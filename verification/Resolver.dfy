/** Path resolution: walking a path component by component, splicing each symlink's target in and
    starting again, over any filesystem whatever. */
module Resolvers {
  import opened Base
  import opened Paths

  const MAX_HOPS: nat := 40
  const MAX_STR: nat := 4096

  datatype Stat = Fails | NotReady | IsDir | IsLink | IsOther

  datatype Target = To(path: string) | Unreadable | TargetNotReady

  /** What a filesystem says about one path: unfollowed, where it leads, followed. */
  datatype Probe = Probe(lstat: Stat, target: Target, stat: Stat)

  /** The answers of every mount, by moment, mount and path: a filesystem may change between probes. */
  type Fs = (nat, nat, string) -> Probe

  datatype Device = Null | Zero | Random | Tty | Fd(fd: int)

  datatype Node =
    | Program(id: nat, guest: string)
    | Dev(device: Device)
    | Synth(guest: string)
    | Mounted(mount: nat, rel: string, guest: string)
    | VirtualDir(guest: string)
    | VirtualLink(target: string)

  datatype Who = Who(cwd: string, exe: string, pid: int)

  /** The program table by guest path, the directories it implies, and the sorted mounts. */
  datatype World = World(programs: map<string, nat>, dirs: set<string>, mounts: seq<Mount>)

  // ----- names the kernel makes up -------------------------------------------------------

  function Digits(n: nat): string {
    var d := [('0' as int + n % 10) as char];
    if n < 10 then d else Digits(n / 10) + d
  }

  function Decimal(n: int): string {
    if n < 0 then "-" + Digits(-n) else Digits(n)
  }

  predicate AllDigits(s: string) {
    forall i :: 0 <= i < |s| ==> '0' <= s[i] <= '9'
  }

  function DigitsValue(s: string): nat
    requires AllDigits(s)
  {
    if |s| == 0 then 0 else DigitsValue(s[..|s| - 1]) * 10 + (s[|s| - 1] as int - '0' as int)
  }

  /** `parse::<i32>()`: an optional sign, digits, in range. */
  function ParseInt(s: string): Option<int> {
    var signed := |s| > 0 && (s[0] == '-' || s[0] == '+');
    var digits := if signed then s[1..] else s;
    if |digits| == 0 || !AllDigits(digits) then None
    else
      var n: int := DigitsValue(digits);
      var v := if signed && s[0] == '-' then -n else n;
      if -(I32_MAX as int) - 1 <= v <= I32_MAX then Some(v) else None
  }

  function After(prefix: string, s: string): Option<string> {
    if prefix <= s then Some(s[|prefix|..]) else None
  }

  function DeviceOf(guest: string): Option<Device> {
    if guest == "/dev/null" then Some(Null)
    else if guest == "/dev/zero" then Some(Zero)
    else if guest == "/dev/urandom" || guest == "/dev/random" then Some(Random)
    else if guest == "/dev/tty" || guest == "/dev/console" then Some(Tty)
    else None
  }

  /** The symlinks the kernel invents. */
  function VirtualTarget(who: Who, guest: string): Option<string> {
    var self := After("/proc/self", guest);
    var tail := if self.Some? then self else After("/proc/" + Decimal(who.pid), guest);
    if tail == Some("/exe") then Some(who.exe)
    else if tail == Some("/cwd") then Some(who.cwd)
    else if guest == "/dev/stdin" then Some("/proc/self/fd/0")
    else if guest == "/dev/stdout" then Some("/proc/self/fd/1")
    else if guest == "/dev/stderr" then Some("/proc/self/fd/2")
    else None
  }

  const PROC_FILES: set<string> :=
    {"cpuinfo", "meminfo", "uptime", "version", "mounts", "filesystems", "loadavg", "stat", "cmdline", "comm", "status"}

  /** The paths under `/proc` the kernel generates. */
  function ProcNode(who: Who, guest: string): Option<Node> {
    match After("/proc/", guest)
    case None => None
    case Some(all) =>
      var own := After(Decimal(who.pid) + "/", all);
      var mine := if own.Some? then own.value else all;
      var self := After("self/", mine);
      var rest := if self.Some? then self.value else mine;
      if rest == "fd" then Some(VirtualDir(guest))
      else match After("fd/", rest)
        case Some(number) => (match ParseInt(number)
                              case Some(fd) => Some(Dev(Fd(fd)))
                              case None => None)
        case None =>
          if rest in PROC_FILES then Some(Synth(guest))
          else if rest == "" || rest == "self" then Some(VirtualDir(guest))
          else None
  }

  predicate IsVirtualDir(w: World, guest: string) {
    guest in w.dirs || guest == "/proc/self/fd"
  }

  /** Whether some mount point is a direct child of `guest`. */
  predicate IsMountParent(w: World, guest: string) {
    var prefix := if guest == "/" then "/" else guest + "/";
    exists i :: 0 <= i < |w.mounts| &&
      var rest := After(prefix, w.mounts[i].at); rest.Some? && rest.value != "" && '/' !in rest.value
  }

  // ----- one path ------------------------------------------------------------------------

  /** Where a path leads, if it is a symlink. */
  function LinkAt(w: World, fs: Fs, t: nat, who: Who, guest: string): Result<Option<string>, Errno> {
    if VirtualTarget(who, guest).Some? then Ok(VirtualTarget(who, guest))
    else if guest in w.programs || DeviceOf(guest).Some? then Ok(None)
    else match Found(w.mounts, guest, 0)
      case None => Ok(None)
      case Some((i, rel)) =>
        if !w.mounts[i].hasSymlinks then Ok(None)
        else match fs(t, i, rel).lstat
          case IsLink =>
            (match fs(t, i, rel).target
             case To(path) => Ok(Some(path))
             case Unreadable => Ok(None)
             case TargetNotReady => Err(AGAIN))
          case NotReady => Err(AGAIN)
          case _ => Ok(None)
  }

  /** What a path is, no symlink followed: a program, a device, a `/proc` file, something mounted,
      or a directory that exists because the kernel says so. */
  function Classify(w: World, fs: Fs, t: nat, who: Who, guest: string): Result<Node, Errno> {
    if guest in w.programs then Ok(Program(w.programs[guest], guest))
    else if DeviceOf(guest).Some? then Ok(Dev(DeviceOf(guest).value))
    else if ProcNode(who, guest).Some? then Ok(ProcNode(who, guest).value)
    else match Found(w.mounts, guest, 0)
      case Some((i, rel)) =>
        if guest != "/" && IsVirtualDir(w, guest) && fs(t, i, rel).stat != IsDir then
          if fs(t, i, rel).stat == NotReady then Err(AGAIN) else Ok(VirtualDir(guest))
        else Ok(Mounted(i, rel, guest))
      case None => if IsVirtualDir(w, guest) || IsMountParent(w, guest) then Ok(VirtualDir(guest)) else Err(NOENT)
  }

  // ----- the walk ------------------------------------------------------------------------

  /** A symlink's target in place of the component that named it. */
  function Spliced(parts: Parts, index: nat, target: string): Parts
    requires index < |parts|
  {
    Normalized(if Absolute(target) then "/" else Join(parts[..index]), target) + parts[index + 1..]
  }

  /** Where the walk ends: a path with nothing left to follow, or one of the kernel's own links. */
  datatype End = Arrived(parts: Parts, t: nat) | AtLink(target: string)

  function Walk(w: World, fs: Fs, who: Who, parts: Parts, hops: nat, index: nat, follow: bool,
    t: nat): Result<End, Errno>
    requires index <= |parts| && hops <= MAX_HOPS
    decreases MAX_HOPS - hops, |parts| - index
  {
    if index == |parts| then Ok(Arrived(parts, t))
    else
      var here := Join(parts[..index + 1]);
      if index + 1 < |parts| || follow then
        match LinkAt(w, fs, t, who, here)
        case Err(e) => Err(e)
        case Ok(None) => Walk(w, fs, who, parts, hops, index + 1, follow, t + 1)
        case Ok(Some(target)) =>
          if hops == MAX_HOPS then Err(LOOP)
          else Walk(w, fs, who, Spliced(parts, index, target), hops + 1, 0, follow, t + 1)
      else match VirtualTarget(who, here)
        case Some(target) => Ok(AtLink(target))
        case None => Walk(w, fs, who, parts, hops, index + 1, follow, t)
  }

  function Resolved(w: World, fs: Fs, who: Who, base: string, path: string, follow: bool): Result<Node, Errno> {
    if |path| > MAX_STR then Err(NAMETOOLONG)
    else match Walk(w, fs, who, Normalized(base, path), 0, 0, follow, 0)
      case Err(e) => Err(e)
      case Ok(AtLink(target)) => Ok(VirtualLink(target))
      case Ok(Arrived(parts, t)) => Classify(w, fs, t, who, Join(parts))
  }

  /** The loop itself. It ends on every filesystem, cyclic links and links that change under it
      included: each turn either has fewer hops left or fewer components to look at. */
  method Resolve(w: World, fs: Fs, who: Who, base: string, path: string, follow: bool) returns (r: Result<Node, Errno>)
    ensures r == Resolved(w, fs, who, base, path, follow)
  {
    hide LinkAt, Join, Normalized, VirtualTarget, Classify, Clean;
    if |path| > MAX_STR {
      return Err(NAMETOOLONG);
    }
    var parts := Normalize(base, path);
    var hops: nat, index: nat, t: nat := 0, 0, 0;
    while index < |parts|
      invariant index <= |parts| && hops <= MAX_HOPS
      invariant Walk(w, fs, who, parts, hops, index, follow, t) ==
        Walk(w, fs, who, Normalized(base, path), 0, 0, follow, 0)
      decreases MAX_HOPS - hops, |parts| - index
    {
      var next := index + 1;
      var here := JoinParts(parts[..next]);
      var last := next >= |parts|;
      if !last || follow {
        var link := LinkAt(w, fs, t, who, here);
        if link.Err? {
          return Err(link.error);
        }
        t := t + 1;
        if link.value.Some? {
          if hops == MAX_HOPS {
            return Err(LOOP);
          }
          hops := hops + 1;
          var target := link.value.value;
          var parent := JoinParts(parts[..index]);
          var rebuilt := Normalize(if Absolute(target) then "/" else parent, target);
          parts := rebuilt + parts[next..];
          index := 0;
          continue;
        }
      } else {
        var target := VirtualTarget(who, here);
        if target.Some? {
          return Ok(VirtualLink(target.value));
        }
      }
      index := next;
    }
    r := Classify(w, fs, t, who, Join(parts));
  }

  // ----- a filesystem that stays as it is ------------------------------------------------

  /** The filesystem that answers `view` at every moment. */
  function Fixed(view: (nat, string) -> Probe): Fs {
    (t: nat, m: nat, rel: string) => view(m, rel)
  }

  /** No prefix of up to `n` components is a symlink. */
  ghost predicate NoLinks(w: World, view: (nat, string) -> Probe, who: Who, parts: Parts, n: nat) {
    forall j :: 1 <= j <= n <= |parts| ==> LinkAt(w, Fixed(view), 0, who, Join(parts[..j])) == Ok(None)
  }

  lemma SplicedIsClean(parts: Parts, index: nat, target: string)
    requires Clean(parts) && index < |parts|
    ensures Clean(Spliced(parts, index, target))
  {
    NormalizedIsClean(if Absolute(target) then "/" else Join(parts[..index]), target);
  }

  lemma AnyMoment(w: World, view: (nat, string) -> Probe, t: nat, who: Who, guest: string)
    ensures LinkAt(w, Fixed(view), t, who, guest) == LinkAt(w, Fixed(view), 0, who, guest)
    ensures Classify(w, Fixed(view), t, who, guest) == Classify(w, Fixed(view), 0, who, guest)
  {
  }

  /** Wherever the walk arrives, what is behind it holds no symlink. */
  lemma {:induction false} WalkArrives(w: World, view: (nat, string) -> Probe, who: Who, parts: Parts,
    hops: nat, index: nat,
                                       follow: bool, t: nat)
    requires index <= |parts| && hops <= MAX_HOPS && Clean(parts)
    requires NoLinks(w, view, who, parts, if follow || index < |parts| then index else SubSat(index, 1))
    ensures var r := Walk(w, Fixed(view), who, parts, hops, index, follow, t);
      r.Ok? && r.value.Arrived? ==>
        var ps := r.value.parts;
        Clean(ps) && NoLinks(w, view, who, ps, if follow then |ps| else SubSat(|ps|, 1))
    ensures var r := Walk(w, Fixed(view), who, parts, hops, index, follow, t);
      follow && r.Ok? ==> r.value.Arrived?
    decreases MAX_HOPS - hops, |parts| - index
  {
    hide LinkAt, Join, VirtualTarget, Spliced, Fixed;
    if index < |parts| {
      var here := Join(parts[..index + 1]);
      if index + 1 < |parts| || follow {
        AnyMoment(w, view, t, who, here);
        var link := LinkAt(w, Fixed(view), t, who, here);
        if link == Ok(None) {
          WalkArrives(w, view, who, parts, hops, index + 1, follow, t + 1);
        } else if link.Ok? && hops < MAX_HOPS {
          SplicedIsClean(parts, index, link.value.value);
          WalkArrives(w, view, who, Spliced(parts, index, link.value.value), hops + 1, 0, follow, t + 1);
        }
      } else if VirtualTarget(who, here).None? {
        WalkArrives(w, view, who, parts, hops, index + 1, follow, t);
      }
    }
  }

  /** A path without symlinks is walked straight through. */
  lemma {:induction false} WalkThrough(w: World, view: (nat, string) -> Probe, who: Who, parts: Parts,
    index: nat, t: nat)
    requires index <= |parts| && NoLinks(w, view, who, parts, |parts|)
    ensures Walk(w, Fixed(view), who, parts, 0, index, true, t) == Ok(Arrived(parts, t + |parts| - index))
    decreases |parts| - index
  {
    hide LinkAt, Join, Fixed;
    if index < |parts| {
      AnyMoment(w, view, t, who, Join(parts[..index + 1]));
      WalkThrough(w, view, who, parts, index + 1, t + 1);
    }
  }

  lemma ClassifyNames(w: World, fs: Fs, t: nat, who: Who, guest: string)
    ensures var r := Classify(w, fs, t, who, guest);
      r.Ok? ==> !r.value.VirtualLink? && (!r.value.Dev? ==> r.value.guest == guest)
  {
  }

  /** What a path comes to once its links are followed: the program of that name, whatever is mounted there;
      else what a mount has, and then of the mount with the longest mount point that owns the path; and
      `ENOENT` exactly if neither a program, a device, a `/proc` file, a mount nor a directory the kernel
      makes up has that name. */
  lemma ClassifyWhen(w: World, fs: Fs, t: nat, who: Who, parts: Parts)
    requires LongestFirst(w.mounts) && MountsOk(w.mounts) && Clean(parts)
    ensures
      var guest := Join(parts);
      var r := Classify(w, fs, t, who, guest);
      && (guest in w.programs ==> r == Ok(Program(w.programs[guest], guest)))
      && (r == Err(NOENT) <==>
            && guest !in w.programs && DeviceOf(guest).None? && ProcNode(who, guest).None?
            && (forall j :: 0 <= j < |w.mounts| ==> !(At(w.mounts[j]) <= parts))
            && !IsVirtualDir(w, guest) && !IsMountParent(w, guest))
      && (r.Ok? && r.value.Mounted? ==>
            && r.value.mount < |w.mounts| && At(w.mounts[r.value.mount]) <= parts
            && r.value.rel == Join(parts[|At(w.mounts[r.value.mount])|..])
            && forall j :: 0 <= j < |w.mounts| && At(w.mounts[j]) <= parts ==>
                 |At(w.mounts[j])| <= |At(w.mounts[r.value.mount])|)
  {
    hide Join, At, LongestFirst, MountsOk, DeviceOf, ProcNode, IsVirtualDir, IsMountParent, Found;
    FindIsLongest(w.mounts, parts);
    ProcIsMadeUp(who, Join(parts));
  }

  lemma ProcIsMadeUp(who: Who, guest: string)
    ensures var n := ProcNode(who, guest); n.Some? ==> !n.value.Mounted? && !n.value.Program?
  {
  }

  lemma {:induction false} DigitsRead(n: nat)
    ensures AllDigits(Digits(n)) && |Digits(n)| > 0 && DigitsValue(Digits(n)) == n
  {
    var d := [('0' as int + n % 10) as char];
    if n < 10 {
      assert DigitsValue(d) == DigitsValue(d[..0]) * 10 + n % 10;
    } else {
      DigitsRead(n / 10);
      assert Digits(n)[..|Digits(n)| - 1] == Digits(n / 10);
    }
  }

  /** The number of a descriptor is read as it is written. */
  lemma DecimalRead(n: nat)
    requires n <= I32_MAX
    ensures ParseInt(Decimal(n)) == Some(n)
  {
    hide Digits, DigitsValue;
    DigitsRead(n);
  }

  lemma AfterPrefix(prefix: string, s: string)
    ensures After(prefix, prefix + s) == Some(s)
  {
  }

  lemma NotAfter(prefix: string, s: string)
    requires prefix != "" && s != "" && prefix[0] != s[0]
    ensures After(prefix, s) == None
  {
  }

  lemma FdNode(who: Who, guest: string, all: string, mine: string, number: string)
    requires After("/proc/", guest) == Some(all)
    requires mine == (match After(Decimal(who.pid) + "/", all) case Some(own) => own case None => all)
    requires "fd/" + number == (match After("self/", mine) case Some(rest) => rest case None => mine)
    requires ParseInt(number).Some?
    ensures ProcNode(who, guest) == Some(Dev(Fd(ParseInt(number).value)))
  {
    hide Decimal, ParseInt, After;
    AfterPrefix("fd/", number);
    assert |"fd/" + number| > |"fd"|;
  }

  /** `/proc/self/fd/N` and `/proc/PID/fd/N`, with the pid of the caller, are the caller's descriptor N. */
  lemma FdPaths(who: Who, n: nat)
    requires n <= I32_MAX && who.pid > 0
    ensures ProcNode(who, "/proc/" + ("self/" + ("fd/" + Decimal(n)))) == Some(Dev(Fd(n)))
    ensures ProcNode(who, "/proc/" + (Decimal(who.pid) + "/" + ("fd/" + Decimal(n)))) == Some(Dev(Fd(n)))
  {
    hide Digits, ParseInt, After;
    DecimalRead(n);
    DigitsRead(who.pid);
    var number, mine := Decimal(n), Decimal(who.pid) + "/";
    var tail := "fd/" + number;
    AfterPrefix("/proc/", "self/" + tail);
    NotAfter(mine, "self/" + tail);
    AfterPrefix("self/", tail);
    FdNode(who, "/proc/" + ("self/" + tail), "self/" + tail, "self/" + tail, number);
    AfterPrefix("/proc/", mine + tail);
    AfterPrefix(mine, tail);
    NotAfter("self/", tail);
    FdNode(who, "/proc/" + (mine + tail), mine + tail, tail, number);
  }

  /** On a filesystem that stays as it is, what following every link comes to is a clean path none
      of whose prefixes is a symlink, never a link of the kernel's; the node names that path; and
      resolving that path again, from anywhere, comes to the same node. */
  lemma ResolveSettles(w: World, view: (nat, string) -> Probe, who: Who, base: string, path: string, again: string)
    requires Resolved(w, Fixed(view), who, base, path, true).Ok?
    ensures var r := Resolved(w, Fixed(view), who, base, path, true);
      !r.value.VirtualLink? &&
      exists ps: Parts ::
        && Clean(ps) && NoLinks(w, view, who, ps, |ps|)
        && (!r.value.Dev? ==> r.value.guest == Join(ps))
        && (|Join(ps)| <= MAX_STR ==> Resolved(w, Fixed(view), who, again, Join(ps), true) == r)
  {
    hide LinkAt, Join, Classify, NoLinks, Fixed, Walk, Normalized;
    var parts := Normalized(base, path);
    NormalizedIsClean(base, path);
    NoneYet(w, view, who, parts);
    WalkArrives(w, view, who, parts, 0, 0, true, 0);
    var r := Resolved(w, Fixed(view), who, base, path, true);
    var end := Walk(w, Fixed(view), who, parts, 0, 0, true, 0).value;
    var ps := end.parts;
    ClassifyNames(w, Fixed(view), end.t, who, Join(ps));
    if |Join(ps)| <= MAX_STR {
      JoinedAgain(again, ps);
      WalkThrough(w, view, who, ps, 0, 0);
      AnyMoment(w, view, end.t, who, Join(ps));
      AnyMoment(w, view, |ps|, who, Join(ps));
    }
    assert Clean(ps) && NoLinks(w, view, who, ps, |ps|);
  }

  /** Two ends of a walk at the same path. */
  ghost predicate SameEnd(a: Result<End, Errno>, b: Result<End, Errno>) {
    match (a, b)
    case (Ok(Arrived(p, _)), Ok(Arrived(q, _))) => p == q
    case _ => a == b
  }

  /** A walk that has hops to spare ends where one that has fewer left ends, unless that one runs out. */
  lemma {:induction false} HopsToSpare(w: World, view: (nat, string) -> Probe, who: Who, parts: Parts, hops: nat,
                                       fewer: nat, index: nat, follow: bool, t: nat, s: nat)
    requires index <= |parts| && fewer <= hops <= MAX_HOPS
    ensures var a, b := Walk(w, Fixed(view), who, parts, hops, index, follow, t),
                        Walk(w, Fixed(view), who, parts, fewer, index, follow, s);
      a == Err(LOOP) || SameEnd(a, b)
    decreases MAX_HOPS - hops, |parts| - index
  {
    hide LinkAt, Join, VirtualTarget, Spliced, Fixed;
    if index < |parts| {
      var here := Join(parts[..index + 1]);
      if index + 1 < |parts| || follow {
        AnyMoment(w, view, t, who, here);
        AnyMoment(w, view, s, who, here);
        var link := LinkAt(w, Fixed(view), t, who, here);
        if link == Ok(None) {
          HopsToSpare(w, view, who, parts, hops, fewer, index + 1, follow, t + 1, s + 1);
        } else if link.Ok? && hops < MAX_HOPS {
          HopsToSpare(w, view, who, Spliced(parts, index, link.value.value), hops + 1, fewer + 1, 0, follow, t + 1,
                      s + 1);
        }
      } else if VirtualTarget(who, here).None? {
        HopsToSpare(w, view, who, parts, hops, fewer, index + 1, follow, t, s);
      }
    }
  }

  /** A walk passes over the components of a path no prefix of which is a link. */
  lemma {:induction false} WalkPast(w: World, view: (nat, string) -> Probe, who: Who, parts: Parts, n: nat, index: nat,
                                    follow: bool, t: nat)
    requires index <= n <= |parts| && (n < |parts| || follow) && NoLinks(w, view, who, parts, n)
    ensures Walk(w, Fixed(view), who, parts, 0, index, follow, t)
         == Walk(w, Fixed(view), who, parts, 0, n, follow, t + n - index)
    decreases n - index
  {
    hide LinkAt, Join, Fixed;
    if index < n {
      AnyMoment(w, view, t, who, Join(parts[..index + 1]));
      WalkPast(w, view, who, parts, n, index + 1, follow, t + 1);
    }
  }

  /** Where a symlink leads: a path that goes through it means what its target means, taken from the
      directory it stands in, with the rest of the path after it. Too many links aside, resolving the
      one is resolving the other. */
  lemma LinkLeads(w: World, view: (nat, string) -> Probe, who: Who, base: string, d: Parts, l: string, rest: Parts,
                  target: string, follow: bool)
    requires Clean(d + [l] + rest) && (rest != [] || follow) && target != ""
    requires forall j :: 1 <= j <= |d| ==> LinkAt(w, Fixed(view), 0, who, Join(d[..j])) == Ok(None)
    requires LinkAt(w, Fixed(view), 0, who, Join(d + [l])) == Ok(Some(target))
    requires |Join(d + [l] + rest)| <= MAX_STR && |target + JoinAll(rest)| <= MAX_STR
    ensures var through := Resolved(w, Fixed(view), who, base, Join(d + [l] + rest), follow);
      through == Err(LOOP) || through == Resolved(w, Fixed(view), who, Join(d), target + JoinAll(rest), follow)
  {
    hide LinkAt, Join, JoinAll, Normalized, Fixed, Walk, Classify, CleanPart;
    var parts := d + [l] + rest;
    CleanPieces(d, l, rest);
    JoinedAgain(base, parts);
    assert NoLinks(w, view, who, parts, |d|) by {
      assert forall j :: 1 <= j <= |d| ==> parts[..j] == d[..j];
    }
    WalkPast(w, view, who, parts, |d|, 0, follow, 0);
    WalkOnce(w, view, who, d, l, rest, target, follow, |d|);
    var next := Normalized(Join(d), target + JoinAll(rest));
    HopsToSpare(w, view, who, next, 1, 0, 0, follow, |d| + 1, 0);
    var a := Walk(w, Fixed(view), who, next, 1, 0, follow, |d| + 1);
    var b := Walk(w, Fixed(view), who, next, 0, 0, follow, 0);
    if a.Ok? && a.value.Arrived? && a != Err(LOOP) {
      AnyMoment(w, view, a.value.t, who, Join(a.value.parts));
      AnyMoment(w, view, b.value.t, who, Join(a.value.parts));
    }
  }

  lemma CleanPieces(d: Parts, l: string, rest: Parts)
    requires Clean(d + [l] + rest)
    ensures Clean(d) && Clean(rest)
  {
    var parts := d + [l] + rest;
    forall i | 0 <= i < |d| ensures CleanPart(d[i]) {
      assert parts[i] == d[i];
    }
    forall i | 0 <= i < |rest| ensures CleanPart(rest[i]) {
      assert parts[|d| + 1 + i] == rest[i];
    }
  }

  /** The one hop: what is left to walk is the target from where the link stands, then the rest. */
  lemma WalkOnce(w: World, view: (nat, string) -> Probe, who: Who, d: Parts, l: string, rest: Parts, target: string,
                 follow: bool, t: nat)
    requires Clean(d) && Clean(rest) && (rest != [] || follow) && target != ""
    requires LinkAt(w, Fixed(view), 0, who, Join(d + [l])) == Ok(Some(target))
    ensures Walk(w, Fixed(view), who, d + [l] + rest, 0, |d|, follow, t)
         == Walk(w, Fixed(view), who, Normalized(Join(d), target + JoinAll(rest)), 1, 0, follow, t + 1)
  {
    hide LinkAt, Join, JoinAll, Normalized, Fixed;
    var parts := d + [l] + rest;
    assert parts[..|d| + 1] == d + [l] && parts[..|d|] == d && parts[|d| + 1..] == rest;
    AnyMoment(w, view, t, who, Join(d + [l]));
    TailGoesOn(Join(d), target, rest);
    if Absolute(target) {
      FromRoot(Join(d), target);
    }
    assert Spliced(parts, |d|, target) == Normalized(Join(d), target + JoinAll(rest));
  }

  lemma FromRoot(base: string, path: string)
    requires Absolute(path)
    ensures Normalized("/", path) == Normalized(base, path)
  {
  }

  /** A path through no link at all is what is there. */
  lemma PlainPath(w: World, view: (nat, string) -> Probe, who: Who, base: string, parts: Parts)
    requires Clean(parts) && |Join(parts)| <= MAX_STR
    requires forall j :: 1 <= j <= |parts| ==> LinkAt(w, Fixed(view), 0, who, Join(parts[..j])) == Ok(None)
    ensures Resolved(w, Fixed(view), who, base, Join(parts), true) == Classify(w, Fixed(view), 0, who, Join(parts))
  {
    hide LinkAt, Join, Classify, Normalized, Fixed, Walk;
    JoinedAgain(base, parts);
    WalkThrough(w, view, who, parts, 0, 0);
    AnyMoment(w, view, |parts|, who, Join(parts));
  }

  lemma NoneYet(w: World, view: (nat, string) -> Probe, who: Who, parts: Parts)
    ensures NoLinks(w, view, who, parts, 0)
  {
  }

  lemma JoinedAgain(base: string, parts: Parts)
    requires Clean(parts)
    ensures Normalized(base, Join(parts)) == parts
  {
    JoinIsAbsolute(parts);
    JoinRoundTrip(parts);
  }

  /** Without following the last component, everything before it is free of symlinks all the same. */
  lemma ResolveUnfollowed(w: World, view: (nat, string) -> Probe, who: Who, base: string, path: string)
    requires var r := Resolved(w, Fixed(view), who, base, path, false); r.Ok? && !r.value.VirtualLink?
    ensures var r := Resolved(w, Fixed(view), who, base, path, false);
      exists ps: Parts ::
        Clean(ps) && NoLinks(w, view, who, ps, SubSat(|ps|, 1)) && (!r.value.Dev? ==> r.value.guest == Join(ps))
  {
    hide LinkAt, Join, Classify, NoLinks, Fixed, Walk, Normalized;
    var parts := Normalized(base, path);
    NormalizedIsClean(base, path);
    NoneYet(w, view, who, parts);
    WalkArrives(w, view, who, parts, 0, 0, false, 0);
    var end := Walk(w, Fixed(view), who, parts, 0, 0, false, 0).value;
    ClassifyNames(w, Fixed(view), end.t, who, Join(end.parts));
    assert Clean(end.parts) && NoLinks(w, view, who, end.parts, SubSat(|end.parts|, 1));
  }

  // ----- too many links ------------------------------------------------------------------

  /** The walk up to the next link it follows: the components with the target spliced in, and when;
      `None` if it comes to no further link. */
  function NextLink(w: World, fs: Fs, who: Who, parts: Parts, index: nat, follow: bool, t: nat): Option<(Parts, nat)>
    requires index <= |parts|
    decreases |parts| - index
  {
    if index == |parts| then None
    else if index + 1 < |parts| || follow then
      match LinkAt(w, fs, t, who, Join(parts[..index + 1]))
      case Err(_) => None
      case Ok(None) => NextLink(w, fs, who, parts, index + 1, follow, t + 1)
      case Ok(Some(target)) => Some((Spliced(parts, index, target), t + 1))
    else None
  }

  /** Where following `n` links leads, however many that is, if there are so many to follow. */
  function Followed(w: World, fs: Fs, who: Who, parts: Parts, follow: bool, t: nat, n: nat): Option<(Parts, nat)>
    decreases n
  {
    if n == 0 then Some((parts, t))
    else match NextLink(w, fs, who, parts, 0, follow, t)
      case None => None
      case Some((next, later)) => Followed(w, fs, who, next, follow, later, n - 1)
  }

  lemma {:induction false} WalkFollows(w: World, fs: Fs, who: Who, parts: Parts, hops: nat, index: nat, follow: bool,
                                       t: nat)
    requires index <= |parts| && hops <= MAX_HOPS
    ensures Walk(w, fs, who, parts, hops, index, follow, t) == Err(LOOP) <==>
      var link := NextLink(w, fs, who, parts, index, follow, t);
      link.Some? && Followed(w, fs, who, link.value.0, follow, link.value.1, MAX_HOPS - hops).Some?
    decreases MAX_HOPS - hops, |parts| - index
  {
    hide Join, VirtualTarget, Spliced, DeviceOf, Found;
    if index < |parts| && (index + 1 < |parts| || follow) {
      var link := LinkAt(w, fs, t, who, Join(parts[..index + 1]));
      if link == Ok(None) {
        WalkFollows(w, fs, who, parts, hops, index + 1, follow, t + 1);
      } else if link.Ok? && hops < MAX_HOPS {
        WalkFollows(w, fs, who, Spliced(parts, index, link.value.value), hops + 1, 0, follow, t + 1);
      }
    } else if index < |parts| && VirtualTarget(who, Join(parts[..index + 1])).None? {
      WalkFollows(w, fs, who, parts, hops, index + 1, follow, t);
    }
  }

  /** On any filesystem, one that changes under the walk included, resolution answers `ELOOP`
      exactly when there are more than 40 links to follow. */
  lemma LoopsExactly(w: World, fs: Fs, who: Who, base: string, path: string, follow: bool)
    ensures Resolved(w, fs, who, base, path, follow) == Err(LOOP) <==>
      |path| <= MAX_STR && Followed(w, fs, who, Normalized(base, path), follow, 0, MAX_HOPS + 1).Some?
  {
    hide Walk, Normalized, LinkAt, Join;
    var parts := Normalized(base, path);
    WalkFollows(w, fs, who, parts, 0, 0, follow, 0);
    if |path| <= MAX_STR && Walk(w, fs, who, parts, 0, 0, follow, 0).Ok? {
      var end := Walk(w, fs, who, parts, 0, 0, follow, 0).value;
      if end.Arrived? {
        NeverLoop(w, fs, end.t, who, Join(end.parts));
      }
    }
  }

  lemma NeverLoop(w: World, fs: Fs, t: nat, who: Who, guest: string)
    ensures Classify(w, fs, t, who, guest) != Err(LOOP)
  {
  }

  lemma {:induction false} NextLinkAnyTime(w: World, view: (nat, string) -> Probe, who: Who, parts: Parts, index: nat,
                                           follow: bool, t: nat, s: nat)
    requires index <= |parts|
    ensures var a, b := NextLink(w, Fixed(view), who, parts, index, follow, t),
                        NextLink(w, Fixed(view), who, parts, index, follow, s);
      a.Some? == b.Some? && (a.Some? ==> a.value.0 == b.value.0)
    decreases |parts| - index
  {
    hide LinkAt, Join, Fixed, Spliced;
    if index < |parts| && (index + 1 < |parts| || follow) {
      AnyMoment(w, view, t, who, Join(parts[..index + 1]));
      AnyMoment(w, view, s, who, Join(parts[..index + 1]));
      NextLinkAnyTime(w, view, who, parts, index + 1, follow, t + 1, s + 1);
    }
  }

  lemma {:induction false} FollowedAnyTime(w: World, view: (nat, string) -> Probe, who: Who, parts: Parts,
                                           follow: bool, t: nat, s: nat, n: nat)
    ensures var a, b := Followed(w, Fixed(view), who, parts, follow, t, n),
                        Followed(w, Fixed(view), who, parts, follow, s, n);
      a.Some? == b.Some? && (a.Some? ==> a.value.0 == b.value.0)
    decreases n
  {
    hide NextLink, Fixed;
    if n > 0 {
      NextLinkAnyTime(w, view, who, parts, 0, follow, t, s);
      var a := NextLink(w, Fixed(view), who, parts, 0, follow, t);
      var b := NextLink(w, Fixed(view), who, parts, 0, follow, s);
      if a.Some? {
        FollowedAnyTime(w, view, who, a.value.0, follow, a.value.1, b.value.1, n - 1);
      }
    }
  }

  /** Following links one stretch after the other. */
  lemma {:induction false} FollowedOn(w: World, fs: Fs, who: Who, parts: Parts, follow: bool, t: nat, m: nat, n: nat)
    ensures Followed(w, fs, who, parts, follow, t, m + n)
         == (match Followed(w, fs, who, parts, follow, t, m)
             case None => None
             case Some((next, later)) => Followed(w, fs, who, next, follow, later, n))
    decreases m
  {
    hide NextLink;
    if m > 0 {
      var link := NextLink(w, fs, who, parts, 0, follow, t);
      if link.Some? {
        FollowedOn(w, fs, who, link.value.0, follow, link.value.1, m - 1, n);
      }
    }
  }

  /** A cycle can be followed as long as one likes. */
  lemma {:induction false} CycleFollows(w: World, view: (nat, string) -> Probe, who: Who, parts: Parts, follow: bool,
                                        t: nat, n: nat, m: nat)
    requires n > 0
    requires var round := Followed(w, Fixed(view), who, parts, follow, t, n); round.Some? && round.value.0 == parts
    ensures Followed(w, Fixed(view), who, parts, follow, t, m).Some?
    decreases m
  {
    hide Followed, Fixed;
    if m <= n {
      FollowedOn(w, Fixed(view), who, parts, follow, t, m, n - m);
    } else {
      var later := Followed(w, Fixed(view), who, parts, follow, t, n).value.1;
      CycleFollows(w, view, who, parts, follow, t, n, m - n);
      FollowedOn(w, Fixed(view), who, parts, follow, t, n, m - n);
      FollowedAnyTime(w, view, who, parts, follow, t, later, m - n);
    }
  }

  /** On a filesystem that stays as it is, links that lead into a circle answer `ELOOP`: whatever
      number of links comes before it, whatever its length, and at whatever component it is met. */
  lemma CyclesLoop(w: World, view: (nat, string) -> Probe, who: Who, base: string, path: string, follow: bool, k: nat,
                   n: nat)
    requires n > 0 && |path| <= MAX_STR
    requires var into := Followed(w, Fixed(view), who, Normalized(base, path), follow, 0, k);
      into.Some? &&
      var round := Followed(w, Fixed(view), who, into.value.0, follow, into.value.1, n);
      round.Some? && round.value.0 == into.value.0
    ensures Resolved(w, Fixed(view), who, base, path, follow) == Err(LOOP)
  {
    hide Followed, Normalized, Fixed, Walk, Classify;
    var parts := Normalized(base, path);
    var (there, t) := Followed(w, Fixed(view), who, parts, follow, 0, k).value;
    CycleFollows(w, view, who, there, follow, t, n, MAX_HOPS + 1);
    FollowedOn(w, Fixed(view), who, parts, follow, 0, k, MAX_HOPS + 1);
    FollowedOn(w, Fixed(view), who, parts, follow, 0, MAX_HOPS + 1, k);
    LoopsExactly(w, Fixed(view), who, base, path, follow);
  }

  // ----- what the filesystems are asked --------------------------------------------------

  /** A question put to a filesystem: when, to which mount, about which path. */
  datatype Ask = Ask(t: nat, mount: nat, rel: string)

  function LinkAsks(w: World, t: nat, who: Who, guest: string): seq<Ask> {
    if VirtualTarget(who, guest).Some? || guest in w.programs || DeviceOf(guest).Some? then []
    else match Found(w.mounts, guest, 0)
      case None => []
      case Some((i, rel)) => if w.mounts[i].hasSymlinks then [Ask(t, i, rel)] else []
  }

  function ClassifyAsks(w: World, t: nat, who: Who, guest: string): seq<Ask> {
    if guest in w.programs || DeviceOf(guest).Some? || ProcNode(who, guest).Some? then []
    else match Found(w.mounts, guest, 0)
      case None => []
      case Some((i, rel)) => if guest != "/" && IsVirtualDir(w, guest) then [Ask(t, i, rel)] else []
  }

  /** Every question of a walk, those of the paths spliced in included. */
  function WalkAsks(w: World, fs: Fs, who: Who, parts: Parts, hops: nat, index: nat, follow: bool, t: nat): seq<Ask>
    requires index <= |parts| && hops <= MAX_HOPS
    decreases MAX_HOPS - hops, |parts| - index
  {
    if index == |parts| then ClassifyAsks(w, t, who, Join(parts))
    else
      var here := Join(parts[..index + 1]);
      if index + 1 < |parts| || follow then
        LinkAsks(w, t, who, here)
        + match LinkAt(w, fs, t, who, here)
          case Err(e) => []
          case Ok(None) => WalkAsks(w, fs, who, parts, hops, index + 1, follow, t + 1)
          case Ok(Some(target)) =>
            if hops == MAX_HOPS then []
            else WalkAsks(w, fs, who, Spliced(parts, index, target), hops + 1, 0, follow, t + 1)
      else if VirtualTarget(who, here).Some? then []
      else WalkAsks(w, fs, who, parts, hops, index + 1, follow, t)
  }

  /** Every question a resolution puts to a filesystem. */
  function Asked(w: World, fs: Fs, who: Who, base: string, path: string, follow: bool): seq<Ask> {
    if |path| > MAX_STR then [] else WalkAsks(w, fs, who, Normalized(base, path), 0, 0, follow, 0)
  }

  /** The two filesystems give the same answer to each of these questions. */
  ghost predicate Agree(fs: Fs, other: Fs, asks: seq<Ask>) {
    forall q :: q in asks ==> fs(q.t, q.mount, q.rel) == other(q.t, q.mount, q.rel)
  }

  lemma LinkAsksOnly(w: World, fs: Fs, other: Fs, t: nat, who: Who, guest: string)
    requires Agree(fs, other, LinkAsks(w, t, who, guest))
    ensures LinkAt(w, fs, t, who, guest) == LinkAt(w, other, t, who, guest)
  {
    hide VirtualTarget, DeviceOf;
    var f := Found(w.mounts, guest, 0);
    if f.Some? {
      assert Ask(t, f.value.0, f.value.1) in [Ask(t, f.value.0, f.value.1)];
    }
  }

  lemma ClassifyAsksOnly(w: World, fs: Fs, other: Fs, t: nat, who: Who, guest: string)
    requires Agree(fs, other, ClassifyAsks(w, t, who, guest))
    ensures Classify(w, fs, t, who, guest) == Classify(w, other, t, who, guest)
  {
    hide DeviceOf, ProcNode, IsVirtualDir, IsMountParent;
    var f := Found(w.mounts, guest, 0);
    if f.Some? {
      assert Ask(t, f.value.0, f.value.1) in [Ask(t, f.value.0, f.value.1)];
    }
  }

  lemma {:induction false} WalkAsksOnly(w: World, fs: Fs, other: Fs, who: Who, parts: Parts, hops: nat, index: nat,
                                        follow: bool, t: nat)
    requires index <= |parts| && hops <= MAX_HOPS
    requires Agree(fs, other, WalkAsks(w, fs, who, parts, hops, index, follow, t))
    ensures var r := Walk(w, fs, who, parts, hops, index, follow, t);
      && r == Walk(w, other, who, parts, hops, index, follow, t)
      && (r.Ok? && r.value.Arrived? ==>
            Classify(w, fs, r.value.t, who, Join(r.value.parts))
            == Classify(w, other, r.value.t, who, Join(r.value.parts)))
    decreases MAX_HOPS - hops, |parts| - index
  {
    hide LinkAt, LinkAsks, Classify, ClassifyAsks, Join, VirtualTarget, Spliced;
    if index == |parts| {
      ClassifyAsksOnly(w, fs, other, t, who, Join(parts));
    } else {
      var here := Join(parts[..index + 1]);
      if index + 1 < |parts| || follow {
        LinkAsksOnly(w, fs, other, t, who, here);
        var link := LinkAt(w, fs, t, who, here);
        if link == Ok(None) {
          WalkAsksOnly(w, fs, other, who, parts, hops, index + 1, follow, t + 1);
        } else if link.Ok? && hops < MAX_HOPS {
          WalkAsksOnly(w, fs, other, who, Spliced(parts, index, link.value.value), hops + 1, 0, follow, t + 1);
        }
      } else if VirtualTarget(who, here).None? {
        WalkAsksOnly(w, fs, other, who, parts, hops, index + 1, follow, t);
      }
    }
  }

  /** These are all the questions: two filesystems that agree on them resolve alike, however they
      differ elsewhere. */
  lemma AskedIsAll(w: World, fs: Fs, other: Fs, who: Who, base: string, path: string, follow: bool)
    requires Agree(fs, other, Asked(w, fs, who, base, path, follow))
    ensures Resolved(w, fs, who, base, path, follow) == Resolved(w, other, who, base, path, follow)
  {
    hide Walk, WalkAsks, Classify, Join, Normalized;
    if |path| <= MAX_STR {
      WalkAsksOnly(w, fs, other, who, Normalized(base, path), 0, 0, follow, 0);
    }
  }

  /** A path put to a mount is normalized, and with the mount point makes up a clean path of which
      that mount is the owner. */
  ghost predicate Inside(w: World, mount: nat, rel: string) {
    && mount < |w.mounts|
    && Join(Normalized("/", rel)) == rel
    && exists parts: Parts ::
         && Clean(parts) && Paths.At(w.mounts[mount]) + Normalized("/", rel) == parts
         && Found(w.mounts, Join(parts), 0) == Some((mount, rel))
  }

  lemma FoundInside(w: World, parts: Parts)
    requires LongestFirst(w.mounts) && MountsOk(w.mounts) && Clean(parts)
    ensures var f := Found(w.mounts, Join(parts), 0); f.Some? ==> Inside(w, f.value.0, f.value.1)
  {
    hide Join, Normalized;
    FindIsLongest(w.mounts, parts);
    var f := Found(w.mounts, Join(parts), 0);
    if f.Some? {
      JoinRoundTrip(parts[|Paths.At(w.mounts[f.value.0])|..]);
    }
  }

  lemma AskInside(w: World, t: nat, who: Who, parts: Parts)
    requires LongestFirst(w.mounts) && MountsOk(w.mounts) && Clean(parts)
    ensures forall q :: q in LinkAsks(w, t, who, Join(parts)) ==> Inside(w, q.mount, q.rel)
    ensures forall q :: q in ClassifyAsks(w, t, who, Join(parts)) ==> Inside(w, q.mount, q.rel)
  {
    hide Join, VirtualTarget, Inside, LongestFirst, MountsOk, DeviceOf, ProcNode, IsVirtualDir;
    FoundInside(w, parts);
  }

  ghost predicate AllInside(w: World, asks: seq<Ask>) {
    forall q :: q in asks ==> Inside(w, q.mount, q.rel)
  }

  lemma InsideBoth(w: World, a: seq<Ask>, b: seq<Ask>)
    requires AllInside(w, a) && AllInside(w, b)
    ensures AllInside(w, a + b)
  {
    hide Inside;
  }

  lemma {:induction false} WalkAsksInside(w: World, fs: Fs, who: Who, parts: Parts, hops: nat, index: nat, follow: bool,
                                          t: nat)
    requires LongestFirst(w.mounts) && MountsOk(w.mounts) && Clean(parts) && index <= |parts| && hops <= MAX_HOPS
    ensures AllInside(w, WalkAsks(w, fs, who, parts, hops, index, follow, t))
    ensures var r := Walk(w, fs, who, parts, hops, index, follow, t);
      r.Ok? && r.value.Arrived? ==> Clean(r.value.parts)
    decreases MAX_HOPS - hops, |parts| - index
  {
    hide LinkAt, LinkAsks, ClassifyAsks, Join, VirtualTarget, Spliced, LongestFirst, MountsOk, Inside;
    if index == |parts| {
      AskInside(w, t, who, parts);
    } else {
      var here := Join(parts[..index + 1]);
      AskInside(w, t, who, parts[..index + 1]);
      if index + 1 < |parts| || follow {
        var link := LinkAt(w, fs, t, who, here);
        if link == Ok(None) {
          WalkAsksInside(w, fs, who, parts, hops, index + 1, follow, t + 1);
          InsideBoth(w, LinkAsks(w, t, who, here), WalkAsks(w, fs, who, parts, hops, index + 1, follow, t + 1));
        } else if link.Ok? && hops < MAX_HOPS {
          var next := Spliced(parts, index, link.value.value);
          SplicedIsClean(parts, index, link.value.value);
          WalkAsksInside(w, fs, who, next, hops + 1, 0, follow, t + 1);
          InsideBoth(w, LinkAsks(w, t, who, here), WalkAsks(w, fs, who, next, hops + 1, 0, follow, t + 1));
        } else {
          InsideBoth(w, LinkAsks(w, t, who, here), []);
        }
      } else if VirtualTarget(who, here).None? {
        WalkAsksInside(w, fs, who, parts, hops, index + 1, follow, t);
      }
    }
  }

  /** On every filesystem and for every path whatever, each question put to a filesystem, and the
      answer if it is a mounted node, is about a normalized path inside the mount asked: `..` never
      reaches a filesystem, not by way of a link either. */
  lemma ProbesAreNormalized(w: World, fs: Fs, who: Who, base: string, path: string, follow: bool)
    requires LongestFirst(w.mounts) && MountsOk(w.mounts)
    ensures forall q :: q in Asked(w, fs, who, base, path, follow) ==> Inside(w, q.mount, q.rel)
    ensures var r := Resolved(w, fs, who, base, path, follow);
      r.Ok? && r.value.Mounted? ==> Inside(w, r.value.mount, r.value.rel)
  {
    hide Walk, WalkAsks, Join, Normalized, Inside, LongestFirst, MountsOk, DeviceOf, ProcNode, IsVirtualDir,
      IsMountParent;
    var parts := Normalized(base, path);
    NormalizedIsClean(base, path);
    WalkAsksInside(w, fs, who, parts, 0, 0, follow, 0);
    var r := Walk(w, fs, who, parts, 0, 0, follow, 0);
    if r.Ok? && r.value.Arrived? {
      FoundInside(w, r.value.parts);
      NotMounted(who, Join(r.value.parts));
    }
  }

  lemma NotMounted(who: Who, guest: string)
    ensures var n := ProcNode(who, guest); n.Some? ==> !n.value.Mounted?
  {
    hide Decimal, ParseInt;
  }
}
