/** What reference counting guarantees on every run of a session. */
module RefTheorems {
  import opened Base
  import opened Slabs
  import opened Fds
  import opened Kernel
  import opened Syscalls
  import opened Machine
  import opened References
  import opened CallFrames
  import opened RefCalls
  import opened PipeCalls
  import opened SessionRefs
  import opened Books

  /** A session as `spawn_first` leaves it. */
  datatype Setup = Setup(limits: Limits, program: nat, exe: string, argv: seq<seq<byte>>,
    envp: seq<seq<byte>>, cwd: string,
                         launch: Launch)

  function Begin(u: Setup): Option<Session> {
    SpawnFirst(u.limits, u.program, u.exe, u.argv, u.envp, u.cwd, u.launch)
  }

  /** A standard stream whose descriptor did not fit is a reference nobody holds. */
  ghost function LostAtStart(u: Setup, k: nat): nat {
    Unit(u.limits.openFiles <= k < 3)
  }

  ghost function Lost(u: Setup, moves: seq<Move>, k: nat): nat
    requires Begin(u).Some?
  {
    LostAtStart(u, k) + LostAlong(Begin(u).value, moves, k)
  }

  ghost function LostReaders(s: Session, moves: seq<Move>, p: nat): nat {
    if |moves| == 0 then 0
    else LostReaders(s, moves[..|moves| - 1], p) + LostReaderBy(Run(s, moves[..|moves| - 1]), moves[|moves| - 1], p)
  }

  ghost function LostWriters(s: Session, moves: seq<Move>, p: nat): nat {
    if |moves| == 0 then 0
    else LostWriters(s, moves[..|moves| - 1], p) + LostWriterBy(Run(s, moves[..|moves| - 1]), moves[|moves| - 1], p)
  }

  /** At no moment do the slots naming one description, and the references to it that were lost,
      come to as many as a 32-bit count can hold. */
  ghost predicate Tame(u: Setup, moves: seq<Move>)
    requires Begin(u).Some?
  {
    && (|moves| > 0 ==> Tame(u, moves[..|moves| - 1]))
    && forall k: nat :: SlotCount(Run(Begin(u).value, moves), k) + Lost(u, moves, k) < U32_MAX
  }

  /** Nothing was lost: no allocation of a descriptor or description failed where the kernel had
      already taken the reference. */
  ghost predicate NothingLost(u: Setup, moves: seq<Move>)
    requires Begin(u).Some?
  {
    && (forall k: nat :: Lost(u, moves, k) == 0)
    && (forall p: nat :: LostReaders(Begin(u).value, moves, p) == 0 && LostWriters(Begin(u).value, moves, p) == 0)
  }

  /** Some table of the session names a description of this kind. */
  ghost predicate Held(s: Session, kind: DescKind) {
    exists k: nat :: SlotCount(s, k) > 0 && Live(s.sh.descs, k) && At(s.sh.descs, k).value.kind == kind
  }

  // ----- the beginning -------------------------------------------------------------------

  lemma StreamBooks(sh: Shared, fds: Slots, d: Desc, k: nat, lost: nat, n: nat)
    requires DescsOk(sh.descs) && d.refs == 1 && d.kind.Other? && sh.descs.free == []
    requires |sh.descs.slots| == n && (forall j :: 0 <= j < |fds| ==> fds[j].Some?)
    requires |fds| == Min(n, sh.limits.openFiles)
    requires RefAt(sh.descs, k) == Count(fds, k) + lost
    ensures var (sh', fds', ok) := AddStream(sh, fds, d);
      ok ==>
        && DescsOk(sh'.descs) && sh'.descs.free == [] && |sh'.descs.slots| == n + 1
        && (forall j :: 0 <= j < |fds'| ==> fds'[j].Some?) && |fds'| == Min(n + 1, sh.limits.openFiles)
        && sh' == sh.(descs := sh'.descs)
        && RefAt(sh'.descs, k) == Count(fds', k) + lost + Unit(k == n && sh.limits.openFiles <= n)
        && (forall kind: DescKind :: !kind.Other? ==> Ends(sh'.descs.slots, kind) == Ends(sh.descs.slots, kind))
  {
    hide Sound;
    InsertedRefs(sh.descs, d, sh.limits.openFiles * 4, k);
    forall kind: DescKind | !kind.Other?
      ensures Inserted(sh.descs, d, sh.limits.openFiles * 4).1.Some? ==>
        Ends(Inserted(sh.descs, d, sh.limits.openFiles * 4).0.slots, kind) == Ends(sh.descs.slots, kind)
    {
      EndsInserted(sh.descs, d, sh.limits.openFiles * 4, kind);
    }
    if n < sh.limits.openFiles {
      AllOpen(fds, 0, sh.limits.openFiles);
      CountPlaced(fds, n, Fd(n, false), k);
    } else {
      AllOpen(fds, 0, sh.limits.openFiles);
    }
  }

  lemma {:induction false} AllOpen(fds: Slots, min: nat, max: nat)
    requires forall j :: 0 <= j < |fds| ==> fds[j].Some?
    requires min <= |fds|
    ensures LowestFree(fds, min, max) == if |fds| < max then Some(|fds|) else None
    decreases max - min
  {
    if min < max && min < |fds| {
      AllOpen(fds, min + 1, max);
    }
  }

  lemma StreamsBooks(u: Setup, k: nat, p: nat)
    requires Streams(EmptyShared(u.limits)).Some?
    ensures var (sh, fds) := Streams(EmptyShared(u.limits)).value;
      && DescsOk(sh.descs) && sh == EmptyShared(u.limits).(descs := sh.descs)
      && RefAt(sh.descs, k) == Count(fds, k) + LostAtStart(u, k)
      && Ends(sh.descs.slots, PipeRead(p)) == 0 && Ends(sh.descs.slots, PipeWrite(p)) == 0
  {
    hide AddStream, DescsOk;
    var sh0 := EmptyShared(u.limits);
    var d0, d1, d2 := Stream(Stdin, ReadOnly), Stream(Stdout(1), WriteOnly), Stream(Stdout(2), WriteOnly);
    var lost0 := Unit(k == 0 && u.limits.openFiles <= 0);
    var lost1 := lost0 + Unit(k == 1 && u.limits.openFiles <= 1);
    EmptyBooks(u.limits, k);
    StreamBooks(sh0, [], d0, k, 0, 0);
    var (sh1, fds1, ok1) := AddStream(sh0, [], d0);
    StreamBooks(sh1, fds1, d1, k, lost0, 1);
    var (sh2, fds2, ok2) := AddStream(sh1, fds1, d1);
    StreamBooks(sh2, fds2, d2, k, lost1, 2);
  }

  lemma EmptyBooks(limits: Limits, k: nat)
    ensures var sh := EmptyShared(limits); DescsOk(sh.descs) && RefAt(sh.descs, k) == 0
  {
  }

  /** Process 1 starts with its books balanced. */
  lemma BeginBooks(u: Setup, k: nat, p: nat)
    requires Begin(u).Some?
    ensures var s := Begin(u).value;
      Orderly(s) && Accounted(s, k, LostAtStart(u, k)) && PipesOk(s.sh, p, 0, 0)
  {
    hide Start, Streams, LostAtStart;
    StreamsBooks(u, k, p);
    var (sh, fds) := Streams(EmptyShared(u.limits)).value;
    var s0 := Session(sh.(nextPid := 2, table := [NewRecord(1, 0, 1, 1)]), [], None);
    var spawn := Spawn(FirstTask(fds, u.cwd), u.program, u.exe, u.argv, u.envp);
    StartRefs(s0, spawn, u.launch, k, LostAtStart(u, k));
    StartPipes(s0, spawn, u.launch, p, 0, 0);
    StartOrderly(s0, spawn, u.launch);
  }

  // ----- every run -----------------------------------------------------------------------

  /** The books of a session stay balanced on every run: each description's references are the
      slots that name it plus those the run lost, each pipe's ends its live descriptions plus
      those the run lost. */
  lemma {:induction false} RunBooks(u: Setup, moves: seq<Move>)
    requires Begin(u).Some? && Tame(u, moves)
    ensures var s0 := Begin(u).value; var s := Run(s0, moves);
      && Orderly(s)
      && (forall k: nat :: Accounted(s, k, Lost(u, moves, k)))
      && (forall p: nat :: PipesOk(s.sh, p, LostReaders(s0, moves, p), LostWriters(s0, moves, p)))
  {
    hide Accounted, PipesOk, Step, LostBy, LostReaderBy, LostWriterBy, Begin, LostAtStart;
    var s0 := Begin(u).value;
    if |moves| == 0 {
      BeginBooks(u, 0, 0);
      forall k: nat ensures Accounted(s0, k, Lost(u, moves, k)) {
        BeginBooks(u, k, 0);
      }
      forall p: nat ensures PipesOk(s0.sh, p, 0, 0) {
        BeginBooks(u, 0, p);
      }
    } else {
      var before, m := moves[..|moves| - 1], moves[|moves| - 1];
      RunBooks(u, before);
      var s := Run(s0, before);
      StepOrderly(s, m);
      forall k: nat ensures Accounted(Step(s, m), k, Lost(u, moves, k)) {
        assert SlotCount(s, k) + Lost(u, before, k) < U32_MAX;
        assert SlotCount(Run(s0, moves), k) + Lost(u, moves, k) < U32_MAX;
        StepRefs(s, m, k, Lost(u, before, k), LostReaders(s0, before, 0), LostWriters(s0, before, 0));
      }
      forall p: nat ensures PipesOk(Step(s, m).sh, p, LostReaders(s0, moves, p), LostWriters(s0, moves, p)) {
        StepPipes(s, m, p, LostReaders(s0, before, p), LostWriters(s0, before, p));
      }
    }
  }

  /** Every key in any table is live, with at least as many references as slots naming it, and if
      it is a pipe end its pipe is live and still counts it. */
  lemma SlotsAreLive(u: Setup, moves: seq<Move>, k: nat)
    requires Begin(u).Some? && Tame(u, moves)
    requires SlotCount(Run(Begin(u).value, moves), k) > 0
    ensures var s := Run(Begin(u).value, moves);
      && Live(s.sh.descs, k) && At(s.sh.descs, k).value.refs >= SlotCount(s, k)
      && match At(s.sh.descs, k).value.kind
         case PipeRead(p) => Live(s.sh.pipes, p) && At(s.sh.pipes, p).value.readers > 0
         case PipeWrite(p) => Live(s.sh.pipes, p) && At(s.sh.pipes, p).value.writers > 0
         case Other(_) => true
  {
    hide Begin, Run;
    RunBooks(u, moves);
    var s := Run(Begin(u).value, moves);
    assert Accounted(s, k, Lost(u, moves, k));
    EndCounted(s.sh.descs, k);
    match At(s.sh.descs, k).value.kind
    case PipeRead(p) => assert PipesOk(s.sh, p, LostReaders(Begin(u).value, moves, p),
      LostWriters(Begin(u).value, moves, p));
    case PipeWrite(p) => assert PipesOk(s.sh, p, LostReaders(Begin(u).value, moves, p),
      LostWriters(Begin(u).value, moves, p));
    case Other(_) =>
  }

  /** While any table anywhere names a writing end, no read of the pipe reports end of file; while
      any names a reading end, no write reports a broken pipe. */
  lemma NoFalseEnd(u: Setup, moves: seq<Move>, p: nat, nonblock: bool, len: nat, pid: int, data: seq<byte>)
    requires Begin(u).Some? && Tame(u, moves) && len > 0
    ensures var s := Run(Begin(u).value, moves);
      && (Held(s, PipeWrite(p)) ==> ReadPipe(s.sh, p, nonblock, len).0 != Got([]))
      && (Held(s, PipeRead(p)) ==> WritePipe(s.sh, pid, p, nonblock, data).0 != NoWrite(PIPE))
  {
    hide Begin, Run;
    var s := Run(Begin(u).value, moves);
    if Held(s, PipeWrite(p)) {
      var k: nat :| SlotCount(s, k) > 0 && Live(s.sh.descs, k) && At(s.sh.descs, k).value.kind == PipeWrite(p);
      SlotsAreLive(u, moves, k);
      var q := At(s.sh.pipes, p).value;
      if |q.data| > 0 {
        assert |q.data[..Min(|q.data|, len)]| > 0;
      }
    }
    if Held(s, PipeRead(p)) {
      var k: nat :| SlotCount(s, k) > 0 && Live(s.sh.descs, k) && At(s.sh.descs, k).value.kind == PipeRead(p);
      SlotsAreLive(u, moves, k);
    }
  }

  /** Exactly when the run lost no reference to a description does its count equal its slots. */
  lemma CountIsSlots(u: Setup, moves: seq<Move>, k: nat)
    requires Begin(u).Some? && Tame(u, moves)
    ensures var s := Run(Begin(u).value, moves);
      RefAt(s.sh.descs, k) == SlotCount(s, k) <==> Lost(u, moves, k) == 0
  {
    hide Begin, Run;
    RunBooks(u, moves);
    assert Accounted(Run(Begin(u).value, moves), k, Lost(u, moves, k));
  }

  /** A live end of `kind` is named by some table when nothing was lost. */
  lemma {:induction false} EndIsHeld(s: Session, slots: seq<Option<Desc>>, kind: DescKind)
    requires slots <= s.sh.descs.slots
    requires DescsOk(s.sh.descs) && forall k: nat :: RefAt(s.sh.descs, k) == SlotCount(s, k)
    ensures Ends(slots, kind) > 0 ==> Held(s, kind)
  {
    if |slots| > 0 {
      var n := |slots| - 1;
      EndIsHeld(s, slots[..n], kind);
      if IsKind(slots[n], kind) == 1 {
        assert Live(s.sh.descs, n) && RefAt(s.sh.descs, n) == SlotCount(s, n);
      }
    }
  }

  /** When nothing was lost, end of file and broken pipe are exact: a pipe is live while some
      table names an end of it; reading it empty reports end of file exactly when no table
      anywhere names a writing end; writing to it fails exactly when none names a reading end. */
  lemma EndsAreExact(u: Setup, moves: seq<Move>, p: nat, nonblock: bool, len: nat, pid: int, data: seq<byte>)
    requires Begin(u).Some? && Tame(u, moves) && NothingLost(u, moves) && len > 0
    ensures var s := Run(Begin(u).value, moves);
      && (Live(s.sh.pipes, p) <==> Held(s, PipeRead(p)) || Held(s, PipeWrite(p)))
      && (Live(s.sh.pipes, p) ==>
            && (ReadPipe(s.sh, p, nonblock, len).0 == Got([]) <==>
              At(s.sh.pipes, p).value.data == [] && !Held(s, PipeWrite(p)))
            && (WritePipe(s.sh, pid, p, nonblock, data).0 == NoWrite(PIPE) <==> !Held(s, PipeRead(p))))
  {
    hide Begin, Run, Ends;
    var s0 := Begin(u).value;
    var s := Run(s0, moves);
    RunBooks(u, moves);
    forall k: nat ensures RefAt(s.sh.descs, k) == SlotCount(s, k) {
      assert Accounted(s, k, Lost(u, moves, k));
    }
    assert PipesOk(s.sh, p, LostReaders(s0, moves, p), LostWriters(s0, moves, p));
    EndIsHeld(s, s.sh.descs.slots, PipeRead(p));
    EndIsHeld(s, s.sh.descs.slots, PipeWrite(p));
    NoFalseEnd(u, moves, p, nonblock, len, pid, data);
    HeldIsCounted(s, PipeRead(p));
    HeldIsCounted(s, PipeWrite(p));
    if Live(s.sh.pipes, p) && |At(s.sh.pipes, p).value.data| > 0 {
      var d := At(s.sh.pipes, p).value.data;
      assert |d[..Min(|d|, len)]| > 0;
    }
  }

  lemma HeldIsCounted(s: Session, kind: DescKind)
    ensures Held(s, kind) ==> Ends(s.sh.descs.slots, kind) > 0
  {
    if Held(s, kind) {
      var k: nat :| SlotCount(s, k) > 0 && Live(s.sh.descs, k) && At(s.sh.descs, k).value.kind == kind;
      EndCounted(s.sh.descs, k);
    }
  }

  /** Once no process runs and none waits to start, a description is left over exactly if the run
      lost a reference to it; when nothing was lost both slabs are empty. */
  lemma QuiescentIsEmpty(u: Setup, moves: seq<Move>)
    requires Begin(u).Some? && Tame(u, moves)
    requires Run(Begin(u).value, moves).procs == [] && Run(Begin(u).value, moves).sh.spawn == []
    ensures var s := Run(Begin(u).value, moves);
      && (forall k: nat :: Live(s.sh.descs, k) <==> Lost(u, moves, k) > 0)
      && (NothingLost(u, moves) ==> forall p: nat :: !Live(s.sh.descs, p) && !Live(s.sh.pipes, p))
  {
    hide Begin, Run;
    var s0 := Begin(u).value;
    var s := Run(s0, moves);
    RunBooks(u, moves);
    forall k: nat ensures Live(s.sh.descs, k) <==> Lost(u, moves, k) > 0 {
      assert Accounted(s, k, Lost(u, moves, k));
    }
    if NothingLost(u, moves) {
      forall p: nat ensures !Live(s.sh.pipes, p) {
        forall k: nat ensures RefAt(s.sh.descs, k) == SlotCount(s, k) {
          assert Accounted(s, k, Lost(u, moves, k));
        }
        assert PipesOk(s.sh, p, LostReaders(s0, moves, p), LostWriters(s0, moves, p));
        EndIsHeld(s, s.sh.descs.slots, PipeRead(p));
        EndIsHeld(s, s.sh.descs.slots, PipeWrite(p));
      }
    }
  }
}
