/** Short runs from the beginning of a session that show what the theorems leave open does happen:
    a reference lost for good, and a session called deadlocked that one byte of input gets going. */
module Witnesses {
  import opened Base
  import opened Slabs
  import opened Sums
  import opened Fds
  import opened Kernel
  import opened Syscalls
  import opened Machine
  import opened References
  import opened RefCalls
  import opened SessionRefs
  import opened RefTheorems
  import opened CensusRuns
  import opened Stutter
  import opened Deadlock
  import opened DeadlockInput

  /** A session whose first program is a guest of one page, with room for `n` descriptors. */
  function Small(n: nat): Setup {
    Setup(Limits(16777216, 16777216, 8, n, 65536), 0, "sh", [], [], "/", GuestRuns(1, true))
  }

  /** The three streams, by key. */
  const STREAMS: SlabState<Desc> :=
    SlabState([Some(Stream(Stdin, ReadOnly)), Some(Stream(Stdout(1), WriteOnly)), Some(Stream(Stdout(2), WriteOnly))],
              [])

  const THREE: Slots := [Some(Fd(0, false)), Some(Fd(1, false)), Some(Fd(2, false))]

  /** The first process once it runs. */
  function First(fds: Slots): Proc {
    var task := ResetHandlers(FirstTask(fds, "/")).(exe := "sh", comm := []);
    Proc(Ctx(task, [], None, FRESH_EXEC), Inst(17 * PAGE, PAGE, []), Guest, Running, 17 * PAGE)
  }

  function Opening(n: nat): Session {
    Session(EmptyShared(Small(n).limits).(descs := STREAMS, nextPid := 2, table := [NewRecord(1, 0, 1, 1)],
                                          memoryUsed := 17 * PAGE),
            [First(THREE)], None)
  }

  lemma StreamsAre(n: nat)
    requires n >= 3
    ensures var sh := EmptyShared(Small(n).limits);
      Streams(sh) == Some((sh.(descs := STREAMS), THREE))
  {
    hide Placed, LowestFree;
    var sh := EmptyShared(Small(n).limits);
    var d0, d1, d2 := Stream(Stdin, ReadOnly), Stream(Stdout(1), WriteOnly), Stream(Stdout(2), WriteOnly);
    NextFree([], n, 0);
    NextFree([Some(Fd(0, false))], n, 1);
    NextFree([Some(Fd(0, false)), Some(Fd(1, false))], n, 2);
    assert [] + [Some(d0)] == [Some(d0)] && [] + [Some(Fd(0, false))] == [Some(Fd(0, false))];
    assert Inserted(sh.descs, d0, n * 4) == (SlabState([Some(d0)], []), Some(0));
    assert AddStream(sh, [], d0) == (sh.(descs := SlabState([Some(d0)], [])), [Some(Fd(0, false))], true);
    var sh1 := sh.(descs := SlabState([Some(d0)], []));
    assert [Some(d0)] + [Some(d1)] == [Some(d0), Some(d1)];
    assert [Some(Fd(0, false))] + [Some(Fd(1, false))] == [Some(Fd(0, false)), Some(Fd(1, false))];
    assert Inserted(sh1.descs, d1, n * 4) == (SlabState([Some(d0), Some(d1)], []), Some(1));
    assert AddStream(sh1, [Some(Fd(0, false))], d1)
        == (sh.(descs := SlabState([Some(d0), Some(d1)], [])), [Some(Fd(0, false)), Some(Fd(1, false))], true);
    var sh2 := sh.(descs := SlabState([Some(d0), Some(d1)], []));
    assert [Some(d0), Some(d1)] + [Some(d2)] == STREAMS.slots;
    assert [Some(Fd(0, false)), Some(Fd(1, false))] + [Some(Fd(2, false))] == THREE;
    assert Inserted(sh2.descs, d2, n * 4) == (STREAMS, Some(2));
    assert AddStream(sh2, [Some(Fd(0, false)), Some(Fd(1, false))], d2) == (sh.(descs := STREAMS), THREE, true);
  }

  lemma NextFree(fds: Slots, n: nat, key: nat)
    requires |fds| < n && forall i :: 0 <= i < |fds| ==> fds[i].Some?
    ensures Allocated(fds, Fd(key, false), 0, n) == (fds + [Some(Fd(key, false))], Ok(|fds|))
  {
    AllOpen(fds, 0, n);
    assert Holes(1) == [None];
    assert Placed(fds, |fds|, Fd(key, false)) == fds + [Some(Fd(key, false))];
  }

  lemma Opens(n: nat)
    requires n >= 3
    ensures Begin(Small(n)) == Some(Opening(n))
  {
    hide Streams, ResetHandlers, ReleaseFds;
    StreamsAre(n);
    var u := Small(n);
    var sh := EmptyShared(u.limits).(descs := STREAMS, nextPid := 2, table := [NewRecord(1, 0, 1, 1)]);
    var spawn := Spawn(FirstTask(THREE, "/"), 0, "sh", [], []);
    assert u.launch.Size() == PAGE;
    assert Charged(sh, 17 * PAGE) == (sh.(memoryUsed := 17 * PAGE), true);
    assert AddU64(PAGE, ASYNCIFY_PAGES * PAGE) == 17 * PAGE;
    assert [] + [First(THREE)] == [First(THREE)];
    assert FreshCtx(spawn) == First(THREE).ctx;
    assert Start(Session(sh, [], None), spawn, u.launch) == (Opening(n), true);
  }

  lemma RunOne(s: Session, m: Move)
    ensures Run(s, [m]) == Step(s, m)
  {
    assert [m][..0] == [];
    assert Run(s, []) == s;
  }

  lemma RunTwo(s: Session, a: Move, b: Move)
    ensures Run(s, [a, b]) == Step(Step(s, a), b)
  {
    RunOne(s, a);
    assert [a, b][..1] == [a];
  }

  // ----- a reference lost ----------------------------------------------------------------

  const DUP: Move := Syscall(0, Files(DupAt(0, 0, false)), 0)
  const EXIT: Move := Syscall(0, Life(ExitCall(0)), 0)

  /** With every descriptor in use, `dup` fails and keeps the reference it took. */
  lemma DupFails()
    ensures var s := Opening(3); var after := Step(s, DUP);
      && after.procs == s.procs && after.sh.spawn == []
      && after.sh.table == s.sh.table && after.sh.pipes == s.sh.pipes
      && RefAt(s.sh.descs, 0) == 1 && RefAt(after.sh.descs, 0) == 2
      && after.sh.descs == Stored(STREAMS, 0, Stream(Stdin, ReadOnly).(refs := 2))
      && LostBy(s, DUP, 0) == 1
  {
    var s := Opening(3);
    assert LowestFree(THREE, 0, 3) == None;
    assert Enabled(s, DUP);
    var c := Cpu(s.sh, s.procs[0].ctx, s.procs[0].inst);
    var sh := c.sh.(syscalls := 1, descs := Stored(STREAMS, 0, Stream(Stdin, ReadOnly).(refs := 2)));
    assert Handle(Counted(c), DUP.call, 0) == (Fail(MFILE), c.(sh := sh));
    assert Finished(c.(sh := sh)) == c.(sh := sh);
  }

  /** A session that ends with a description left over: its first process fills its table, fails to
      `dup`, and exits. Nobody runs, nobody waits to start, and the reference is still counted. */
  lemma DupLeaks()
    ensures var u := Small(3); var moves := [DUP, EXIT];
      && Begin(u).Some?
      && Lost(u, moves, 0) == 1
      && var s := Run(Begin(u).value, moves);
         s.procs == [] && s.sh.spawn == [] && Live(s.sh.descs, 0) && !Live(s.sh.descs, 1) && !Live(s.sh.descs, 2)
  {
    hide Begin, Step, LostBy;
    var u, moves := Small(3), [DUP, EXIT];
    Opens(3);
    RunTwo(Opening(3), DUP, EXIT);
    DupFails();
    ExitLeaves(Step(Opening(3), DUP));
    assert moves[..1] == [DUP] && [DUP][..0] == [];
    RunOne(Opening(3), DUP);
    assert Run(Opening(3), []) == Opening(3);
    assert LostAlong(Opening(3), [], 0) == 0;
    assert LostAlong(Opening(3), [DUP], 0) == 1;
    assert LostBy(Step(Opening(3), DUP), EXIT, 0) == 0 by { NothingByExit(Step(Opening(3), DUP)); }
  }

  lemma NothingByExit(s: Session)
    ensures LostBy(s, EXIT, 0) == 0
  {
  }

  /** The process with the reference too many exits: two descriptions go, the third stays. */
  lemma ExitLeaves(s: Session)
    requires s.procs == Opening(3).procs && s.sh.spawn == []
    requires s.sh.descs == Stored(STREAMS, 0, Stream(Stdin, ReadOnly).(refs := 2))
    ensures var after := Step(s, EXIT);
      && after.procs == [] && after.sh.spawn == []
      && Live(after.sh.descs, 0) && !Live(after.sh.descs, 1) && !Live(after.sh.descs, 2)
  {
    hide ExitTable, FinishProcess, Dispatch, Uncharged, TaskEnds;
    var call := EXIT.call;
    var c := CpuAt(s, 0);
    ExitEnds(c);
    var served := s.(sh := Counted(c).sh, procs := s.procs[0 := s.procs[0].(resume := Running)]);
    assert Step(s, EXIT) == FinishProcess(served, 0, 0);
    LastEnds(served);
  }

  lemma ExitEnds(c: Cpu)
    requires c.ctx.vforkStack == []
    ensures Dispatch(c, EXIT.call, 0) == (Exits(0), Counted(c))
  {
    hide Finished, Interrupted;
  }

  /** The end of the only process, with no vfork parents in it. */
  lemma LastEnds(s: Session)
    requires s.procs == [First(THREE)] && s.sh.spawn == []
    requires s.sh.descs == Stored(STREAMS, 0, Stream(Stdin, ReadOnly).(refs := 2))
    ensures var after := FinishProcess(s, 0, 0);
      && after.procs == [] && after.sh.spawn == []
      && Live(after.sh.descs, 0) && !Live(after.sh.descs, 1) && !Live(after.sh.descs, 2)
  {
    hide ExitTable, ReleaseDesc, Drained;
    var p := s.procs[0];
    var sh := Uncharged(s.sh, AddU64(p.charged, p.ctx.exec.grown));
    DrainedThree();
    assert FinishProcess(s, 0, 0).sh == TaskEnds(sh, p.ctx.task, 0);
    ReleaseThree(sh);
  }

  lemma DrainedThree()
    ensures Drained(THREE) == [0, 1, 2]
  {
    var one, two := [Some(Fd(0, false))], [Some(Fd(0, false)), Some(Fd(1, false))];
    assert one[..0] == [] && two[..1] == one && THREE[..2] == two;
    assert Drained([]) == [] && Drained(one) == [] + [0] && Drained(two) == Drained(one) + [1];
    assert Drained(THREE) == Drained(two) + [2];
  }

  lemma ReleaseThree(sh: Shared)
    requires sh.descs == Stored(STREAMS, 0, Stream(Stdin, ReadOnly).(refs := 2))
    ensures var after := ReleaseAll(sh, [0, 1, 2]);
      Live(after.descs, 0) && !Live(after.descs, 1) && !Live(after.descs, 2) && after.spawn == sh.spawn
  {
    hide ReleaseDesc, Sound;
    var after := ReleaseAll(sh, [0, 1, 2]);
    TwiceOk();
    ReleaseAllFrame(sh, [0, 1, 2]);
    forall k: nat ensures RefAt(after.descs, k) == Unit(k == 0) && DescsOk(after.descs) {
      assert [0, 1, 2][..2] == [0, 1] && [0, 1][..1] == [0] && [0][..0] == [];
      assert Occurs([0], k) == Occurs([], k) + Unit(k == 0) && Occurs([0, 1], k) == Occurs([0], k) + Unit(k == 1);
      assert Occurs([0, 1, 2], k) == Occurs([0, 1], k) + Unit(k == 2);
      ReleaseAllRefs(sh, [0, 1, 2], k);
    }
    assert RefAt(after.descs, 0) == 1 && RefAt(after.descs, 1) == 0 && RefAt(after.descs, 2) == 0;
  }

  lemma TwiceOk()
    ensures var descs := Stored(STREAMS, 0, Stream(Stdin, ReadOnly).(refs := 2));
      && DescsOk(descs)
      && forall k: nat :: RefAt(descs, k) == if k == 0 then 2 else Unit(k < 3)
  {
  }

  // ----- a deadlock that is none ---------------------------------------------------------

  /** A state with one guest, which waits in `call`. */
  ghost predicate OnlyWaits(k: Session, call: Call) {
    && |k.procs| == 1 && k.sh.spawn == [] && Settled(k)
    && k.procs[0].body.Guest? && k.procs[0].resume == BlockedIn(call)
  }

  const SELECT: Call := Wait(Pselect([PollFd(0, true, false)], None, true))
  const POLL: Call := Wait(Ppoll([PollFd(3, true, false)], None, true))

  lemma ServeWaits(k: Session, call: Call)
    requires Enabled(k, Syscall(0, call, 0)) || Enabled(k, Retry(0, call, 0))
    requires Dispatch(CpuAt(k, 0), call, 0) == (Block, Counted(CpuAt(k, 0)))
    ensures Serve(k, 0, call, 0)
         == k.(sh := Counted(CpuAt(k, 0)).sh, procs := k.procs[0 := k.procs[0].(resume := BlockedIn(call))])
  {
    hide Dispatch, FinishProcess;
  }

  /** An untimed `pselect` on standard input, with nothing there to read, waits and says nothing. */
  lemma SelectWaits(c: Cpu)
    requires c.ctx.task.fds == THREE && c.sh.descs == STREAMS && c.sh.stdin == StdinBuffer([], false, false)
    requires !Interrupted(c.sh, c.ctx)
    ensures Dispatch(c, SELECT, 0) == (Block, Counted(c))
  {
    hide Interrupted;
    var polls := [PollFd(0, true, false)];
    assert polls[..Min(|polls|, POLL_MAX)] == polls && polls[1..] == [];
    var sh := Counted(c).sh;
    assert PollFdReady(sh, c.ctx.task, polls[0]) == NOT_READY;
    assert ReadyCount(sh, c.ctx.task, [], true) == 0 && ReadyCount(sh, c.ctx.task, polls, true) == 0;
    IdleTick(c.sh);
    IdleSignals(c.sh, sh, c.ctx);
  }

  lemma OneStuck(k: Session, call: Call)
    requires OnlyWaits(k, call) && Retries(call, call)
    requires Dispatch(CpuAt(k, 0), call, 0).0.Block?
    ensures var tries := [Attempt(call, 0)];
      AllStuck(k, tries, 1) && PassTo(k, tries, 1) == Serve(k, 0, call, 0)
  {
    hide Dispatch, FinishProcess;
    var tries := [Attempt(call, 0)];
    assert PassTo(k, tries, 0) == k && AllStuck(k, tries, 0);
  }

  /** A session whose only process makes a call that waits unheard: a pass later it is called
      deadlocked, and is not. */
  ghost predicate CalledDead(k: Session, call: Call) {
    var tries := [Attempt(call, 0)];
    && Settled(k) && k.sh.spawn == [] && |tries| == |k.procs| && AllStuck(k, tries, |tries|)
    && WhyIdle(PassTo(k, tries, |tries|).sh).0 == Deadlocked
    && SomeoneUnheard(PassTo(k, tries, |tries|))
  }

  /** The only process of such a session, about to make the call. */
  ghost predicate AboutTo(s: Session, call: Call) {
    && |s.procs| == 1 && s.procs[0].body.Guest? && s.procs[0].resume.Running? && Settled(s) && s.sh.spawn == []
    && !s.sh.vfsPending && !s.sh.hostPending && Earliest(s.sh.table) == None && !s.sh.stdin.wanted
    && Retries(call, call) && ListensUnheard(s.sh, s.procs[0].ctx, call)
    && var c := CpuAt(s, 0);
       && Dispatch(c, call, 0) == (Block, Counted(c))
       && Dispatch(Counted(c), call, 0) == (Block, Counted(Counted(c)))
  }

  lemma WaitsUnheard(s: Session, call: Call)
    requires AboutTo(s, call)
    ensures CalledDead(Step(s, Syscall(0, call, 0)), call)
  {
    hide Dispatch, FinishProcess, Retries, AllStuck;
    ServeWaits(s, call);
    var k := Step(s, Syscall(0, call, 0));
    assert CpuAt(k, 0) == Counted(CpuAt(s, 0));
    ServeWaits(k, call);
    OneStuck(k, call);
    var e := Serve(k, 0, call, 0);
    SameListeners(s.sh, e.sh, s.procs[0].ctx, call, call);
    assert e.procs[0].ctx == s.procs[0].ctx && e.procs[0].resume == BlockedIn(call);
    assert ListensUnheard(e.sh, e.procs[0].ctx, call);
    assert PassTo(k, [Attempt(call, 0)], 1) == e;
  }

  /** From its first call on, a session whose only process waits in `pselect` for standard input is
      called deadlocked, and is not: one byte of input gets it going. */
  lemma PselectUnheard()
    ensures var u := Small(16); var moves := [Syscall(0, SELECT, 0)];
      Begin(u).Some? && PidsLeft(Begin(u).value, moves) && CalledDead(Run(Begin(u).value, moves), SELECT)
  {
    hide Begin, Dispatch, FinishProcess, PollFdReady, CalledDead;
    Opens(16);
    var s, m := Opening(16), Syscall(0, SELECT, 0);
    RunOne(s, m);
    SelectWaits(CpuAt(s, 0));
    SelectWaits(Counted(CpuAt(s, 0)));
    assert Earliest(s.sh.table) == None by { assert s.sh.table[..0] == []; }
    var polls := [PollFd(0, true, false)];
    assert polls[0] == PollFd(0, true, false) && AsksInput(s.sh, s.procs[0].ctx.task, polls[0]);
    assert AnyAsks(s.sh, s.procs[0].ctx.task, polls);
    WaitsUnheard(s, SELECT);
    ServeWaits(s, SELECT);
    assert PidsLeft(s, [m]) by { assert [m][..0] == []; assert Run(s, []) == s; }
  }

  /** Standard input on descriptor 3, and nothing on descriptor 0. */
  const MOVED: Slots := [None, Some(Fd(1, false)), Some(Fd(2, false)), Some(Fd(0, false))]

  const DUP_UP: Move := Syscall(0, Files(DupAt(0, 3, false)), 0)
  const SHUT: Move := Syscall(0, Files(Close(0)), 0)

  lemma PollWaits(c: Cpu)
    requires c.ctx.task.fds == MOVED && c.sh.descs == STREAMS && c.sh.stdin == StdinBuffer([], false, false)
    requires !Interrupted(c.sh, c.ctx)
    ensures Dispatch(c, POLL, 0) == (Block, Counted(c))
  {
    hide Interrupted;
    var polls := [PollFd(3, true, false)];
    assert polls[..Min(|polls|, POLL_MAX)] == polls && polls[1..] == [];
    var sh := Counted(c).sh;
    assert PollFdReady(sh, c.ctx.task, polls[0]) == NOT_READY;
    assert ReadyCount(sh, c.ctx.task, [], false) == 0 && ReadyCount(sh, c.ctx.task, polls, false) == 0;
    IdleTick(c.sh);
    IdleSignals(c.sh, sh, c.ctx);
  }

  /** The descriptions while two descriptors name standard input, and the table then. */
  const TWICE: SlabState<Desc> := Stored(STREAMS, 0, Stream(Stdin, ReadOnly).(refs := 2))
  const FOUR: Slots := [Some(Fd(0, false)), Some(Fd(1, false)), Some(Fd(2, false)), Some(Fd(0, false))]

  lemma InputTwice()
    ensures Step(Opening(16), DUP_UP)
         == Session(Opening(16).sh.(syscalls := 1, descs := TWICE), [First(FOUR)], None)
  {
    var s := Opening(16);
    var c := CpuAt(s, 0);
    assert LowestFree(THREE, 3, 16) == Some(3);
    assert Holes(1) == [None];
    assert Placed(THREE, 3, Fd(0, false)) == FOUR;
    var after := WithFds(c, FOUR).(sh := c.sh.(syscalls := 1, descs := TWICE));
    assert Handle(Counted(c), DUP_UP.call, 0) == (Value(3), after);
    assert Finished(after) == after;
  }

  lemma OneBack(sh: Shared)
    requires sh.descs == TWICE
    ensures ReleaseDesc(sh, 0) == sh.(descs := STREAMS)
  {
    assert STREAMS.slots[0 := Some(Stream(Stdin, ReadOnly))] == STREAMS.slots;
  }

  lemma InputShut(k: Session)
    requires k == Session(Opening(16).sh.(syscalls := 1, descs := TWICE), [First(FOUR)], None)
    ensures Step(k, SHUT) == Session(Opening(16).sh.(syscalls := 2), [First(MOVED)], None)
  {
    hide ReleaseDesc, Stored, BumpedOne;
    var d := CpuAt(k, 0);
    assert FOUR[0 := None] == MOVED;
    OneBack(Counted(d).sh);
    var after := WithFds(d, MOVED).(sh := Opening(16).sh.(syscalls := 2));
    assert Handle(Counted(d), SHUT.call, 0) == (Value(0), after);
    assert Finished(after) == after;
    assert Dispatch(d, SHUT.call, 0) == (Value(0), after);
    hide Dispatch, FinishProcess;
  }

  /** Moving standard input from descriptor 0 to descriptor 3. */
  lemma InputMoved()
    ensures Step(Step(Opening(16), DUP_UP), SHUT)
         == Session(Opening(16).sh.(syscalls := 2), [First(MOVED)], None)
  {
    hide Step;
    InputTwice();
    InputShut(Step(Opening(16), DUP_UP));
  }

  /** The same with `ppoll`, by a process that has standard input on another descriptor than 0. */
  lemma PpollUnheard()
    ensures var u := Small(16); var moves := [DUP_UP, SHUT, Syscall(0, POLL, 0)];
      Begin(u).Some? && PidsLeft(Begin(u).value, moves) && CalledDead(Run(Begin(u).value, moves), POLL)
  {
    hide Begin, Dispatch, FinishProcess, PollFdReady, CalledDead;
    Opens(16);
    InputMoved();
    var s, m := Opening(16), Syscall(0, POLL, 0);
    RunThree(s, DUP_UP, SHUT, m);
    var moved := Step(Step(s, DUP_UP), SHUT);
    PollWaits(CpuAt(moved, 0));
    PollWaits(Counted(CpuAt(moved, 0)));
    assert Earliest(moved.sh.table) == None by { assert moved.sh.table[..0] == []; }
    var polls := [PollFd(3, true, false)];
    assert polls[0] == PollFd(3, true, false) && AsksInput(moved.sh, moved.procs[0].ctx.task, polls[0]);
    assert AnyAsks(moved.sh, moved.procs[0].ctx.task, polls);
    WaitsUnheard(moved, POLL);
    ServeWaits(moved, POLL);
    FewPids(s, m);
  }

  lemma RunThree(s: Session, a: Move, b: Move, c: Move)
    ensures Run(s, [a, b, c]) == Step(Step(Step(s, a), b), c)
  {
    RunTwo(s, a, b);
    assert [a, b, c][..2] == [a, b];
  }

  lemma FewPids(s: Session, m: Move)
    requires s == Opening(16) && m == Syscall(0, POLL, 0)
    requires Step(Step(Step(s, DUP_UP), SHUT), m).sh.nextPid == 2 && Step(Step(s, DUP_UP), SHUT).sh.nextPid == 2
    ensures PidsLeft(s, [DUP_UP, SHUT, m])
  {
    hide Step;
    var moves := [DUP_UP, SHUT, m];
    assert moves[..2] == [DUP_UP, SHUT] && [DUP_UP, SHUT][..1] == [DUP_UP] && [DUP_UP][..0] == [];
    RunOne(s, DUP_UP);
    RunTwo(s, DUP_UP, SHUT);
    assert Run(s, moves) == Step(Run(s, [DUP_UP, SHUT]), m);
    assert Step(s, DUP_UP).sh.nextPid == 2 by { DupKeepsPids(); }
    assert PidsLeft(s, []) && PidsLeft(s, [DUP_UP]) && PidsLeft(s, [DUP_UP, SHUT]);
  }

  lemma DupKeepsPids()
    ensures Step(Opening(16), DUP_UP).sh.nextPid == 2
  {
    hide BumpedOne, LowestFree, Placed;
  }

  // ----- a handler that goes unannounced -------------------------------------------------

  const SIGUSR1: int := 10
  const CATCH: SigAction := SigAction(100, false, {})
  const SUSPEND: Call := Wait(Sigsuspend({}))

  /** The session after so many calls: whether a handler is set, what is blocked and what is pending. */
  function Caught(calls: nat, handled: bool, mask: set<int>, pending: set<int>): Session {
    var p := First(THREE);
    var sigact := if handled then p.ctx.task.sigact[SIGUSR1 := CATCH] else p.ctx.task.sigact;
    var task := p.ctx.task.(sigact := sigact, sigmask := mask);
    Session(Opening(16).sh.(syscalls := calls, table := [NewRecord(1, 0, 1, 1).(pending := pending)]),
            [p.(ctx := p.ctx.(task := task, exec := FRESH_EXEC.(hasFlag := true)))], None)
  }

  const SET_UP: seq<Move> :=
    [Init(0), Syscall(0, Own(Sigaction(SIGUSR1, Some(CATCH), true)), 0),
     Syscall(0, Own(Sigprocmask(0, Some({SIGUSR1}), true)), 0), Syscall(0, Life(Kill(1, SIGUSR1)), 0)]

  lemma Registers()
    ensures Step(Opening(16), SET_UP[0]) == Caught(0, false, {}, {})
  {
    assert Opening(16).sh.table == [NewRecord(1, 0, 1, 1).(pending := {})];
  }

  lemma PendingIs(calls: nat, handled: bool, mask: set<int>, pending: set<int>)
    ensures Pending(Caught(calls, handled, mask, pending).sh, 1) == pending
    ensures Interrupted(Caught(calls, handled, mask, pending).sh, Caught(calls, handled, mask, pending).procs[0].ctx)
         == (Deliverable(pending, mask, Caught(calls, handled, mask, pending).procs[0].ctx.task) != {})
  {
  }

  lemma NothingLive(mask: set<int>, t: Task)
    ensures Deliverable({}, mask, t) == {}
    ensures mask == {SIGUSR1} ==> Deliverable({SIGUSR1}, mask, t) == {}
  {
  }

  lemma SetsHandler()
    ensures Step(Caught(0, false, {}, {}), SET_UP[1]) == Caught(1, true, {}, {})
  {
    hide Interrupted;
    var s, e := Caught(0, false, {}, {}), Caught(1, true, {}, {});
    PendingIs(1, true, {}, {});
    NothingLive({}, e.procs[0].ctx.task);
    assert Handle(Counted(CpuAt(s, 0)), SET_UP[1].call, 0) == (Value(0), CpuAt(e, 0));
    assert Finished(CpuAt(e, 0)) == CpuAt(e, 0);
  }

  lemma BlocksSignal()
    ensures Step(Caught(1, true, {}, {}), SET_UP[2]) == Caught(2, true, {SIGUSR1}, {})
  {
    hide Interrupted;
    var s, e := Caught(1, true, {}, {}), Caught(2, true, {SIGUSR1}, {});
    PendingIs(2, true, {SIGUSR1}, {});
    NothingLive({SIGUSR1}, e.procs[0].ctx.task);
    assert {} + ({SIGUSR1} - {SIGKILL, SIGSTOP}) == {SIGUSR1};
    assert Handle(Counted(CpuAt(s, 0)), SET_UP[2].call, 0) == (Value(0), CpuAt(e, 0));
    assert Finished(CpuAt(e, 0)) == CpuAt(e, 0);
  }

  lemma RaisesSignal()
    ensures Step(Caught(2, true, {SIGUSR1}, {}), SET_UP[3]) == Caught(3, true, {SIGUSR1}, {SIGUSR1})
  {
    hide Interrupted;
    var s, e := Caught(2, true, {SIGUSR1}, {}), Caught(3, true, {SIGUSR1}, {SIGUSR1});
    PendingIs(3, true, {SIGUSR1}, {SIGUSR1});
    NothingLive({SIGUSR1}, e.procs[0].ctx.task);
    assert {} + {SIGUSR1} == {SIGUSR1};
    assert SignalTable(s.sh.table, 1, SIGUSR1, 1, GroupOf(s.sh, 1)) == e.sh.table;
    assert Targets(s.sh.table[0], 1, 1, GroupOf(s.sh, 1));
    assert Handle(Counted(CpuAt(s, 0)), SET_UP[3].call, 0) == (Value(0), CpuAt(e, 0));
    assert Finished(CpuAt(e, 0)) == CpuAt(e, 0);
  }

  lemma SetUp()
    ensures Run(Opening(16), SET_UP) == Caught(3, true, {SIGUSR1}, {SIGUSR1})
  {
    hide Step, Caught;
    RunThree(Opening(16), SET_UP[0], SET_UP[1], SET_UP[2]);
    assert SET_UP[..3] == [SET_UP[0], SET_UP[1], SET_UP[2]];
    Registers();
    SetsHandler();
    BlocksSignal();
    RaisesSignal();
  }

  /** A run whose process has a handler for a signal that is blocked and pending, and calls
      `sigsuspend` with nothing blocked: the wait ends because of that signal, the signal is still
      pending, and the guest is not told that a handler is to run. */
  lemma SuspendUnannounced()
    ensures var u := Small(16);
      && Begin(u).Some?
      && var k := Run(Begin(u).value, SET_UP);
         && Enabled(k, Syscall(0, SUSPEND, 0))
         && var (a, after) := Dispatch(CpuAt(k, 0), SUSPEND, 0);
            && a == Fail(INTR) && after.ctx.task.sigmask == {SIGUSR1}
            && Action(after.ctx.task, SIGUSR1) == CATCH && SIGUSR1 in Pending(after.sh, 1)
            && after.ctx.exec.hasFlag && !after.ctx.exec.flag
  {
    hide Begin, Run, Deliverable;
    Opens(16);
    SetUp();
    var k := Caught(3, true, {SIGUSR1}, {SIGUSR1});
    var c := CpuAt(k, 0);
    var open := c.ctx.(task := c.ctx.task.(sigmask := {}));
    PendingIs(3, true, {SIGUSR1}, {SIGUSR1});
    NothingLive({SIGUSR1}, c.ctx.task);
    OneLive(open.task);
    assert Interrupted(c.sh, open);
    SuspendTellsOldMask(c, {}, 0);
  }

  lemma OneLive(t: Task)
    requires Action(t, SIGUSR1) == CATCH
    ensures Deliverable({SIGUSR1}, {}, t) != {}
  {
    assert SIGUSR1 in Deliverable({SIGUSR1}, {}, t);
  }
}
