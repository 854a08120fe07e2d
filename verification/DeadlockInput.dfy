/** Input and the verdict `Deadlock`: a session so called can be stirred by input after all, and
    exactly when. */
module DeadlockInput {
  import opened Base
  import opened Slabs
  import opened Fds
  import opened Kernel
  import opened Syscalls
  import opened Machine
  import opened CensusRuns
  import opened RefTheorems
  import opened Stutter
  import opened Deadlock

  /** The entry asks whether standard input can be read. */
  predicate AsksInput(sh: Shared, t: Task, p: PollFd) {
    && p.read && IsOpen(t.fds, p.fd)
    && var d := At(sh.descs, t.fds[p.fd].value.desc); d.Some? && d.value.kind == Other(Stdin)
  }

  predicate AnyAsks(sh: Shared, t: Task, polls: seq<PollFd>) {
    exists i :: 0 <= i < Min(|polls|, POLL_MAX) && AsksInput(sh, t, polls[i])
  }

  /** An untimed wait for descriptors, one of which is standard input to read. */
  predicate Listens(sh: Shared, ctx: Ctx, call: Call) {
    match call
    case Wait(Ppoll(polls, None, _)) => AnyAsks(sh, ctx.task, polls)
    case Wait(Pselect(polls, None, _)) => AnyAsks(sh, ctx.task, polls)
    case _ => false
  }

  /** Such a wait that does not tell the caller so: `pselect` never does, `ppoll` only when its
      process has descriptor 0 open. */
  predicate ListensUnheard(sh: Shared, ctx: Ctx, call: Call) {
    Listens(sh, ctx, call) && (call.wait.Ppoll? ==> !IsOpen(ctx.task.fds, 0))
  }

  ghost predicate SomeoneUnheard(k: Session) {
    exists i :: 0 <= i < |k.procs| && k.procs[i].resume.BlockedIn?
                && ListensUnheard(k.sh, k.procs[i].ctx, k.procs[i].resume.call)
  }

  /** Everyone waits on the others, and none of them listens for input. */
  ghost predicate AllDeaf(k: Session) {
    && AllDead(k)
    && forall i :: 0 <= i < |k.procs| ==> !Listens(k.sh, k.procs[i].ctx, k.procs[i].resume.call)
  }

  // ----- without a listener --------------------------------------------------------------

  lemma DeafEntry(sh: Shared, stdin: StdinBuffer, t: Task, p: PollFd)
    requires !AsksInput(sh, t, p)
    ensures PollFdReady(sh.(stdin := stdin), t, p) == PollFdReady(sh, t, p)
  {
  }

  lemma {:induction false} DeafReady(sh: Shared, stdin: StdinBuffer, t: Task, polls: seq<PollFd>, select: bool)
    requires forall i :: 0 <= i < |polls| ==> !AsksInput(sh, t, polls[i])
    ensures ReadyCount(sh.(stdin := stdin), t, polls, select) == ReadyCount(sh, t, polls, select)
  {
    hide AsksInput, PollFdReady;
    if |polls| > 0 {
      assert !AsksInput(sh, t, polls[0]);
      DeafEntry(sh, stdin, t, polls[0]);
      DeafReady(sh, stdin, t, polls[1..], select);
    }
  }

  lemma DeafPolls(sh: Shared, stdin: StdinBuffer, t: Task, polls: seq<PollFd>, select: bool)
    requires !AnyAsks(sh, t, polls)
    ensures var first := polls[..Min(|polls|, POLL_MAX)];
      ReadyCount(sh.(stdin := stdin), t, first, select) == ReadyCount(sh, t, first, select)
  {
    hide AsksInput, ReadyCount;
    DeafReady(sh, stdin, t, polls[..Min(|polls|, POLL_MAX)], select);
  }

  /** Input does not reach a wait that does not listen for it. */
  lemma DeafStays(sh: Shared, stdin: StdinBuffer, ctx: Ctx, call: Call)
    requires Dead(sh, ctx, call) && !Listens(sh, ctx, call)
    ensures Dead(sh.(stdin := stdin), ctx, call)
  {
    hide ReadyCount, AnyAsks, FirstIov, AnyChild, FirstDead;
    match call
    case Wait(Ppoll(polls, None, _)) => DeafPolls(sh, stdin, ctx.task, polls, false);
    case Wait(Pselect(polls, None, _)) => DeafPolls(sh, stdin, ctx.task, polls, true);
    case _ =>
  }

  lemma SameListeners(sh: Shared, after: Shared, ctx: Ctx, call: Call, again: Call)
    requires after.descs == sh.descs && (again == call || Retries(call, again)) && !call.FileCall?
    ensures Listens(after, ctx, again) == Listens(sh, ctx, call)
  {
    hide BareIovs;
  }

  lemma StepDeaf(k: Session, m: Move)
    requires AllDeaf(k) && !m.WallClock?
    ensures AllDeaf(Step(k, m))
  {
    hide Dead, Listens, Idles, Retries;
    if m.Feed? || m.CloseStdin? {
      hide Serve, FinishProcess, ReplaceInstance, StartNext, Fetch, HostTurn, KillAll;
      if Enabled(k, m) {
        var after := Step(k, m);
        forall i | 0 <= i < |k.procs|
          ensures Dead(after.sh, k.procs[i].ctx, k.procs[i].resume.call)
                  && !Listens(after.sh, k.procs[i].ctx, k.procs[i].resume.call)
        {
          DeafStays(k.sh, after.sh.stdin, k.procs[i].ctx, k.procs[i].resume.call);
          NotFile(k.sh, k.procs[i].ctx, k.procs[i].resume.call);
          SameListeners(k.sh, after.sh, k.procs[i].ctx, k.procs[i].resume.call, k.procs[i].resume.call);
        }
      }
    } else {
      StepDead(k, m);
      RetriedSame(k, m);
      var after := Step(k, m);
      IdleDescs(k.sh, after.sh);
      forall i | 0 <= i < |k.procs| ensures !Listens(after.sh, after.procs[i].ctx, after.procs[i].resume.call) {
        NotFile(k.sh, k.procs[i].ctx, k.procs[i].resume.call);
        SameListeners(k.sh, after.sh, k.procs[i].ctx, k.procs[i].resume.call, after.procs[i].resume.call);
      }
    }
  }

  lemma NotFile(sh: Shared, ctx: Ctx, call: Call)
    requires Dead(sh, ctx, call)
    ensures !call.FileCall?
  {
  }

  lemma IdleDescs(sh: Shared, after: Shared)
    requires Idles(sh, after)
    ensures after.descs == sh.descs
  {
  }

  /** Whatever the move, an outstanding request stays that request. */
  lemma RetriedSame(k: Session, m: Move)
    requires AllDead(k) && !Outside(m)
    ensures var after := Step(k, m);
      |after.procs| == |k.procs| && forall i :: 0 <= i < |k.procs| ==>
        after.procs[i].resume == k.procs[i].resume
        || (after.procs[i].resume.BlockedIn? && Retries(k.procs[i].resume.call, after.procs[i].resume.call))
  {
    hide Dispatch, FinishProcess, ReplaceInstance, StartNext, Fetch, HostTurn, KillAll, Dead, Retries, Idles;
    if Enabled(k, m) {
      assert m.Retry?;
      DeadBlocks(CpuAt(k, m.i), k.procs[m.i].resume.call, m.call, m.now);
    }
  }

  lemma {:induction false} RunDeaf(k: Session, moves: seq<Move>)
    requires AllDeaf(k) && forall i :: 0 <= i < |moves| ==> !moves[i].WallClock?
    ensures AllDeaf(Run(k, moves))
  {
    hide Step, AllDeaf;
    if |moves| > 0 {
      RunDeaf(k, moves[..|moves| - 1]);
      StepDeaf(Run(k, moves[..|moves| - 1]), moves[|moves| - 1]);
    }
  }

  // ----- with a listener -----------------------------------------------------------------

  /** With input there, a wait that asks for it is answered. */
  lemma {:induction false} AskedIsReady(sh: Shared, t: Task, polls: seq<PollFd>, select: bool, i: nat)
    requires i < |polls| && AsksInput(sh, t, polls[i]) && (|sh.stdin.data| > 0 || sh.stdin.closed)
    ensures ReadyCount(sh, t, polls, select) > 0
  {
    if i > 0 {
      AskedIsReady(sh, t, polls[1..], select, i - 1);
    }
  }

  lemma InputAnswers(c: Cpu, call: Call, now: nat)
    requires Listens(c.sh, c.ctx, call) && (|c.sh.stdin.data| > 0 || c.sh.stdin.closed)
    ensures var a := Dispatch(c, call, now).0; a.Value? || a.Fail?
  {
    hide ReadyCount, AsksInput, Finished, Interrupted;
    var polls := call.wait.polls;
    var i :| 0 <= i < Min(|polls|, POLL_MAX) && AsksInput(c.sh, c.ctx.task, polls[i]);
    var first := polls[..Min(|polls|, POLL_MAX)];
    AskIsAsk(c.sh, Counted(c).sh, c.ctx.task, polls[i]);
    AskedIsReady(Counted(c).sh, c.ctx.task, first, call.wait.Pselect?, i);
  }

  lemma AskIsAsk(sh: Shared, after: Shared, t: Task, p: PollFd)
    requires after.descs == sh.descs
    ensures AsksInput(after, t, p) == AsksInput(sh, t, p)
  {
  }

  /** One byte of input, and the retry of a process that listens, and it goes on. */
  lemma InputStirs(k: Session, i: nat)
    requires AllDead(k) && i < |k.procs| && Listens(k.sh, k.procs[i].ctx, k.procs[i].resume.call)
    ensures !AllDead(Run(k, [Feed([0]), Retry(i, k.procs[i].resume.call, 0)]))
  {
    hide Dispatch, FinishProcess, Dead, AnyAsks, ReplaceInstance, StartNext, Fetch, HostTurn, KillAll;
    var call := k.procs[i].resume.call;
    var feed, retry := Feed([0]), Retry(i, call, 0);
    var fed := Step(k, feed);
    assert [feed, retry][..1] == [feed] && [feed][..0] == [];
    assert Run(k, [feed]) == fed by { assert Run(k, []) == k; }
    assert AnyAsks(fed.sh, k.procs[i].ctx.task, call.wait.polls) by {
      AnyIsAny(k.sh, fed.sh, k.procs[i].ctx.task, call.wait.polls);
    }
    InputAnswers(CpuAt(fed, i), call, 0);
    assert Step(fed, retry).procs[i].resume == Running;
  }

  lemma AnyIsAny(sh: Shared, after: Shared, t: Task, polls: seq<PollFd>)
    requires after.descs == sh.descs && AnyAsks(sh, t, polls)
    ensures AnyAsks(after, t, polls)
  {
    var i :| 0 <= i < Min(|polls|, POLL_MAX) && AsksInput(sh, t, polls[i]);
    AskIsAsk(sh, after, t, polls[i]);
  }

  // ----- the verdict ---------------------------------------------------------------------

  /** An untimed `ppoll` that has to wait tells so, if its process has descriptor 0 open. */
  lemma PpollTells(c: Cpu, polls: seq<PollFd>, copyOk: bool, now: nat)
    requires Dispatch(c, Wait(Ppoll(polls, None, copyOk)), now).0.Block? && IsOpen(c.ctx.task.fds, 0)
    ensures Dispatch(c, Wait(Ppoll(polls, None, copyOk)), now).1.sh.stdin.wanted
  {
    hide ReadyCount, Finished, Interrupted;
  }

  /** After a pass that got nowhere the word of every `ppoll` that left some is still there. */
  lemma {:induction false} WordStays(k: Session, tries: seq<Attempt>, n: nat, i: nat)
    requires i < n <= |k.procs| == |tries| && AllStuck(k, tries, n) && NoMapping(tries)
    requires tries[i].call.Wait? && tries[i].call.wait.Ppoll? && tries[i].call.wait.timeout.None?
    requires IsOpen(k.procs[i].ctx.task.fds, 0)
    ensures PassTo(k, tries, n).sh.stdin.wanted
    decreases n
  {
    hide Dispatch, FinishProcess, Waiting;
    var before := PassTo(k, tries, n - 1);
    var t := tries[n - 1];
    BlockedIsStutter(CpuAt(before, n - 1), t.call, t.now);
    if i < n - 1 {
      WordStays(k, tries, n - 1, i);
    } else {
      PassLeavesAllBlocked(k, tries, n - 1);
      PpollTells(CpuAt(before, i), t.call.wait.polls, t.call.wait.copyOk, t.now);
    }
  }

  /** What the verdict `Deadlock` leaves out: on any run, after a pass that got nowhere and was
      given it, something other than the wall clock can still get the session going if and only if
      one of the outstanding calls is an untimed `pselect`, or an untimed `ppoll` of a process
      without a descriptor 0, that asks whether standard input can be read. */
  lemma DeadlockBut(u: Setup, moves: seq<Move>, tries: seq<Attempt>)
    requires Begin(u).Some? && PidsLeft(Begin(u).value, moves)
    requires var k := Run(Begin(u).value, moves);
      && Settled(k) && k.sh.spawn == [] && |tries| == |k.procs| && AllStuck(k, tries, |tries|)
      && WhyIdle(PassTo(k, tries, |tries|).sh).0 == Deadlocked
    ensures var e := PassTo(Run(Begin(u).value, moves), tries, |tries|);
      (exists later: seq<Move> :: (forall i :: 0 <= i < |later| ==> !later[i].WallClock?) && !AllDead(Run(e, later)))
      <==> SomeoneUnheard(e)
  {
    hide Begin, Run, Dead, AllStuck, PassTo, ListensUnheard, Listens, AllDead;
    var k := Run(Begin(u).value, moves);
    var n := |tries|;
    var e := PassTo(k, tries, n);
    DeadlockIsFinal(u, moves, tries, []);
    if SomeoneUnheard(e) {
      var i :| 0 <= i < |e.procs| && e.procs[i].resume.BlockedIn?
               && ListensUnheard(e.sh, e.procs[i].ctx, e.procs[i].resume.call);
      UnheardListens(e.sh, e.procs[i].ctx, e.procs[i].resume.call);
      InputStirs(e, i);
    } else {
      DeafIfUnheard(k, tries);
      forall later: seq<Move> | forall i :: 0 <= i < |later| ==> !later[i].WallClock?
        ensures AllDead(Run(e, later))
      {
        RunDeaf(e, later);
        DeafIsDead(Run(e, later));
      }
    }
  }

  lemma UnheardListens(sh: Shared, ctx: Ctx, call: Call)
    requires ListensUnheard(sh, ctx, call)
    ensures Listens(sh, ctx, call)
  {
  }

  lemma DeafIsDead(k: Session)
    requires AllDeaf(k)
    ensures AllDead(k)
  {
  }

  /** With nobody unheard, nobody listens: whoever was heard would have changed the verdict. */
  lemma DeafIfUnheard(k: Session, tries: seq<Attempt>)
    requires |tries| == |k.procs| && AllStuck(k, tries, |tries|)
    requires var e := PassTo(k, tries, |tries|);
      WhyIdle(e.sh).0 == Deadlocked && AllDead(e) && !SomeoneUnheard(e)
    ensures AllDeaf(PassTo(k, tries, |tries|))
  {
    hide AllStuck, PassTo, Dead, AnyAsks, Idles;
    var n := |tries|;
    var e := PassTo(k, tries, n);
    MappingIsTold(k, tries, n);
    if e.sh.vfsPending { VfsIsTold(e.sh); }
    PassLeavesAllBlocked(k, tries, n);
    forall i | 0 <= i < n ensures !Listens(e.sh, e.procs[i].ctx, e.procs[i].resume.call) {
      assert StillWaits(e, i, tries[i]);
      if Listens(e.sh, e.procs[i].ctx, e.procs[i].resume.call) {
        assert !ListensUnheard(e.sh, e.procs[i].ctx, e.procs[i].resume.call);
        PassKeepsFds(k, tries, n, i);
        WordStays(k, tries, n, i);
        WantedIsTold(e.sh);
        ClosedAnswers(e.sh, e.procs[i].ctx, e.procs[i].resume.call);
      }
    }
  }

  lemma WantedIsTold(sh: Shared)
    requires sh.stdin.wanted && WhyIdle(sh).0 == Deadlocked
    ensures sh.stdin.closed
  {
  }

  lemma ClosedAnswers(sh: Shared, ctx: Ctx, call: Call)
    requires Listens(sh, ctx, call) && sh.stdin.closed
    ensures !Dead(sh, ctx, call)
  {
    hide ReadyCount, AsksInput;
    var polls := call.wait.polls;
    var i :| 0 <= i < Min(|polls|, POLL_MAX) && AsksInput(sh, ctx.task, polls[i]);
    AskedIsReady(sh, ctx.task, polls[..Min(|polls|, POLL_MAX)], call.wait.Pselect?, i);
  }

  /** A pass that got nowhere leaves every descriptor table alone. */
  lemma {:induction false} PassKeepsFds(k: Session, tries: seq<Attempt>, n: nat, i: nat)
    requires n <= |k.procs| == |tries| && AllStuck(k, tries, n) && NoMapping(tries) && i < |k.procs|
    ensures |PassTo(k, tries, n).procs| == |k.procs|
    ensures PassTo(k, tries, n).procs[i].ctx.task.fds == k.procs[i].ctx.task.fds
    decreases n
  {
    hide Dispatch, FinishProcess, Idles;
    if n > 0 {
      PassKeepsFds(k, tries, n - 1, i);
      var before := PassTo(k, tries, n - 1);
      BlockedIsStutter(CpuAt(before, n - 1), tries[n - 1].call, tries[n - 1].now);
    }
  }
}
