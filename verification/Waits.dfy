/** What the calls that wait wait for, and what the caller of an idle session is told. */
module Waits {
  import opened Base
  import opened Slabs
  import opened Fds
  import opened Kernel
  import opened Syscalls
  import opened HostSteps
  import opened CallFrames
  import opened Census
  import opened LifeFacts
  import opened Deadlock

  /** Some pending signal would end a wait of the process. */
  predicate Disturbed(c: Cpu) {
    exists s :: s in Pending(c.sh, c.ctx.task.pid) && Acts(c.ctx.task, s)
  }

  lemma WokenFinds(table: seq<Record>, pid: int, when: nat)
    ensures Find(WokenAt(table, pid, Some(when)), pid) ==
      match Find(table, pid) case Some(r) => Some(r.(wakeAt := Some(when))) case None => None
    ensures forall x :: x != pid ==> Find(WokenAt(table, pid, Some(when)), x) == Find(table, x)
  {
    hide WithRecord, IndexOf;
    FoundIsHis(table, pid);
    if Find(table, pid).Some? {
      WithFinds(table, pid, Find(table, pid).value.(wakeAt := Some(when)));
    }
  }

  lemma WokenInterrupts(sh: Shared, after: Shared, ctx: Ctx, when: nat)
    requires after.table == WokenAt(sh.table, ctx.task.pid, Some(when))
    ensures Interrupted(after, ctx) == Interrupted(sh, ctx)
  {
    hide WokenAt;
    WokenFinds(sh.table, ctx.task.pid, when);
  }

  /** A sleep is over when its time has come; until then it waits, with that time on record as when to
      wake it, unless a signal ends it first. The time is `after` from the first attempt on, and stays. */
  lemma SleepWaits(c: Cpu, after: nat, now: nat)
    requires now + after <= INSTANT_MAX
    ensures
      var until := match c.ctx.exec.deadline case Some(when) => when case None => now + after;
      var (a, later) := Dispatch(c, Wait(Nanosleep(after)), now);
      && a == (if now >= until then Value(0) else if Disturbed(c) then Fail(INTR) else Block)
      && (a == Block ==>
            && later.ctx.exec.deadline == Some(until)
            && (Find(c.sh.table, c.ctx.task.pid).Some? ==>
                  Find(later.sh.table, c.ctx.task.pid) ==
                    Some(Find(c.sh.table, c.ctx.task.pid).value.(wakeAt := Some(until)))))
  {
    hide WokenAt, Find, Interrupted, Acts;
    InterruptedHow(c.sh, c.ctx);
    var until := DeadlineOf(c.ctx.exec, after, now);
    var timed := WithDeadline(Counted(c), until);
    WokenFinds(c.sh.table, c.ctx.task.pid, until);
    WokenInterrupts(timed.sh, Asleep(timed, until).sh, timed.ctx, until);
    SameSignals(c, timed);
  }

  lemma SameSignals(c: Cpu, after: Cpu)
    requires after.sh.table == c.sh.table && after.ctx.task == c.ctx.task
    ensures Interrupted(after.sh, after.ctx) == Interrupted(c.sh, c.ctx)
  {
  }

  /** `sigsuspend` waits under the mask given until a signal that one lets through; then it ends with
      `EINTR`, and the old mask is back. */
  lemma SuspendWaits(c: Cpu, mask: set<int>, now: nat)
    requires Tidy(c.ctx.exec)
    ensures
      var under := c.(ctx := c.ctx.(task := c.ctx.task.(sigmask := mask)));
      var (a, after) := Dispatch(c, Wait(Sigsuspend(mask)), now);
      && a == (if Disturbed(under) then Fail(INTR) else Block)
      && after.ctx.task == (if a == Block then under.ctx.task else c.ctx.task)
      && (a == Block ==> after.ctx.exec.maskToRestore == Some(c.ctx.task.sigmask))
  {
    hide Interrupted, Acts;
    var under := c.(ctx := c.ctx.(task := c.ctx.task.(sigmask := mask)));
    InterruptedHow(c.sh, under.ctx);
    SameSignals(under, DoSigsuspend(Counted(c), mask).1);
  }

  // ----- polling -------------------------------------------------------------------------

  /** What makes a description ready: bytes to read, or nobody left to write any; room to write, or nobody
      left to read; input or its end; and anything else at once. */
  predicate KindReady(sh: Shared, kind: DescKind, read: bool, write: bool) {
    match kind
    case PipeRead(p) =>
      var q := At(sh.pipes, p);
      q.Some? && (if q.value.data != [] then read else q.value.writers == 0)
    case PipeWrite(p) =>
      var q := At(sh.pipes, p);
      q.Some? && (q.value.readers == 0 || (write && |q.value.data| < 65536))
    case Other(Stdin) => read && (sh.stdin.data != [] || sh.stdin.closed)
    case Other(Stdout(_)) => write
    case Other(_) => read || write
  }

  /** An entry with a negative descriptor is passed over, one that is not open is ready to say so, and any
      other is ready as its description is. */
  lemma EntryIsReady(sh: Shared, t: Task, p: PollFd)
    ensures PollFdReady(sh, t, p).Any() <==>
      p.fd >= 0 &&
      (!IsOpen(t.fds, p.fd) ||
       match At(sh.descs, t.fds[p.fd].value.desc)
       case None => true
       case Some(d) => KindReady(sh, d.kind, p.read, p.write))
  {
  }

  /** Entries are counted one by one: `ppoll` counts an entry that is ready, `pselect` each of the sets it is
      ready in, for reading and for writing. */
  lemma {:induction false} CountAdds(sh: Shared, t: Task, a: seq<PollFd>, b: seq<PollFd>, select: bool)
    ensures ReadyCount(sh, t, a + b, select) == ReadyCount(sh, t, a, select) + ReadyCount(sh, t, b, select)
  {
    if a == [] {
      assert a + b == b;
    } else {
      CountAdds(sh, t, a[1..], b, select);
      assert (a + b)[1..] == a[1..] + b;
    }
  }

  lemma CountOne(sh: Shared, t: Task, p: PollFd)
    ensures ReadyCount(sh, t, [p], false) == Unit(PollFdReady(sh, t, p).Any())
    ensures
      var r, w := PollFdReady(sh, t, p.(write := false)), PollFdReady(sh, t, p.(read := false));
      ReadyCount(sh, t, [p], true) ==
        Unit(p.read && (r.input || r.hup || r.err)) + Unit(p.write && (w.output || w.err))
  {
    assert [p][1..] == [];
  }

  /** A poll answers how many of its first 1024 entries are ready as soon as one is, or its time is up;
      until then it waits, with that time on record, or with word that it waits for input, unless a signal
      ends it first. */
  lemma PollWaits(c: Cpu, polls: seq<PollFd>, timeout: Option<nat>, copyOk: bool, select: bool, now: nat)
    requires timeout.Some? ==> now + timeout.value <= INSTANT_MAX
    ensures
      var call := Wait(if select then Pselect(polls, timeout, copyOk) else Ppoll(polls, timeout, copyOk));
      var ready := ReadyCount(c.sh, c.ctx.task, if |polls| <= 1024 then polls else polls[..1024], select);
      var until := match (timeout, c.ctx.exec.deadline)
        case (None, _) => None case (Some(_), Some(when)) => Some(when) case (Some(after), None) => Some(now + after);
      var (a, after) := Dispatch(c, call, now);
      && a == (if ready > 0 || (until.Some? && now >= until.value) then (if copyOk then Value(ready) else Fail(FAULT))
               else if Disturbed(c) then Fail(INTR) else Block)
      && (a == Block && until.Some? ==>
            && after.ctx.exec.deadline == until
            && (Find(c.sh.table, c.ctx.task.pid).Some? ==>
                  Find(after.sh.table, c.ctx.task.pid) ==
                    Some(Find(c.sh.table, c.ctx.task.pid).value.(wakeAt := until))))
      && (a == Block && until.None? && !select && IsOpen(c.ctx.task.fds, 0) ==> after.sh.stdin.wanted)
  {
    hide WokenAt, Find, Interrupted, Acts, ReadyCount;
    InterruptedHow(c.sh, c.ctx);
    assert polls[..Min(|polls|, POLL_MAX)] == if |polls| <= 1024 then polls else polls[..1024];
    SameReady(c, Counted(c), polls[..Min(|polls|, POLL_MAX)], select);
    if timeout.Some? {
      var until := DeadlineOf(c.ctx.exec, timeout.value, now);
      var timed := WithDeadline(Counted(c), until);
      WokenFinds(c.sh.table, c.ctx.task.pid, until);
      WokenInterrupts(timed.sh, Asleep(timed, until).sh, timed.ctx, until);
      SameSignals(c, timed);
    } else {
      SameSignals(c, Counted(c));
      var wanted := Counted(c).(sh := Counted(c).sh.(stdin := c.sh.stdin.(wanted := true)));
      SameSignals(c, wanted);
    }
  }

  lemma {:induction false} SameReady(c: Cpu, after: Cpu, polls: seq<PollFd>, select: bool)
    requires after.sh.descs == c.sh.descs && after.sh.pipes == c.sh.pipes && after.sh.stdin == c.sh.stdin
    ensures ReadyCount(c.sh, c.ctx.task, polls, select) == ReadyCount(after.sh, c.ctx.task, polls, select)
  {
    hide PollFdReady;
    if |polls| > 0 {
      SameEntry(c, after, polls[0]);
      SameReady(c, after, polls[1..], select);
    }
  }

  lemma SameEntry(c: Cpu, after: Cpu, p: PollFd)
    requires after.sh.descs == c.sh.descs && after.sh.pipes == c.sh.pipes && after.sh.stdin == c.sh.stdin
    ensures PollFdReady(c.sh, c.ctx.task, p) == PollFdReady(after.sh, c.ctx.task, p)
  {
  }

  // ----- the verdict ---------------------------------------------------------------------

  /** When nothing runs the caller is told of a filesystem somebody waits for, else of a host command, else of
      the earliest time somebody is to be woken at, else of input somebody waits for that can still come;
      and of a deadlock exactly when there is none of these. A filesystem or a host command is told of once. */
  lemma VerdictSays(sh: Shared)
    ensures
      var (why, after) := WhyIdle(sh);
      var timed := exists i :: 0 <= i < |sh.table| && sh.table[i].wakeAt.Some?;
      var asked := sh.stdin.wanted && !sh.stdin.closed;
      && (why == OnVfs <==> sh.vfsPending)
      && (why == OnHost <==> sh.hostPending && !sh.vfsPending)
      && (why.Until? <==> timed && !sh.vfsPending && !sh.hostPending)
      && (why == OnStdin <==> asked && !timed && !sh.vfsPending && !sh.hostPending)
      && (why == Deadlocked <==> !sh.vfsPending && !sh.hostPending && !timed && !asked)
      && (why.Until? ==>
            && (exists i :: 0 <= i < |sh.table| && sh.table[i].wakeAt == Some(why.when))
            && forall i :: 0 <= i < |sh.table| && sh.table[i].wakeAt.Some? ==> why.when <= sh.table[i].wakeAt.value)
      && after == sh.(vfsPending := false, hostPending := sh.hostPending && why != OnHost)
  {
    EarliestIsLeast(sh.table);
  }

  /** A host command that is run and has not answered yet leaves word of it, so the caller of an idle session
      is not told of a deadlock. */
  lemma HostLeavesWord(sh: Shared, t: Task, readsStdin: bool, buffer: seq<byte>, o: HostOracle)
    requires o.answer.NotYet? && (readsStdin ==> DrainStdin(sh, t, buffer, o.ins).0.Done?)
    ensures
      var r := StepHost(sh, t, readsStdin, Reading(buffer), o);
      && r.Some? && r.value.0 == Stuck && r.value.2.hostPending
      && WhyIdle(r.value.2).0 in {OnVfs, OnHost}
  {
    hide DrainStdin;
  }
}
