/** Pending signals over whole runs: where they come from, that each is taken once, and that none is
    lost on the way. */
module Delivery {
  import opened Base
  import opened Sums
  import opened Fds
  import opened Kernel
  import opened Syscalls
  import opened HostSteps
  import opened Signals
  import opened Machine
  import opened References
  import opened CallFrames
  import opened HostFrames
  import opened Census
  import opened CensusCalls
  import opened LifeFacts
  import opened Exits

  // ----- one fetch -----------------------------------------------------------------------

  /** The signal a fetch by the process at place `i` takes: the lowest it can be given. */
  function Taking(k: Session, i: nat): Option<int>
    requires i < |k.procs|
  {
    var t := k.procs[i].ctx.task;
    var live := Deliverable(Pending(k.sh, t.pid), t.sigmask, t);
    if live == {} then None else Some(LowestFrom(live, 1))
  }

  /** What is taken is the lowest pending signal that would do something; if none would, none is. */
  lemma TakesTheLowest(k: Session, i: nat)
    requires i < |k.procs|
    ensures
      var t := k.procs[i].ctx.task;
      var pending := Pending(k.sh, t.pid);
      match Taking(k, i)
      case Some(s) => s in pending && Acts(t, s) && forall x :: x in pending && Acts(t, x) ==> s <= x
      case None => forall x :: x in pending ==> !Acts(t, x)
  {
    var t := k.procs[i].ctx.task;
    var pending := Pending(k.sh, t.pid);
    forall s ensures s in Deliverable(pending, t.sigmask, t) <==> s in pending && Acts(t, s) {
    }
    if Taking(k, i).Some? {
      LowestLive(pending, t);
    }
  }

  /** The session after a fetch, up to the death a fatal signal is. */
  function Fetched(k: Session, i: nat): Session
    requires i < |k.procs|
  {
    var p := k.procs[i];
    var pid := p.ctx.task.pid;
    var (d, left, t) := NextSignal(Pending(k.sh, pid), p.ctx.task);
    var r := Find(k.sh.table, pid);
    var sh := if r.Some? then k.sh.(table := WithRecord(k.sh.table, pid, r.value.(pending := left))) else k.sh;
    var exec := if d.NoSignal? && p.ctx.exec.hasFlag then p.ctx.exec.(flag := false) else p.ctx.exec;
    k.(sh := sh, procs := k.procs[i := p.(ctx := p.ctx.(task := t, exec := exec))])
  }

  lemma FetchedWritesBack(k: Session, i: nat)
    requires i < |k.procs|
    ensures
      var t := k.procs[i].ctx.task;
      var was, gone := Pending(k.sh, t.pid), Discardable(Pending(k.sh, t.pid), t);
      var after := Fetched(k, i);
      && Pending(after.sh, t.pid) == (match Taking(k, i) case Some(s) => was - gone - {s} case None => was - gone)
      && (forall x :: x != t.pid ==> Find(after.sh.table, x) == Find(k.sh.table, x))
      && (Find(k.sh.table, t.pid).Some? <==> Find(after.sh.table, t.pid).Some?)
      && (Find(k.sh.table, t.pid).Some? ==>
            Find(after.sh.table, t.pid) ==
              Some(Find(k.sh.table, t.pid).value.(pending := Pending(after.sh, t.pid))))
      && after.sh == k.sh.(table := after.sh.table)
  {
    hide WithRecord, Find, IndexOf;
    var t := k.procs[i].ctx.task;
    var (_, left, _) := NextSignal(Pending(k.sh, t.pid), t);
    var r := Find(k.sh.table, t.pid);
    FoundIsHis(k.sh.table, t.pid);
    if r.Some? {
      WithFinds(k.sh.table, t.pid, r.value.(pending := left));
    }
  }

  /** A fetch takes for good: the caller's record keeps exactly the pending signals that are neither
      ignored nor the one taken, and nobody else's record changes. If there is none to take the flag is
      down and nothing is left that could interrupt; a handler leaves the caller as it was, but for an
      action that asked to be reset; a signal by default fatal ends the process. */
  lemma FetchTakes(k: Session, i: nat)
    requires Enabled(k, FetchSignal(i))
    ensures
      var p := k.procs[i];
      var t := p.ctx.task;
      var was := Pending(k.sh, t.pid);
      var gone := set s | s in was && Unheeded(t, s);
      var after := Step(k, FetchSignal(i));
      match Taking(k, i)
      case None =>
        && Pending(after.sh, t.pid) == was - gone
        && (forall x :: x != t.pid ==> Find(after.sh.table, x) == Find(k.sh.table, x))
        && |after.procs| == |k.procs| && after.procs[i].ctx == p.ctx.(exec := after.procs[i].ctx.exec)
        && (p.ctx.exec.hasFlag ==> !after.procs[i].ctx.exec.flag)
        && !Interrupted(after.sh, after.procs[i].ctx)
      case Some(s) =>
        if Action(t, s).handler == SIG_DFL then after.procs == k.procs[..i] + k.procs[i + 1..]
        else
          && Pending(after.sh, t.pid) == was - gone - {s}
          && (forall x :: x != t.pid ==> Find(after.sh.table, x) == Find(k.sh.table, x))
          && |after.procs| == |k.procs| && after.procs[i].ctx == p.ctx.(task := after.procs[i].ctx.task)
          && var now := after.procs[i].ctx.task;
             && now == t.(sigact := now.sigact)
             && forall x :: Action(now, x) == if x == s && Action(t, s).resetHand then DEFAULT_ACTION else Action(t, x)
  {
    hide WithRecord, Find, IndexOf, FinishProcess, NextSignal, Deliverable, Discardable, LowestFrom, Unheeded, Pending;
    FetchedWritesBack(k, i);
    var t := k.procs[i].ctx.task;
    var was := Pending(k.sh, t.pid);
    GivenNext(was, t);
    GoneIsUnheeded(was, t);
    if Taking(k, i).Some? && Action(t, Taking(k, i).value).handler == SIG_DFL {
      OneFewerProc(Fetched(k, i), i, Taking(k, i).value);
    }
  }

  lemma GoneIsUnheeded(was: set<int>, t: Task)
    ensures Discardable(was, t) == set s | s in was && Unheeded(t, s)
  {
  }

  /** What is given next: nothing, a death by the lowest signal there is, or that signal's handler. */
  lemma GivenNext(was: set<int>, t: Task)
    ensures
      var live := Deliverable(was, t.sigmask, t);
      var (d, _, after) := NextSignal(was, t);
      if live == {} then d == NoSignal && after == t && Deliverable(was - Discardable(was, t), t.sigmask, t) == {}
      else
        var s := LowestFrom(live, 1);
        if Action(t, s).handler == SIG_DFL then d == Fatal(s)
        else
          && d.Handler? && after == t.(sigact := after.sigact)
          && forall x :: Action(after, x) == if x == s && Action(t, s).resetHand then DEFAULT_ACTION else Action(t, x)
  {
    if Deliverable(was, t.sigmask, t) == {} {
      NoneLeft(was, t);
    } else {
      LowestLive(was, t);
    }
  }

  lemma OneFewerProc(k: Session, i: nat, status: int)
    requires i < |k.procs|
    ensures FinishProcess(k, i, status).procs == k.procs[..i] + k.procs[i + 1..]
  {
    hide StackEnds;
  }

  lemma NoneLeft(was: set<int>, t: Task)
    requires Deliverable(was, t.sigmask, t) == {}
    ensures Deliverable(was - Discardable(was, t), t.sigmask, t) == {}
  {
  }

  // ----- what becomes pending ------------------------------------------------------------

  function PendingIn(table: seq<Record>, x: int): set<int> {
    match Find(table, x)
    case Some(r) => r.pending
    case None => {}
  }

  /** From `a` to `b` only what `why` allows has become pending, and whatever was pending for a process
      still on record is pending still. */
  ghost predicate Passes(a: seq<Record>, b: seq<Record>, why: (int, int) -> bool) {
    forall x ::
      && (Find(b, x).Some? ==> PendingIn(a, x) <= PendingIn(b, x))
      && (forall s :: s in PendingIn(b, x) && s !in PendingIn(a, x) ==> why(x, s))
  }

  /** The same, and nobody has appeared. */
  ghost predicate Evolves(a: seq<Record>, b: seq<Record>, why: (int, int) -> bool) {
    Passes(a, b, why) && forall x :: Find(b, x).Some? ==> Find(a, x).Some?
  }

  lemma EvolvesTrans(a: seq<Record>, b: seq<Record>, c: seq<Record>, why: (int, int) -> bool)
    requires Evolves(a, b, why) && Evolves(b, c, why)
    ensures Evolves(a, c, why)
  {
    hide Find;
  }

  lemma RecordEvolves(table: seq<Record>, pid: int, r: Record, why: (int, int) -> bool)
    requires r.pid == pid && Find(table, pid).Some? && PendingIn(table, pid) <= r.pending
    requires forall s :: s in r.pending && s !in PendingIn(table, pid) ==> why(pid, s)
    ensures Evolves(table, WithRecord(table, pid, r), why)
  {
    hide Find, WithRecord;
    WithFinds(table, pid, r);
  }

  lemma RaisedEvolves(table: seq<Record>, pid: int, sig: int, why: (int, int) -> bool)
    requires why(pid, sig)
    ensures Evolves(table, Raised(table, pid, sig), why)
  {
    hide Find, WithRecord;
    if Find(table, pid).Some? {
      FoundIsHis(table, pid);
      RecordEvolves(table, pid, RaisedOn(Find(table, pid).value, sig), why);
    }
  }

  ghost predicate TellsParents(why: (int, int) -> bool) {
    forall x :: why(x, SIGCHLD)
  }

  lemma ExitEvolves(table: seq<Record>, pid: int, status: int, why: (int, int) -> bool)
    requires TellsParents(why)
    ensures Evolves(table, ExitTable(table, pid, status), why)
  {
    hide Find, WithRecord, Reparented, Without, Raised;
    var me := Find(table, pid);
    var ended := if me.Some? then WithRecord(table, pid, Ended(me.value, status)) else table;
    if me.Some? {
      FoundIsHis(table, pid);
      RecordEvolves(table, pid, Ended(me.value, status), why);
    }
    var parent := if me.Some? then me.value.ppid else 0;
    var moved := Reparented(ended, pid);
    forall x ensures PendingIn(moved, x) == PendingIn(ended, x) && Find(moved, x).Some? == Find(ended, x).Some? {
      AdoptedFinds(ended, pid, x);
    }
    assert Evolves(table, moved, why);
    RaisedEvolves(moved, parent, SIGCHLD, why);
    forall x ensures Find(Without(moved, pid), x) == if x == pid then None else Find(moved, x) {
      WithoutLeaves(moved, pid, x);
    }
    assert Evolves(moved, Without(moved, pid), why);
    EvolvesTrans(table, moved, ExitTable(table, pid, status), why);
  }

  lemma TaskEndEvolves(sh: Shared, t: Task, status: int, why: (int, int) -> bool)
    requires TellsParents(why)
    ensures Evolves(sh.table, TaskEnds(sh, t, status).table, why)
  {
    hide Evolves, TaskEnds, ExitTable;
    TaskEndsTable(sh, t, status);
    ExitEvolves(sh.table, t.pid, status, why);
  }

  lemma {:induction false} StackEndEvolves(sh: Shared, task: Task, stack: seq<Task>, status: int,
                                           why: (int, int) -> bool)
    requires TellsParents(why)
    ensures Evolves(sh.table, StackEnds(sh, task, stack, status).table, why)
    decreases |stack|
  {
    hide Evolves, TaskEnds;
    var n := |stack|;
    if n == 0 {
      TaskEndEvolves(sh, task, status, why);
    } else {
      var once := TaskEnds(sh, task, StatusSignaled(SIGKILL));
      TaskEndEvolves(sh, task, StatusSignaled(SIGKILL), why);
      StackEndEvolves(once, stack[n - 1], stack[..n - 1], status, why);
      EvolvesTrans(sh.table, once.table, StackEnds(sh, task, stack, status).table, why);
    }
  }

  lemma FinishEvolves(k: Session, i: nat, status: int, why: (int, int) -> bool)
    requires i < |k.procs| && TellsParents(why)
    ensures Evolves(k.sh.table, FinishProcess(k, i, status).sh.table, why)
  {
    hide Evolves, StackEnds;
    var p := k.procs[i];
    StackEndEvolves(Uncharged(k.sh, AddU64(p.charged, p.ctx.exec.grown)), p.ctx.task, p.ctx.vforkStack, status, why);
  }

  lemma SameEvolves(table: seq<Record>, why: (int, int) -> bool)
    ensures Evolves(table, table, why)
  {
  }

  lemma {:induction false} KillEvolves(k: Session, status: int, why: (int, int) -> bool)
    requires TellsParents(why)
    ensures Evolves(k.sh.table, KillAll(k, status).sh.table, why)
    decreases |k.procs|
  {
    hide Evolves, FinishProcess;
    if |k.procs| == 0 {
      SameEvolves(k.sh.table, why);
    } else {
      var once := FinishProcess(k, 0, status);
      OneFewerProc(k, 0, status);
      FinishEvolves(k, 0, status, why);
      KillEvolves(once, status, why);
      EvolvesTrans(k.sh.table, once.sh.table, KillAll(k, status).sh.table, why);
    }
  }

  lemma StartTable(k: Session, spawn: Spawn, launch: Launch)
    ensures Start(k, spawn, launch).0.sh.table == k.sh.table
  {
    hide ReleaseFds;
    ReleaseFdsFrame(k.sh, spawn.task.fds);
    if launch.GuestRuns? {
      var charge := AddU64(launch.Size(), ASYNCIFY_PAGES * PAGE);
      ReleaseFdsFrame(Uncharged(Charged(k.sh, charge).0, charge), spawn.task.fds);
    }
  }

  lemma BirthEvolves(k: Session, m: Move, why: (int, int) -> bool)
    requires Enabled(k, m) && (m.Replace? || m.StartSpawn?) && TellsParents(why)
    ensures Evolves(k.sh.table, Step(k, m).sh.table, why)
  {
    hide Evolves, Start, ExitTable;
    SameEvolves(k.sh.table, why);
    match m
    case Replace(i, launch) =>
      var p := k.procs[i];
      var spawn := p.ctx.execRequest.value;
      var freed := k.(procs := Dropped(k.procs, i), sh := Uncharged(k.sh, AddU64(p.charged, p.ctx.exec.grown)));
      StartTable(freed, spawn, launch);
      ExitEvolves(k.sh.table, spawn.task.pid, StatusExited(126), why);
    case StartSpawn(launch) =>
      StartTable(k.(sh := k.sh.(spawn := k.sh.spawn[1..])), k.sh.spawn[0], launch);
      ExitEvolves(k.sh.table, k.sh.spawn[0].task.pid, StatusExited(126), why);
  }

  // ----- calls ---------------------------------------------------------------------------

  /** The signals a call can make pending: SIGPIPE for its own process, the one a `kill` sends for those
      it is sent to, and SIGCHLD. */
  ghost predicate CallRaises(c: Cpu, call: Call, x: int, s: int) {
    || s == SIGCHLD
    || (call.Bytes? && x == c.ctx.task.pid && s == SIGPIPE)
    || (call.Life? && call.life.Kill? && s == call.life.signal && Find(c.sh.table, x).Some?
        && Targets(Find(c.sh.table, x).value, call.life.target, c.ctx.task.pid, GroupOf(c.sh, c.ctx.task.pid)))
  }

  lemma KillPasses(c: Cpu, target: int, signal: int, why: (int, int) -> bool)
    requires forall x, s :: CallRaises(c, Life(Kill(target, signal)), x, s) ==> why(x, s)
    ensures Passes(c.sh.table, DoKill(c, target, signal).1.sh.table, why)
  {
    hide IndexOf, Targets;
    var me, group := c.ctx.task.pid, GroupOf(c.sh, c.ctx.task.pid);
    forall x
      ensures Find(SignalTable(c.sh.table, target, signal, me, group), x) == match Find(c.sh.table, x)
        case Some(r) => Some(Signalled(r, target, signal, me, group)) case None => None
    {
      SamePids(SignalTable(c.sh.table, target, signal, me, group), c.sh.table, x);
    }
    hide Find;
    assert forall x, s :: CallRaises(c, Life(Kill(target, signal)), x, s) ==> why(x, s);
  }

  lemma ForkPasses(c: Cpu, shape: bool, why: (int, int) -> bool)
    ensures Passes(c.sh.table, DoClone(c, shape).1.sh.table, why)
  {
    hide LiveCount, Bumped, Drained, Find;
    var (sh, pid) := ForkRecord(c.sh, c.ctx.task);
    if pid.Some? {
      var child := sh.table[|c.sh.table|];
      assert sh.table == c.sh.table + [child] && child.pending == {};
      forall x ensures PendingIn(sh.table, x) == PendingIn(c.sh.table, x) {
        PushedFinds(c.sh.table, child, x);
      }
    }
  }

  lemma {:induction false} PushedFinds(table: seq<Record>, child: Record, x: int)
    ensures Find(table + [child], x)
         == if Find(table, x).None? && x == child.pid then Some(child) else Find(table, x)
  {
    if |table| > 0 {
      PushedFinds(table[1..], child, x);
      assert (table + [child])[1..] == table[1..] + [child];
    }
  }

  lemma LifePasses(c: Cpu, call: LifeCall, why: (int, int) -> bool)
    requires forall x, s :: CallRaises(c, Life(call), x, s) ==> why(x, s)
    ensures Passes(c.sh.table, HandleLife(c, call).1.sh.table, why)
  {
    hide Find, WithRecord, Without, DoKill, DoClone, ReleaseFds, ReleaseAll, ExitTable, Passes;
    SameEvolves(c.sh.table, why);
    var pid := c.ctx.task.pid;
    match call
    case ExitCall(code) =>
      ReleaseFdsFrame(c.sh, c.ctx.task.fds);
      ParentsToldBy(c, call, why);
      ExitEvolves(c.sh.table, pid, StatusExited(code), why);
    case Clone(shape) => ForkPasses(c, shape, why);
    case Execve(_, _, _, _) => ReleaseAllFrame(c.sh, DrainedCloexec(c.ctx.task.fds));
    case Wait4(which, _, _) => ReapPasses(c.sh.table, which, pid, GroupOf(c.sh, pid), why);
    case Setpgid(target, group) =>
      var who := if target == 0 then pid else target;
      FoundIsHis(c.sh.table, who);
      if Find(c.sh.table, who).Some? {
        RecordEvolves(c.sh.table, who,
          Find(c.sh.table, who).value.(pgid := if group == 0 then who else group), why);
      }
    case Setsid =>
      FoundIsHis(c.sh.table, pid);
      if Find(c.sh.table, pid).Some? {
        RecordEvolves(c.sh.table, pid, Find(c.sh.table, pid).value.(pgid := pid, sid := pid), why);
      }
    case Kill(target, signal) => KillPasses(c, target, signal, why);
  }

  lemma ParentsToldBy(c: Cpu, call: LifeCall, why: (int, int) -> bool)
    requires forall x, s :: CallRaises(c, Life(call), x, s) ==> why(x, s)
    ensures TellsParents(why)
  {
    forall x ensures why(x, SIGCHLD) {
      assert CallRaises(c, Life(call), x, SIGCHLD);
    }
  }

  lemma ReapPasses(table: seq<Record>, which: int, pid: int, group: int, why: (int, int) -> bool)
    ensures var r := FirstDead(table, pid, group, which);
      r.Some? ==> Passes(table, Without(table, r.value.pid), why)
  {
    hide Find, Without;
    var r := FirstDead(table, pid, group, which);
    if r.Some? {
      forall x ensures Find(Without(table, r.value.pid), x) == if x == r.value.pid then None else Find(table, x) {
        WithoutLeaves(table, r.value.pid, x);
      }
    }
  }

  lemma {:induction false} VectorEvolves(c: Cpu, reading: bool, fd: int, iovs: seq<Iov>, i: nat, total: nat,
                                         why: (int, int) -> bool)
    requires i <= |iovs| && why(c.ctx.task.pid, SIGPIPE)
    ensures Evolves(c.sh.table, DoVector(c, reading, fd, iovs, i, total).1.sh.table, why)
    decreases |iovs| - i
  {
    hide DoIov, Evolves, Raised;
    SameEvolves(c.sh.table, why);
    if i < |iovs| && iovs[i].decodes {
      if IovLen(reading, iovs[i]) == 0 {
        VectorEvolves(c, reading, fd, iovs, i + 1, total, why);
      } else {
        IovFrame(c, reading, fd, iovs[i]);
        RaisedEvolves(c.sh.table, c.ctx.task.pid, SIGPIPE, why);
        var (a, after) := DoIov(c, reading, fd, iovs[i]);
        if a.Value? && a.v >= IovLen(reading, iovs[i]) {
          var sum := Min(total + Max(a.v, 0), I32_MAX);
          VectorEvolves(after, reading, fd, iovs, i + 1, sum, why);
          EvolvesTrans(c.sh.table, after.sh.table, DoVector(after, reading, fd, iovs, i + 1, sum).1.sh.table, why);
        }
      }
    }
  }

  lemma BytesEvolve(c: Cpu, call: ByteCall, why: (int, int) -> bool)
    requires why(c.ctx.task.pid, SIGPIPE)
    ensures Evolves(c.sh.table, HandleBytes(c, call).1.sh.table, why)
  {
    hide DoVector, ReadBytes, WriteBytes, Evolves, Raised;
    SameEvolves(c.sh.table, why);
    RaisedEvolves(c.sh.table, c.ctx.task.pid, SIGPIPE, why);
    match call
    case Read(fd, len, _, vfs) => ReadFrame(c.sh, c.ctx.task, fd, Min(len, STAGING_MAX), vfs);
    case Write(fd, _, data, vfs) => WriteFrame(c.sh, c.ctx.task, fd, data, vfs);
    case Readv(fd, iovs) => VectorEvolves(c, true, fd, iovs, 0, 0, why);
    case Writev(fd, iovs) => VectorEvolves(c, false, fd, iovs, 0, 0, why);
  }

  lemma WaitEvolves(c: Cpu, call: WaitCall, now: nat, why: (int, int) -> bool)
    ensures Evolves(c.sh.table, HandleWait(c, call, now).1.sh.table, why)
  {
    hide ReadyCount, Find, WithRecord, Evolves, Interrupted;
    SameEvolves(c.sh.table, why);
    var pid := c.ctx.task.pid;
    FoundIsHis(c.sh.table, pid);
    if Find(c.sh.table, pid).Some? {
      forall when ensures Evolves(c.sh.table, WokenAt(c.sh.table, pid, when), why) {
        RecordEvolves(c.sh.table, pid, Find(c.sh.table, pid).value.(wakeAt := when), why);
      }
    }
  }

  lemma HandlePasses(c: Cpu, call: Call, now: nat, why: (int, int) -> bool)
    requires forall x, s :: CallRaises(c, call, x, s) ==> why(x, s)
    ensures Passes(c.sh.table, Handle(c, call, now).1.sh.table, why)
  {
    hide HandleLife, HandleFiles, HandleMem, HandleWait, HandleOwn, HandleBytes, Passes, Find, Targets;
    SameEvolves(c.sh.table, why);
    match call
    case Life(life) => LifePasses(c, life, why);
    case Own(own) => OwnFrame(c, own);
    case Wait(wait) => WaitEvolves(c, wait, now, why);
    case Mem(mem) => MemFrame(c, mem);
    case Files(files) => FilesFrame(c, files);
    case Bytes(bytes) =>
      assert CallRaises(c, call, c.ctx.task.pid, SIGPIPE);
      BytesEvolve(c, bytes, why);
    case FileCall(vfs) =>
    case Plainly(result) =>
  }

  lemma DispatchPasses(c: Cpu, call: Call, now: nat, why: (int, int) -> bool)
    requires forall x, s :: CallRaises(c, call, x, s) ==> why(x, s)
    ensures Passes(c.sh.table, Dispatch(c, call, now).1.sh.table, why)
  {
    hide Handle, Finished, Passes, Find, Targets;
    assert forall x, s :: CallRaises(Counted(c), call, x, s) ==> CallRaises(c, call, x, s);
    HandlePasses(Counted(c), call, now, why);
    FinishFrame(Handle(Counted(c), call, now).1);
  }

  // ----- moves ---------------------------------------------------------------------------

  /** The signals a move can make pending: SIGPIPE for the process whose call or host command writes, the
      one a `kill` sends for those it is sent to, and SIGCHLD. */
  ghost predicate MayRaise(k: Session, m: Move, x: int, s: int) {
    s == SIGCHLD ||
    (Enabled(k, m) &&
     match m
     case Syscall(i, call, _) => CallRaises(CpuAt(k, i), call, x, s)
     case Retry(i, call, _) => CallRaises(CpuAt(k, i), call, x, s)
     case HostMove(i, _) => x == k.procs[i].ctx.task.pid && s == SIGPIPE
     case _ => false)
  }

  lemma ServePasses(k: Session, i: nat, call: Call, now: nat, why: (int, int) -> bool)
    requires i < |k.procs| && forall x, s :: CallRaises(CpuAt(k, i), call, x, s) ==> why(x, s)
    ensures Passes(k.sh.table, Serve(k, i, call, now).sh.table, why)
  {
    hide Dispatch, FinishProcess, Find, Targets;
    var p := k.procs[i];
    var c := CpuAt(k, i);
    DispatchPasses(c, call, now, why);
    var (a, after) := Dispatch(c, call, now);
    if a.Exits? {
      ExitingStays(c, call, now);
      assert TellsParents(why) by { assert forall x :: CallRaises(c, call, x, SIGCHLD); }
      var p' := p.(ctx := after.ctx, inst := after.inst, resume := Running);
      var served := k.(sh := after.sh, procs := k.procs[i := p']);
      FinishEvolves(served, i, a.status, why);
    }
  }

  lemma {:induction false} FlushEvolves(sh: Shared, t: Task, fd: int, bytes: seq<byte>, done: nat, vfs: seq<Vfs>,
                                        i: nat, why: (int, int) -> bool)
    requires done <= |bytes| && why(t.pid, SIGPIPE)
    ensures Evolves(sh.table, FlushTo(sh, t, fd, bytes, done, vfs, i).2.table, why)
    decreases |bytes| - done
  {
    hide WriteBytes, Raised, Evolves;
    SameEvolves(sh.table, why);
    if done < |bytes| {
      WriteFrame(sh, t, fd, bytes[done..], VfsAt(vfs, i));
      RaisedEvolves(sh.table, t.pid, SIGPIPE, why);
      var (put, sh') := WriteBytes(sh, t, fd, bytes[done..], VfsAt(vfs, i));
      if put.Put? && put.count > 0 {
        FlushEvolves(sh', t, fd, bytes, done + put.count, vfs, i + 1, why);
        EvolvesTrans(sh.table, sh'.table, FlushTo(sh', t, fd, bytes, done + put.count, vfs, i + 1).2.table, why);
      }
    }
  }

  lemma BothEvolve(sh: Shared, t: Task, ph: Phase, vfsOut: seq<Vfs>, vfsErr: seq<Vfs>, why: (int, int) -> bool)
    requires ph.Flushing? && PhaseOk(ph) && why(t.pid, SIGPIPE)
    ensures Evolves(sh.table, FlushBoth(sh, t, ph, vfsOut, vfsErr).2.table, why)
  {
    hide FlushTo, Evolves;
    FlushEvolves(sh, t, 1, ph.out, ph.outDone, vfsOut, 0, why);
    var sh1 := FlushTo(sh, t, 1, ph.out, ph.outDone, vfsOut, 0).2;
    FlushEvolves(sh1, t, 2, ph.err, ph.errDone, vfsErr, 0, why);
    EvolvesTrans(sh.table, sh1.table, FlushTo(sh1, t, 2, ph.err, ph.errDone, vfsErr, 0).2.table, why);
  }

  lemma HostEvolves(k: Session, i: nat, o: HostOracle, why: (int, int) -> bool)
    requires i < |k.procs| && k.procs[i].body.Host? && PhaseOk(k.procs[i].body.phase)
    requires TellsParents(why) && why(k.procs[i].ctx.task.pid, SIGPIPE)
    ensures Evolves(k.sh.table, HostTurn(k, i, o).sh.table, why)
  {
    hide DrainStdin, FlushBoth, FinishProcess, Evolves;
    SameEvolves(k.sh.table, why);
    var p := k.procs[i];
    var t, ph := p.ctx.task, p.body.phase;
    match StepHost(k.sh, t, p.body.readsStdin, ph, o)
    case None =>
    case Some((step, phase, sh)) =>
      if ph.Flushing? {
        BothEvolve(k.sh, t, ph, o.outs, o.errs, why);
      } else {
        DrainFrame(k.sh, t, ph.buffer, o.ins);
        if !o.answer.NotYet? {
          var drawn := if p.body.readsStdin then DrainStdin(k.sh, t, ph.buffer, o.ins).2 else k.sh;
          BothEvolve(drawn, t, Started(o.answer), o.outs, o.errs, why);
        }
      }
      var stepped := k.(sh := sh, procs := k.procs[i := p.(body := p.body.(phase := phase))]);
      if step.EndedWith? {
        FinishEvolves(stepped, i, step.status, why);
        EvolvesTrans(k.sh.table, sh.table, FinishProcess(stepped, i, step.status).sh.table, why);
      }
  }

  lemma StepPasses(k: Session, m: Move, why: (int, int) -> bool)
    requires !m.FetchSignal? && forall x, s :: MayRaise(k, m, x, s) ==> why(x, s)
    ensures Passes(k.sh.table, Step(k, m).sh.table, why)
  {
    hide Serve, FinishProcess, ReplaceInstance, StartNext, HostTurn, KillAll, Passes, Find, Targets;
    SameEvolves(k.sh.table, why);
    assert TellsParents(why) by { assert forall x :: MayRaise(k, m, x, SIGCHLD); }
    if Enabled(k, m) {
      match m
      case Syscall(i, call, now) =>
        assert forall x, s :: CallRaises(CpuAt(k, i), call, x, s) ==> MayRaise(k, m, x, s);
        ServePasses(k, i, call, now, why);
      case Retry(i, call, now) =>
        assert forall x, s :: CallRaises(CpuAt(k, i), call, x, s) ==> MayRaise(k, m, x, s);
        ServePasses(k, i, call, now, why);
      case Replace(_, _) => BirthEvolves(k, m, why);
      case StartSpawn(_) => BirthEvolves(k, m, why);
      case Gone(i, status, complaint) => FinishEvolves(k.(sh := WriteOutput(k.sh, 2, complaint)), i, status, why);
      case HostMove(i, o) =>
        assert MayRaise(k, m, k.procs[i].ctx.task.pid, SIGPIPE);
        HostEvolves(k, i, o, why);
      case WallClock(status) => KillEvolves(k, status, why);
      case _ =>
    }
  }

  /** What a fetch comes to for anybody: nothing but SIGCHLD becomes pending, and nothing stops being
      pending that was not taken or ignored. */
  lemma FetchPasses(k: Session, i: nat, x: int)
    requires Enabled(k, FetchSignal(i))
    ensures
      var t := k.procs[i].ctx.task;
      var was, now := Pending(k.sh, x), Pending(Step(k, FetchSignal(i)).sh, x);
      && now <= was + {SIGCHLD}
      && (forall s :: s in was && s !in now && Find(Step(k, FetchSignal(i)).sh.table, x).Some? ==>
            x == t.pid && (Taking(k, i) == Some(s) || Unheeded(t, s)))
      && (x == t.pid && Taking(k, i).Some? ==> Taking(k, i).value in was && Taking(k, i).value !in now)
  {
    hide FinishProcess, Find, WithRecord;
    var t := k.procs[i].ctx.task;
    FetchedWritesBack(k, i);
    if Taking(k, i).Some? {
      LowestLive(Pending(k.sh, t.pid), t);
      if Action(t, Taking(k, i).value).handler == SIG_DFL {
        var status := StatusSignaled(Taking(k, i).value);
        assert Step(k, FetchSignal(i)) == FinishProcess(Fetched(k, i), i, status);
        DeathPasses(Fetched(k, i), i, status, x);
        assert Taking(k, i).value != SIGCHLD;
      }
    }
  }

  lemma DeathPasses(k: Session, i: nat, status: int, x: int)
    requires i < |k.procs|
    ensures var after := FinishProcess(k, i, status);
      && Pending(after.sh, x) <= Pending(k.sh, x) + {SIGCHLD}
      && (Find(after.sh.table, x).Some? ==> Pending(k.sh, x) <= Pending(after.sh, x))
  {
    hide FinishProcess, Find;
    var after := FinishProcess(k, i, status);
    var why := (y: int, s: int) => s == SIGCHLD;
    FinishEvolves(k, i, status, why);
    assert Pending(k.sh, x) == PendingIn(k.sh.table, x) && Pending(after.sh, x) == PendingIn(after.sh.table, x);
    forall s | s in Pending(after.sh, x) && s !in Pending(k.sh, x) ensures s == SIGCHLD {
      assert s in PendingIn(after.sh.table, x) && s !in PendingIn(k.sh.table, x);
      assert why(x, s);
    }
  }

  /** A signal becomes pending for a process only by a `kill` that is sent to it, by a write of its own
      into a pipe nobody reads, or as SIGCHLD. */
  lemma OnlyRaised(k: Session, m: Move, x: int, s: int)
    requires s in Pending(Step(k, m).sh, x) && s !in Pending(k.sh, x)
    ensures MayRaise(k, m, x, s)
  {
    hide Step, Find, MayRaise;
    if m.FetchSignal? {
      if Enabled(k, m) {
        FetchPasses(k, m.i, x);
        ParentsMayBeTold(k, m, x);
      } else {
        NothingHappens(k, m);
      }
    } else {
      StepPasses(k, m, (y: int, r: int) => MayRaise(k, m, y, r));
      assert s in PendingIn(Step(k, m).sh.table, x) && s !in PendingIn(k.sh.table, x);
    }
  }

  lemma ParentsMayBeTold(k: Session, m: Move, x: int)
    ensures MayRaise(k, m, x, SIGCHLD)
  {
  }

  lemma NothingHappens(k: Session, m: Move)
    requires !Enabled(k, m)
    ensures Step(k, m) == k
  {
  }

  /** A pending signal stays pending until its process takes it, or finds it ignored, or is gone from
      the table. */
  lemma NoneLost(k: Session, m: Move, x: int, s: int)
    requires s in Pending(k.sh, x) && Find(Step(k, m).sh.table, x).Some?
    ensures
      || s in Pending(Step(k, m).sh, x)
      || (Enabled(k, m) && m.FetchSignal? && k.procs[m.i].ctx.task.pid == x
          && (Taking(k, m.i) == Some(s) || Unheeded(k.procs[m.i].ctx.task, s)))
  {
    hide Step, Find, MayRaise;
    if m.FetchSignal? {
      if Enabled(k, m) {
        FetchPasses(k, m.i, x);
      } else {
        NothingHappens(k, m);
      }
    } else {
      StepPasses(k, m, (y: int, r: int) => MayRaise(k, m, y, r));
      assert PendingIn(k.sh.table, x) <= PendingIn(Step(k, m).sh.table, x);
    }
  }

  // ----- every run -----------------------------------------------------------------------

  /** The move delivers signal `s` to process `x`, to its handler or by its death. */
  predicate Delivers(k: Session, m: Move, x: int, s: int) {
    Enabled(k, m) && m.FetchSignal? && k.procs[m.i].ctx.task.pid == x && Taking(k, m.i) == Some(s)
  }

  /** How often a run delivers signal `s` to process `x`. */
  function Deliveries(k: Session, moves: seq<Move>, x: int, s: int): nat {
    if |moves| == 0 then 0
    else
      var before, m := moves[..|moves| - 1], moves[|moves| - 1];
      Deliveries(k, before, x, s) + Unit(Delivers(Run(k, before), m, x, s))
  }

  /** How often in a run signal `s` becomes pending for process `x`, which it was not before. */
  function Raisings(k: Session, moves: seq<Move>, x: int, s: int): nat {
    if |moves| == 0 then 0
    else
      var before, m := moves[..|moves| - 1], moves[|moves| - 1];
      Raisings(k, before, x, s) + Unit(s !in Pending(Run(k, before).sh, x) && s in Pending(Run(k, moves).sh, x))
  }

  /** On every run a signal is delivered to a process no more often than it was raised, and if it is
      still pending once less than that. */
  lemma {:induction false} DeliveredOnce(k: Session, moves: seq<Move>, x: int, s: int)
    ensures Deliveries(k, moves, x, s) + Unit(s in Pending(Run(k, moves).sh, x))
         <= Raisings(k, moves, x, s) + Unit(s in Pending(k.sh, x))
  {
    hide Step, Delivers, Pending;
    if |moves| > 0 {
      var before, m := moves[..|moves| - 1], moves[|moves| - 1];
      DeliveredOnce(k, before, x, s);
      if Delivers(Run(k, before), m, x, s) {
        DeliveryTakes(Run(k, before), m, x, s);
      }
    }
  }

  lemma DeliveryTakes(k: Session, m: Move, x: int, s: int)
    requires Delivers(k, m, x, s)
    ensures s in Pending(k.sh, x) && s !in Pending(Step(k, m).sh, x)
  {
    hide Step, Find, Taking;
    FetchPasses(k, m.i, x);
  }
}
