/** What the end of a process leaves behind: what its parent is told, who inherits its children, and
    what the session itself ends with. */
module Exits {
  import opened Base
  import opened Sums
  import opened Fds
  import opened Kernel
  import opened Syscalls
  import opened HostSteps
  import opened Signals
  import opened Machine
  import opened References
  import opened CallFrames
  import opened Census
  import opened CensusCalls
  import opened LifeFacts

  // ----- records, whatever the table -----------------------------------------------------

  lemma {:induction false} WithoutLeaves(table: seq<Record>, pid: int, x: int)
    ensures Find(Without(table, pid), x) == if x == pid then None else Find(table, x)
  {
    if |table| > 0 {
      var rest := Without(table[1..], pid);
      WithoutLeaves(table[1..], pid, x);
      if table[0].pid != pid {
        assert ([table[0]] + rest)[1..] == rest;
      }
    }
  }

  lemma AdoptedFinds(table: seq<Record>, dead: int, x: int)
    ensures Find(Reparented(table, dead), x) ==
      match Find(table, x) case Some(r) => Some(Adopted(r, dead)) case None => None
  {
    SamePids(Reparented(table, dead), table, x);
  }

  lemma RaisedFinds(table: seq<Record>, pid: int, sig: int, x: int)
    ensures Find(Raised(table, pid, sig), x) ==
      if x == pid && Find(table, pid).Some? then Some(RaisedOn(Find(table, pid).value, sig)) else Find(table, x)
  {
    if Find(table, pid).Some? {
      WithFinds(table, pid, RaisedOn(Find(table, pid).value, sig));
    }
  }

  // ----- one exit ------------------------------------------------------------------------

  /** There is somebody to tell of the end of `pid`. */
  predicate HasLivingParent(table: seq<Record>, pid: int) {
    && Find(table, pid).Some?
    && var parent := Find(table, pid).value.ppid; parent != pid && Alive(table, parent)
  }

  /** The record of another process after an exit: an orphan goes to process 1, and the parent, if it
      lives, has a SIGCHLD pending. */
  function Survivor(table: seq<Record>, pid: int, x: int): Option<Record>
    requires Find(table, pid).Some?
  {
    match Find(table, x)
    case None => None
    case Some(r) =>
      var told := HasLivingParent(table, pid) && x == Find(table, pid).value.ppid;
      Some(r.(ppid := if r.ppid == pid then 1 else r.ppid, pending := if told then r.pending + {17} else r.pending))
  }

  /** An exit is seen in the record of the process, which keeps its first status for the parent to
      wait for, and is gone if there is no living parent; in the children it leaves; and in the
      parent, which has a SIGCHLD pending; and nowhere else. */
  lemma ExitTells(sh: Shared, pid: int, status: int)
    requires Find(sh.table, pid).Some?
    ensures
      var me := Find(sh.table, pid).value;
      var after := SetExit(sh, pid, status);
      && after == sh.(table := after.table)
      && (forall x :: x != pid ==> Find(after.table, x) == Survivor(sh.table, pid, x))
      && (if HasLivingParent(sh.table, pid) then
            && Find(after.table, pid).Some?
            && var r := Find(after.table, pid).value;
               && r.exit == Some(if me.exit.Some? then me.exit.value else status) && r.wakeAt == None
               && r == me.(exit := r.exit, wakeAt := None)
          else Find(after.table, pid) == None)
  {
    hide Reparented, WithRecord, Without, Raised, IndexOf, Find;
    var table := sh.table;
    var me := Find(table, pid).value;
    assert me.pid == pid by { FoundIsHis(table, pid); }
    var ended := WithRecord(table, pid, Ended(me, status));
    WithFinds(table, pid, Ended(me, status));
    var moved := Reparented(ended, pid);
    forall x ensures Find(moved, x) == match Find(ended, x) case Some(r) => Some(Adopted(r, pid)) case None => None {
      AdoptedFinds(ended, pid, x);
    }
    assert Alive(moved, me.ppid) == HasLivingParent(table, pid);
    var after := ExitTable(table, pid, status);
    forall x ensures Find(after, x) ==
      if Alive(moved, me.ppid) then
        (if x == me.ppid && Find(moved, x).Some? then Some(RaisedOn(Find(moved, x).value, SIGCHLD)) else Find(moved, x))
      else if x == pid then None else Find(moved, x)
    {
      if Alive(moved, me.ppid) {
        RaisedFinds(moved, me.ppid, SIGCHLD, x);
      } else {
        WithoutLeaves(moved, pid, x);
      }
    }
  }

  /** What is pending after an exit: SIGCHLD more for a living parent, and nothing for anybody else. */
  lemma ChildIsTold(sh: Shared, pid: int, status: int, x: int)
    requires Find(sh.table, pid).Some? && x != pid
    ensures
      var told := HasLivingParent(sh.table, pid) && x == Find(sh.table, pid).value.ppid;
      Pending(SetExit(sh, pid, status), x) == if told then Pending(sh, x) + {17} else Pending(sh, x)
  {
    hide ExitTable;
    ExitTells(sh, pid, status);
  }

  /** A parent that handles SIGCHLD and does not block it is interrupted by the end of a child: a
      `sigsuspend` it waits in is over, with `EINTR`. */
  lemma ParentIsWoken(c: Cpu, pid: int, status: int, mask: set<int>, now: nat)
    requires HasLivingParent(c.sh.table, pid) && Find(c.sh.table, pid).value.ppid == c.ctx.task.pid
    requires Action(c.ctx.task, SIGCHLD).handler !in {SIG_IGN, SIG_DFL} && SIGCHLD !in mask
    ensures
      var after := c.(sh := SetExit(c.sh, pid, status));
      && (SIGCHLD !in c.ctx.task.sigmask ==> Interrupted(after.sh, after.ctx))
      && Dispatch(after, Wait(Sigsuspend(mask)), now).0 == Fail(INTR)
  {
    hide ExitTable;
    ChildIsTold(c.sh, pid, status, c.ctx.task.pid);
    var after := c.(sh := SetExit(c.sh, pid, status));
    if SIGCHLD !in c.ctx.task.sigmask {
      StillLive(after.sh, after.ctx);
    }
    var suspended := DoSigsuspend(Counted(after), mask).1;
    StillLive(suspended.sh, suspended.ctx);
  }

  lemma StillLive(sh: Shared, ctx: Ctx)
    requires SIGCHLD in Pending(sh, ctx.task.pid) && SIGCHLD !in ctx.task.sigmask
    requires Action(ctx.task, SIGCHLD).handler !in {SIG_IGN, SIG_DFL}
    ensures Interrupted(sh, ctx)
  {
    assert SIGCHLD in Deliverable(Pending(sh, ctx.task.pid), ctx.task.sigmask, ctx.task);
  }

  /** The parent of a process that has ended finds it: `wait4` for its pid answers with that pid and
      takes its record, with the status it ended with, out of the table. */
  lemma ParentReaps(c: Cpu, pid: int, status: int)
    requires TableOk(c.sh.table, c.sh.nextPid) && pid > 0
    requires HasLivingParent(c.sh.table, pid) && Find(c.sh.table, pid).value.ppid == c.ctx.task.pid
    ensures
      var after := c.(sh := SetExit(c.sh, pid, status));
      var (a, reaped) := DoWait4(after, pid, false, true);
      a == Value(pid) && Find(reaped.sh.table, pid) == None
  {
    hide ExitTable, TableOk, Without, FirstDead;
    var sh := SetExit(c.sh, pid, status);
    ExitTells(c.sh, pid, status);
    var group := GroupOf(sh, c.ctx.task.pid);
    var i := IndexOf(sh.table, pid);
    assert Waits(sh.table[i], c.ctx.task.pid, group, pid) && sh.table[i].exit.Some?;
    FirstDeadFound(sh.table, c.ctx.task.pid, group, pid);
    DeadFound(sh.table, c.ctx.task.pid, group, pid);
    WithoutLeaves(sh.table, pid, pid);
  }

  // ----- tasks and instances -------------------------------------------------------------

  lemma TaskEndsTable(sh: Shared, t: Task, status: int)
    ensures TaskEnds(sh, t, status).table == SetExit(sh, t.pid, status).table
  {
    hide ReleaseFds, ExitTable;
    ReleaseFdsFrame(sh, t.fds);
  }

  /** A `vfork` child that exits is on record with the low byte of its code, the parent whose task
      comes back is told and gets its pid. */
  lemma ChildExits(c: Cpu, code: int)
    requires c.ctx.vforkStack != [] && Find(c.sh.table, c.ctx.task.pid).Some?
    requires Find(c.sh.table, c.ctx.task.pid).value.exit.None?
    ensures
      var n, pid := |c.ctx.vforkStack|, c.ctx.task.pid;
      var (a, after) := DoExit(c, code);
      && a == Value(pid)
      && after.ctx == c.ctx.(task := c.ctx.vforkStack[n - 1], vforkStack := c.ctx.vforkStack[..n - 1])
      && (forall x :: x != pid ==> Find(after.sh.table, x) == Survivor(c.sh.table, pid, x))
      && (HasLivingParent(c.sh.table, pid) ==>
            Find(after.sh.table, pid).Some? && Find(after.sh.table, pid).value.exit == Some((code % 256) * 256))
  {
    hide ReleaseFds, ExitTable;
    TaskEndsTable(c.sh, c.ctx.task, StatusExited(code));
    ExitTells(c.sh, c.ctx.task.pid, StatusExited(code));
  }

  ghost predicate OnRecord(table: seq<Record>, task: Task, stack: seq<Task>) {
    && Find(table, task.pid).Some?
    && forall i :: 0 <= i < |stack| ==> Find(table, stack[i].pid).Some?
  }

  /** How the record of `x`, if it is still there, says that it ended. */
  function EndOf(table: seq<Record>, x: int): Option<int> {
    match Find(table, x)
    case Some(r) => r.exit
    case None => None
  }

  /** A `vfork` child among the tasks of an instance, the process it belongs to first. */
  predicate Inside(tasks: seq<Task>, x: int) {
    exists i :: 1 <= i < |tasks| && tasks[i].pid == x
  }

  lemma InsideOneMore(tasks: seq<Task>, task: Task, x: int)
    requires |tasks| > 0
    ensures Inside(tasks + [task], x) <==> Inside(tasks, x) || x == task.pid
  {
    var all := tasks + [task];
    assert all[|tasks|] == task;
    if Inside(tasks, x) {
      var i :| 1 <= i < |tasks| && tasks[i].pid == x;
      assert all[i].pid == x;
    }
  }

  ghost predicate Distinct(tasks: seq<Task>) {
    forall i, j :: 0 <= i < j < |tasks| ==> tasks[i].pid != tasks[j].pid
  }

  /** When an instance dies, the process it belongs to ends with the status given, and each `vfork`
      child still inside it as killed by signal 9; nobody else ends, and whoever had ended before
      keeps the status it had. */
  lemma {:induction false} InstanceEnds(sh: Shared, task: Task, stack: seq<Task>, status: int, x: int)
    requires OnRecord(sh.table, task, stack) && Distinct(stack + [task])
    ensures var after := StackEnds(sh, task, stack, status);
      Find(after.table, x).Some? ==>
        && Find(sh.table, x).Some?
        && EndOf(after.table, x) ==
           if EndOf(sh.table, x).Some? then EndOf(sh.table, x)
           else if x == (stack + [task])[0].pid then Some(status)
           else if Inside(stack + [task], x) then Some(9)
           else None
    decreases |stack|
  {
    hide SetExit, Find, HasLivingParent, TaskEnds, Inside, Distinct;
    var n := |stack|;
    var given := if n == 0 then status else StatusSignaled(SIGKILL);
    var once := TaskEnds(sh, task, given);
    TaskEndsTable(sh, task, given);
    ExitTells(sh, task.pid, given);
    if n == 0 {
      NobodyInside(task, x);
    } else {
      var top, rest := stack[n - 1], stack[..n - 1];
      assert stack == rest + [top];
      OneLeft(sh, once, stack, task);
      assert OnRecord(once.table, top, rest);
      InstanceEnds(once, top, rest, status, x);
      InsideOneMore(stack, task, x);
      assert (stack + [task])[0] == stack[0];
    }
  }

  lemma NobodyInside(task: Task, x: int)
    ensures !Inside([] + [task], x)
  {
  }

  lemma OneLeft(sh: Shared, once: Shared, stack: seq<Task>, task: Task)
    requires stack != [] && OnRecord(sh.table, task, stack) && Distinct(stack + [task])
    requires forall x :: x != task.pid ==> Find(once.table, x) == Survivor(sh.table, task.pid, x)
    ensures Distinct(stack) && stack[0].pid != task.pid
    ensures forall i :: 0 <= i < |stack| ==> Find(once.table, stack[i].pid).Some?
  {
    hide Find, HasLivingParent;
    var all := stack + [task];
    forall i | 0 <= i < |stack| ensures stack[i].pid != task.pid && Find(once.table, stack[i].pid).Some? {
      assert all[i].pid != all[|stack|].pid;
    }
    forall i, j | 0 <= i < j < |stack| ensures stack[i].pid != stack[j].pid {
      assert all[i].pid != all[j].pid;
    }
  }

  // ----- how a process ends --------------------------------------------------------------

  /** The process whose instance this is: a `vfork` child runs in its parent's. */
  function FirstOf(ctx: Ctx): int {
    (ctx.vforkStack + [ctx.task])[0].pid
  }

  /** The wait status a move ends the process at its place with, if it ends it. */
  function EndsWith(k: Session, m: Move): Option<int> {
    if !Enabled(k, m) then None
    else match m
      case Syscall(i, call, now) => Exiting(k, i, call, now)
      case Retry(i, call, now) => Exiting(k, i, call, now)
      case FetchSignal(i) => Dying(k, i)
      case Gone(_, status, _) => Some(status)
      case HostMove(i, o) => Leaving(k, i, o)
      case _ => None
  }

  /** Only a process that is nobody's `vfork` child ends by an exit of its own. */
  function Exiting(k: Session, i: nat, call: Call, now: nat): Option<int>
    requires i < |k.procs|
  {
    if k.procs[i].ctx.vforkStack == [] && call.Life? && call.life.ExitCall? then Some((call.life.code % 256) * 256)
    else None
  }

  /** A deliverable signal whose action is the default one is the end of the process. */
  function Dying(k: Session, i: nat): Option<int>
    requires i < |k.procs|
  {
    var t := k.procs[i].ctx.task;
    var live := Deliverable(Pending(k.sh, t.pid), t.sigmask, t);
    if live != {} && Action(t, LowestFrom(live, 1)).handler == SIG_DFL then Some(LowestFrom(live, 1)) else None
  }

  function Leaving(k: Session, i: nat, o: HostOracle): Option<int>
    requires i < |k.procs| && k.procs[i].body.Host? && PhaseOk(k.procs[i].body.phase)
  {
    var p := k.procs[i];
    match StepHost(k.sh, p.ctx.task, p.body.readsStdin, p.body.phase, o)
    case Some((EndedWith(status), _, _)) => Some(status)
    case _ => None
  }

  /** The status the session ends with after a run: that of the first end which is of process 1 or
      leaves nobody running, or the one the wall clock gives whoever is left. */
  function FirstEnd(s: Session, moves: seq<Move>): Option<int> {
    if |moves| == 0 then None
    else
      var before, m := moves[..|moves| - 1], moves[|moves| - 1];
      var k := Run(s, before);
      if FirstEnd(s, before).Some? then FirstEnd(s, before)
      else if m.WallClock? && Enabled(k, m) then Some(m.status)
      else if EndsWith(k, m).Some? && Mine(m) < |k.procs|
              && (FirstOf(k.procs[Mine(m)].ctx) == 1 || Run(s, moves).procs == []) then EndsWith(k, m)
      else None
  }

  /** The place of the process a move that can end one is made for. */
  function Mine(m: Move): nat {
    match m
    case Syscall(i, _, _) => i
    case Retry(i, _, _) => i
    case FetchSignal(i) => i
    case Gone(i, _, _) => i
    case HostMove(i, _) => i
    case _ => 0
  }

  lemma ExitAnswers(c: Cpu, call: Call, now: nat)
    ensures var a := Dispatch(c, call, now).0;
      && (a.Exits? <==> c.ctx.vforkStack == [] && call.Life? && call.life.ExitCall?)
      && (a.Exits? ==> a.status == (call.life.code % 256) * 256)
  {
    hide Finished, ReleaseAll, ReleaseFds, SetExit, KeptOnExec, DrainedCloexec, ForkRecord, Bumped, Interrupted;
    if !ChangesIdentity(call) {
      hide Handle;
      AnswersOnly(Counted(c), call, now);
    }
  }

  lemma FinishedStatus(k: Session, i: nat, status: int)
    requires i < |k.procs|
    ensures FinishProcess(k, i, status).exitStatus ==
      if k.exitStatus.None? && (FirstOf(k.procs[i].ctx) == 1 || FinishProcess(k, i, status).procs == []) then
        Some(status)
      else k.exitStatus
  {
    hide StackEnds;
  }

  lemma {:induction false} KilledStatus(k: Session, status: int)
    ensures KillAll(k, status).exitStatus == if k.exitStatus.Some? then k.exitStatus else Some(status)
    decreases |k.procs|
  {
    hide FinishProcess;
    if |k.procs| > 0 {
      FinishedStatus(k, 0, status);
      OneFewerLeft(k, status);
      KilledStatus(FinishProcess(k, 0, status), status);
    }
  }

  lemma OneFewerLeft(k: Session, status: int)
    requires |k.procs| > 0
    ensures |FinishProcess(k, 0, status).procs| < |k.procs|
  {
    hide StackEnds;
  }

  lemma ServeStatus(k: Session, i: nat, call: Call, now: nat)
    requires i < |k.procs| && k.exitStatus.None?
    ensures Serve(k, i, call, now).exitStatus ==
      if Exiting(k, i, call, now).Some? && (FirstOf(k.procs[i].ctx) == 1 || Serve(k, i, call, now).procs == []) then
        Exiting(k, i, call, now)
      else None
  {
    hide Dispatch, FinishProcess;
    var p := k.procs[i];
    var c := Cpu(k.sh, p.ctx, p.inst);
    ExitAnswers(c, call, now);
    var (a, after) := Dispatch(c, call, now);
    if a.Exits? {
      ExitingStays(c, call, now);
      var p' := p.(ctx := after.ctx, inst := after.inst, resume := Running);
      FinishedStatus(k.(sh := after.sh, procs := k.procs[i := p']), i, a.status);
    }
  }

  lemma ExitingStays(c: Cpu, call: Call, now: nat)
    requires Dispatch(c, call, now).0.Exits?
    ensures Dispatch(c, call, now).1 == Counted(c)
  {
    ExitAnswers(c, call, now);
  }

  lemma DyingTakes(pending: set<int>, t: Task)
    ensures var live := Deliverable(pending, t.sigmask, t);
      && (NextSignal(pending, t).0.Fatal? <==> live != {} && Action(t, LowestFrom(live, 1)).handler == SIG_DFL)
      && (NextSignal(pending, t).0.Fatal? ==> NextSignal(pending, t).0.status == LowestFrom(live, 1))
      && NextSignal(pending, t).2.pid == t.pid
  {
    if Deliverable(pending, t.sigmask, t) != {} {
      LowestLive(pending, t);
    }
  }

  lemma FetchStatus(k: Session, i: nat)
    requires i < |k.procs| && k.exitStatus.None?
    ensures Fetch(k, i).exitStatus ==
      if Dying(k, i).Some? && (FirstOf(k.procs[i].ctx) == 1 || Fetch(k, i).procs == []) then Dying(k, i) else None
  {
    hide NextSignal, FinishProcess, WithRecord, Deliverable;
    var p := k.procs[i];
    var pid := p.ctx.task.pid;
    DyingTakes(Pending(k.sh, pid), p.ctx.task);
    var (d, left, t) := NextSignal(Pending(k.sh, pid), p.ctx.task);
    var r := Find(k.sh.table, pid);
    var sh := if r.Some? then k.sh.(table := WithRecord(k.sh.table, pid, r.value.(pending := left))) else k.sh;
    var exec := if d.NoSignal? && p.ctx.exec.hasFlag then p.ctx.exec.(flag := false) else p.ctx.exec;
    if d.Fatal? {
      FinishedStatus(k.(sh := sh, procs := k.procs[i := p.(ctx := p.ctx.(task := t, exec := exec))]), i, d.status);
    }
  }

  lemma HostStatus(k: Session, i: nat, o: HostOracle)
    requires i < |k.procs| && k.procs[i].body.Host? && PhaseOk(k.procs[i].body.phase) && k.exitStatus.None?
    ensures HostTurn(k, i, o).exitStatus ==
      if Leaving(k, i, o).Some? && (FirstOf(k.procs[i].ctx) == 1 || HostTurn(k, i, o).procs == []) then Leaving(k, i, o)
      else None
  {
    hide StepHost, FinishProcess;
    var p := k.procs[i];
    match StepHost(k.sh, p.ctx.task, p.body.readsStdin, p.body.phase, o)
    case None =>
    case Some((step, phase, sh)) =>
      if step.EndedWith? {
        FinishedStatus(k.(sh := sh, procs := k.procs[i := p.(body := p.body.(phase := phase))]), i, step.status);
      }
  }

  /** Neither a start nor a replacement sets the session's status, one that fails and so ends a process
      included. */
  lemma OthersEndNone(k: Session, m: Move)
    requires m.Replace? || m.StartSpawn?
    ensures Step(k, m).exitStatus == k.exitStatus
  {
    hide ReleaseFds, Charged, ExitTable;
  }

  lemma StatusStays(k: Session, m: Move)
    requires k.exitStatus.Some?
    ensures Step(k, m).exitStatus == k.exitStatus
  {
    hide Dispatch, StackEnds, NextSignal, StepHost, ReplaceInstance, StartNext, KillAll;
    match m
    case WallClock(status) => KilledStatus(k, status);
    case Replace(_, _) => OthersEndNone(k, m);
    case StartSpawn(_) => OthersEndNone(k, m);
    case _ =>
  }

  /** On every run the session's exit status is that of the first end which is of process 1 or leaves
      nobody running: the low byte of the code it exited with, the signal that killed it, what its
      host command answered. From then on it stays. */
  lemma {:induction false} SessionEndsWith(s: Session, moves: seq<Move>)
    requires s.exitStatus.None?
    ensures Run(s, moves).exitStatus == FirstEnd(s, moves)
  {
    hide Serve, Fetch, HostTurn, FinishProcess, KillAll, ReplaceInstance, StartNext, EndsWith, Exiting, Dying, Leaving;
    if |moves| > 0 {
      var before, m := moves[..|moves| - 1], moves[|moves| - 1];
      SessionEndsWith(s, before);
      MoveStatus(Run(s, before), m);
    }
  }

  lemma MoveStatus(k: Session, m: Move)
    ensures Step(k, m).exitStatus ==
      if k.exitStatus.Some? then k.exitStatus
      else if m.WallClock? && Enabled(k, m) then Some(m.status)
      else if EndsWith(k, m).Some? && Mine(m) < |k.procs|
              && (FirstOf(k.procs[Mine(m)].ctx) == 1 || Step(k, m).procs == []) then EndsWith(k, m)
      else None
  {
    hide Serve, Fetch, HostTurn, FinishProcess, KillAll, ReplaceInstance, StartNext, Exiting, Dying, Leaving;
    if k.exitStatus.Some? {
      StatusStays(k, m);
    } else if Enabled(k, m) {
      match m
      case Syscall(i, call, now) => ServeStatus(k, i, call, now);
      case Retry(i, call, now) => ServeStatus(k, i, call, now);
      case FetchSignal(i) => FetchStatus(k, i);
      case Gone(i, status, complaint) => FinishedStatus(k.(sh := WriteOutput(k.sh, 2, complaint)), i, status);
      case HostMove(i, o) => HostStatus(k, i, o);
      case WallClock(status) => KilledStatus(k, status);
      case Replace(_, _) => OthersEndNone(k, m);
      case StartSpawn(_) => OthersEndNone(k, m);
      case _ =>
    }
  }
}
