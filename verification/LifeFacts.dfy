/** What the calls about processes promise their callers. */
module LifeFacts {
  import opened Base
  import opened Fds
  import opened Kernel
  import opened Syscalls
  import opened Machine
  import opened CallFrames
  import opened References
  import opened Census
  import opened CensusCalls

  lemma {:induction false} FirstDeadFound(table: seq<Record>, pid: int, pgid: int, which: int)
    ensures FirstDead(table, pid, pgid, which).Some? <==>
      exists i :: 0 <= i < |table| && Waits(table[i], pid, pgid, which) && table[i].exit.Some?
  {
    if |table| > 0 {
      FirstDeadFound(table[1..], pid, pgid, which);
      if FirstDead(table[1..], pid, pgid, which).Some? {
        var i :| 0 <= i < |table[1..]| && Waits(table[1..][i], pid, pgid, which) && table[1..][i].exit.Some?;
        assert table[i + 1] == table[1..][i];
      } else if !(Waits(table[0], pid, pgid, which) && table[0].exit.Some?) {
        forall i | 0 <= i < |table| ensures !(Waits(table[i], pid, pgid, which) && table[i].exit.Some?) {
          assert i > 0 ==> table[i] == table[1..][i - 1];
        }
      }
    }
  }

  /** The child is one `wait4` asks about: any, any of the caller's own group, that one, or any of that
      group. */
  predicate AskedAbout(r: Record, pid: int, group: int, which: int) {
    && r.ppid == pid
    && (which == -1 || (which == 0 && r.pgid == group) || (which > 0 && r.pid == which)
        || (which < -1 && r.pgid == -which))
  }

  lemma AsksAsWaits(r: Record, pid: int, group: int, which: int)
    ensures AskedAbout(r, pid, group, which) <==> Waits(r, pid, group, which)
  {
  }

  /** `wait4` fails with `ECHILD` exactly when it asks about no child; waits exactly when it asks
      about some and all of them live; and otherwise takes one dead child asked about out of the
      table, and nothing else. The child is gone even if its pid and status cannot be copied to the
      caller, who is then told of a fault and not of the child. */
  lemma Wait4Reaps(c: Cpu, which: int, noHang: bool, copyOk: bool)
    requires TableOk(c.sh.table, c.sh.nextPid)
    ensures
      var pid := c.ctx.task.pid;
      var group := GroupOf(c.sh, pid);
      var asked := exists i :: 0 <= i < |c.sh.table| && AskedAbout(c.sh.table[i], pid, group, which);
      var dead := exists i ::
        0 <= i < |c.sh.table| && AskedAbout(c.sh.table[i], pid, group, which) && c.sh.table[i].exit.Some?;
      var (a, after) := DoWait4(c, which, noHang, copyOk);
      && (a == Fail(CHILD) <==> !asked)
      && (a == Block <==> asked && !dead && !noHang)
      && (a == Fail(FAULT) <==> dead && !copyOk)
      && (dead ==>
            exists r: Record ::
              && r in c.sh.table && AskedAbout(r, pid, group, which) && r.exit.Some? && (copyOk ==> a == Value(r.pid))
              && after == c.(sh := c.sh.(table := after.sh.table))
              && forall x :: Find(after.sh.table, x) == if x == r.pid then None else Find(c.sh.table, x))
      && (!dead ==> after == c)
  {
    hide Without, TableOk, FirstDead, Waits, AskedAbout;
    var pid := c.ctx.task.pid;
    var group := GroupOf(c.sh, pid);
    forall r: Record ensures AskedAbout(r, pid, group, which) <==> Waits(r, pid, group, which) {
      AsksAsWaits(r, pid, group, which);
    }
    FirstDeadFound(c.sh.table, pid, group, which);
    DeadFound(c.sh.table, pid, group, which);
    var r := FirstDead(c.sh.table, pid, group, which);
    if r.Some? {
      assert AnyChild(c.sh.table, pid, group, which);
      ReapedOnly(c, r.value);
    }
  }

  lemma ReapedOnly(c: Cpu, r: Record)
    requires TableOk(c.sh.table, c.sh.nextPid)
    ensures forall x :: Find(Without(c.sh.table, r.pid), x) == if x == r.pid then None else Find(c.sh.table, x)
  {
    WithoutFinds(c.sh.table, c.sh.nextPid, r.pid);
  }

  /** What an `execve` keeps: the process, its place, its masks, every descriptor not marked
      close-on-exec; and of its handlers only that what was ignored stays ignored. */
  lemma ExecveKeeps(c: Cpu, program: nat, exe: string, argv: seq<seq<byte>>, envp: seq<seq<byte>>, fd: nat, sig: nat)
    requires c.ctx.vforkStack == [] && sig < |c.ctx.task.sigact|
    ensures
      var (a, after) := DoExecve(c, program, exe, argv, envp);
      && a == Execs && after.ctx.execRequest.Some?
      && var before := c.ctx.task; var task := Launched(after.ctx.execRequest.value);
         && task.pid == before.pid && task.cwd == before.cwd && task.umask == before.umask
           && task.sigmask == before.sigmask
         && task.exe == exe
         && (IsOpen(task.fds, fd) <==> IsOpen(before.fds, fd) && !before.fds[fd].value.cloexec)
         && (IsOpen(task.fds, fd) ==> task.fds[fd] == before.fds[fd])
         && task.sigact[sig] == if before.sigact[sig].handler == SIG_IGN then before.sigact[sig] else DEFAULT_ACTION
  {
    hide ReleaseAll, DrainedCloexec;
  }

  /** A `vfork` child starts as its parent in everything but its pid, descriptors included. */
  lemma ChildIsCopy(c: Cpu)
    requires DoClone(c, true).0 == Value(0)
    ensures var after := DoClone(c, true).1;
      && after.ctx.task == c.ctx.task.(pid := c.sh.nextPid)
      && after.ctx.vforkStack == c.ctx.vforkStack + [c.ctx.task]
      && LiveCount(c.sh.table) < c.sh.limits.processes
  {
    hide Bumped, Drained, LiveCount, Find;
  }

  lemma {:induction false} WithFinds(table: seq<Record>, pid: int, r: Record)
    requires r.pid == pid
    ensures forall x :: Find(WithRecord(table, pid, r), x)
                     == if x == pid && Find(table, pid).Some? then Some(r) else Find(table, x)
  {
    forall x ensures Find(WithRecord(table, pid, r), x)
                  == if x == pid && Find(table, pid).Some? then Some(r) else Find(table, x)
    {
      SamePids(table, WithRecord(table, pid, r), x);
    }
  }

  /** `setpgid` fails exactly for a process that is not there; else that process, and no other, is
      in the group asked for, its own if none is named, and `wait4` for that group finds it. */
  lemma GroupMoves(c: Cpu, target: int, group: int, parent: int, parentGroup: int)
    ensures
      var who := if target == 0 then c.ctx.task.pid else target;
      var to := if group == 0 then who else group;
      var (a, after) := DoSetpgid(c, target, group);
      && a == (if Find(c.sh.table, who).Some? then Value(0) else Fail(SRCH))
      && after == c.(sh := c.sh.(table := after.sh.table))
      && (forall x :: Find(after.sh.table, x) ==
            if x == who && Find(c.sh.table, who).Some? then Some(Find(c.sh.table, who).value.(pgid := to))
            else Find(c.sh.table, x))
      && (a == Value(0) && to > 0 ==>
            var r := Find(after.sh.table, who).value; Waits(r, parent, parentGroup, -to) <==> r.ppid == parent)
  {
    var who := if target == 0 then c.ctx.task.pid else target;
    var to := if group == 0 then who else group;
    if Find(c.sh.table, who).Some? {
      WithFinds(c.sh.table, who, Find(c.sh.table, who).value.(pgid := to));
    }
  }

  /** After `setsid` the caller leads a session and a group that carry its pid, and nobody else has
      moved. */
  lemma SessionStarts(c: Cpu)
    ensures
      var pid := c.ctx.task.pid;
      var (a, after) := DoSetsid(c);
      && a == (if Find(c.sh.table, pid).Some? then Value(pid) else Fail(SRCH))
      && after == c.(sh := c.sh.(table := after.sh.table)) && GroupOf(after.sh, pid) == pid
      && (forall x :: Find(after.sh.table, x) ==
            if x == pid && Find(c.sh.table, pid).Some? then
              Some(Find(c.sh.table, pid).value.(pgid := pid, sid := pid))
            else Find(c.sh.table, x))
  {
    var pid := c.ctx.task.pid;
    if Find(c.sh.table, pid).Some? {
      WithFinds(c.sh.table, pid, Find(c.sh.table, pid).value.(pgid := pid, sid := pid));
    }
  }

  /** Whom a `kill` is for: that process, dead or alive; the living of the caller's own group; every living
      process but the first and the caller; the living of that group. */
  predicate SentTo(r: Record, target: int, me: int, group: int) {
    || (target > 0 && r.pid == target)
    || (r.exit.None? && ((target == 0 && r.pgid == group) || (target == -1 && r.pid !in {1, me})
                         || (target < -1 && r.pgid == -target)))
  }

  /** A `kill` is refused exactly for what is no signal, and for nobody; otherwise the signal is pending
      for everybody it is for, whose sleep is over, and signal 0 and everybody else are left alone. */
  lemma KillSends(c: Cpu, target: int, signal: int)
    ensures
      var me := c.ctx.task.pid;
      var group := GroupOf(c.sh, me);
      var somebody := exists i :: 0 <= i < |c.sh.table| && SentTo(c.sh.table[i], target, me, group);
      var (a, after) := DoKill(c, target, signal);
      && a == (if signal < 0 || signal >= 64 then Fail(INVAL) else if somebody then Value(0) else Fail(SRCH))
      && after == c.(sh := c.sh.(table := after.sh.table)) && |after.sh.table| == |c.sh.table|
      && forall i :: 0 <= i < |c.sh.table| ==>
           var r := c.sh.table[i];
           after.sh.table[i] ==
             if 0 < signal < 64 && SentTo(r, target, me, group) then r.(pending := r.pending + {signal}, wakeAt := None)
             else r
  {
    hide Targets, SentTo, GroupOf;
    var me := c.ctx.task.pid;
    var group := GroupOf(c.sh, me);
    forall r: Record ensures SentTo(r, target, me, group) <==> Targets(r, target, me, group) {
      SentAsTargets(r, target, me, group);
    }
  }

  lemma SentAsTargets(r: Record, target: int, me: int, group: int)
    ensures SentTo(r, target, me, group) <==> Targets(r, target, me, group)
  {
  }

  /** A signal the process ignores, as it does some by default. */
  predicate Unheeded(t: Task, signal: int) {
    && 0 < signal < 64
    && (Action(t, signal).handler == SIG_IGN
        || (Action(t, signal).handler == SIG_DFL && signal in {17, 18, 19, 20, 21, 22, 23, 28}))
  }

  /** A signal that would do something now: neither ignored nor blocked, which SIGKILL and SIGSTOP cannot
      be. */
  predicate Acts(t: Task, signal: int) {
    0 < signal < 64 && (signal !in t.sigmask || signal in {9, 19}) && !Unheeded(t, signal)
  }

  /** A wait is interrupted exactly if some pending signal would do something. */
  lemma InterruptedHow(sh: Shared, ctx: Ctx)
    ensures Interrupted(sh, ctx) <==> exists s :: s in Pending(sh, ctx.task.pid) && Acts(ctx.task, s)
  {
    var pending, t := Pending(sh, ctx.task.pid), ctx.task;
    forall s ensures s in Deliverable(pending, t.sigmask, t) <==> s in pending && Acts(t, s) {
    }
    if Interrupted(sh, ctx) {
      var s :| s in Deliverable(pending, t.sigmask, t);
    }
  }

  /** A signal sent to a process that neither ignores nor blocks it interrupts whatever it waits in. */
  lemma KillInterrupts(c: Cpu, target: int, signal: int, ctx: Ctx)
    requires Acts(ctx.task, signal) && Find(c.sh.table, ctx.task.pid).Some?
    requires SentTo(Find(c.sh.table, ctx.task.pid).value, target, c.ctx.task.pid, GroupOf(c.sh, c.ctx.task.pid))
    ensures Interrupted(DoKill(c, target, signal).1.sh, ctx)
  {
    hide SentTo, GroupOf;
    var i := IndexOf(c.sh.table, ctx.task.pid);
    KillSends(c, target, signal);
    var after := DoKill(c, target, signal).1;
    assert c.sh.table[i] == Find(c.sh.table, ctx.task.pid).value;
    SamePids(after.sh.table, c.sh.table, ctx.task.pid);
    assert signal in Pending(after.sh, ctx.task.pid);
    InterruptedHow(after.sh, ctx);
  }

  /** `clone` serves `vfork` alone, and that as long as there is room for one more living process. The
      child is on record under its parent, in its group and session, with nothing pending; everybody else
      is as before. */
  lemma ForkTells(c: Cpu, shape: bool)
    requires TableOk(c.sh.table, c.sh.nextPid) && Find(c.sh.table, c.ctx.task.pid).Some?
    ensures
      var (a, after) := DoClone(c, shape);
      var me := Find(c.sh.table, c.ctx.task.pid).value;
      && a == (if !shape then Fail(NOSYS) else if LiveCount(c.sh.table) >= c.sh.limits.processes then Fail(AGAIN)
               else Value(0))
      && (a != Value(0) ==> after == c)
      && (a == Value(0) ==> forall x ::
            Find(after.sh.table, x) ==
              if x == c.sh.nextPid then Some(Record(x, c.ctx.task.pid, me.pgid, me.sid, {}, None, None))
              else Find(c.sh.table, x))
  {
    hide Bumped, Drained, LiveCount, Find, IndexOf;
    var (sh, pid) := ForkRecord(c.sh, c.ctx.task);
    var me := Find(c.sh.table, c.ctx.task.pid).value;
    FoundIsHis(c.sh.table, c.ctx.task.pid);
    if pid.Some? {
      var child := NewRecord(c.sh.nextPid, me.pid, me.pgid, me.sid);
      assert sh.table == c.sh.table + [child];
      forall x ensures Find(sh.table, x) == if x == child.pid then Some(child) else Find(c.sh.table, x) {
        AppendFind(c.sh.table, child, x);
      }
    }
  }

  lemma FoundIsHis(table: seq<Record>, pid: int)
    ensures Find(table, pid).Some? ==> Find(table, pid).value.pid == pid
  {
  }
}
