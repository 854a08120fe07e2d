/** `vfork` brackets: whatever a child does inside its parent's instance, its exit or its `execve`
    brings back exactly the task that was suspended. */
module Vfork {
  import opened Base
  import opened Fds
  import opened Kernel
  import opened Syscalls
  import opened Signals
  import opened Machine
  import opened CallFrames

  /** One process as its own calls see it: its context and the call it is blocked in, if any. */
  datatype Inside = Inside(ctx: Ctx, blocked: Option<Call>)

  /** What can happen to it next, the rest of the session being whatever it then is. */
  datatype Act =
    | Serves(sh: Shared, inst: Inst, call: Call, now: nat)
    | Fetches(pending: set<int>)

  /** Serve a call, or retry the outstanding one; between calls a signal may be taken. */
  function ActOn(s: Inside, act: Act): (Option<Answer>, Inside) {
    match act
    case Serves(sh, inst, call, now) =>
      if s.blocked.Some? && !Retries(s.blocked.value, call) then (None, s)
      else
        var (a, after) := Dispatch(Cpu(sh, s.ctx, inst), call, now);
        (Some(a), Inside(after.ctx, if a.Block? then Some(call) else None))
    case Fetches(pending) =>
      if s.blocked.Some? then (None, s)
      else (None, s.(ctx := s.ctx.(task := NextSignal(pending, s.ctx.task).2)))
  }

  function ActAll(s: Inside, acts: seq<Act>): Inside {
    if |acts| == 0 then s else ActOn(ActAll(s, acts[..|acts| - 1]), acts[|acts| - 1]).1
  }

  /** More than `n` tasks stay suspended after every act. */
  ghost predicate StaysAbove(s: Inside, acts: seq<Act>, n: nat) {
    && (|acts| > 0 ==> StaysAbove(s, acts[..|acts| - 1], n))
    && |ActAll(s, acts).ctx.vforkStack| > n
  }

  /** Only an outstanding wait has a deadline or a displaced mask. */
  ghost predicate Clean(s: Inside) {
    Tidy(s.ctx.exec) || (s.blocked.Some? && s.blocked.value.Wait?)
  }

  /** The `n` outer tasks, the parent above them, and the child of pid `child` at the next level. */
  ghost predicate Under(s: Inside, outer: seq<Task>, parent: Task, child: int) {
    var n := |outer|;
    && |s.ctx.vforkStack| > n
    && s.ctx.vforkStack[..n] == outer && s.ctx.vforkStack[n] == parent
    && child == if |s.ctx.vforkStack| == n + 1 then s.ctx.task.pid else s.ctx.vforkStack[n + 1].pid
  }

  /** Nothing of a finished call survives into the next one. */
  lemma ActClean(s: Inside, act: Act)
    requires Clean(s)
    ensures Clean(ActOn(s, act).1)
  {
    hide Dispatch, NextSignal;
    if act.Serves? && (s.blocked.None? || Retries(s.blocked.value, act.call)) {
      DispatchTidy(Cpu(act.sh, s.ctx, act.inst), act.call, act.now);
    }
  }

  /** A child's own child bracketed inside it, its signals and every other call leave the parent
      and the outer tasks suspended as they were. */
  lemma ActUnder(s: Inside, act: Act, outer: seq<Task>, parent: Task, child: int)
    requires Clean(s) && Under(s, outer, parent, child)
    requires |ActOn(s, act).1.ctx.vforkStack| > |outer|
    ensures Under(ActOn(s, act).1, outer, parent, child) && Clean(ActOn(s, act).1)
  {
    hide Finished, ReleaseFds, ReleaseAll, SetExit, ForkRecord, Bumped, Drained, DrainedCloexec,
      KeptOnExec, Interrupted;
    if act.Serves? {
      var c := Counted(Cpu(act.sh, s.ctx, act.inst));
      FinishFrame(Handle(c, act.call, act.now).1);
      if ChangesIdentity(act.call) {
        assert Handle(c, act.call, act.now) == HandleLife(c, act.call.life);
      } else {
        hide Handle;
        HandleIdentity(c, act.call, act.now);
      }
    }
    ActClean(s, act);
  }

  /** The act that ends the bracket is the child's own exit or `execve`; it brings the parent back
      untouched and answers the child's pid. */
  lemma ActCloses(s: Inside, act: Act, outer: seq<Task>, parent: Task, child: int)
    requires Clean(s) && Under(s, outer, parent, child)
    requires |ActOn(s, act).1.ctx.vforkStack| <= |outer|
    ensures var (a, after) := ActOn(s, act);
      && a == Some(Value(child))
      && after.ctx.task == parent && after.ctx.vforkStack == outer
      && act.Serves? && act.call.Life? && (act.call.life.ExitCall? || act.call.life.Execve?)
      && Clean(after)
  {
    hide ReleaseFds, ReleaseAll, SetExit, ForkRecord, Bumped, Drained, DrainedCloexec, KeptOnExec, Interrupted;
    if act.Serves? {
      var c := Counted(Cpu(act.sh, s.ctx, act.inst));
      if ChangesIdentity(act.call) {
        assert Handle(c, act.call, act.now) == HandleLife(c, act.call.life);
      } else {
        hide Handle, Finished;
        FinishFrame(Handle(c, act.call, act.now).1);
        HandleIdentity(c, act.call, act.now);
      }
    }
  }

  lemma {:induction false} StaysUnder(s: Inside, acts: seq<Act>, outer: seq<Task>, parent: Task, child: int)
    requires Clean(s) && Under(s, outer, parent, child) && StaysAbove(s, acts, |outer|)
    ensures Clean(ActAll(s, acts)) && Under(ActAll(s, acts), outer, parent, child)
  {
    hide ActOn, Clean, Under;
    if |acts| > 0 {
      StaysUnder(s, acts[..|acts| - 1], outer, parent, child);
      ActUnder(ActAll(s, acts[..|acts| - 1]), acts[|acts| - 1], outer, parent, child);
    }
  }

  /** A successful `clone` suspends the whole task and runs a child with the next pid. */
  lemma CloneOpens(s: Inside, act: Act)
    requires Clean(s) && s.blocked.None? && act.Serves? && act.call == Life(Clone(true))
    requires |ActOn(s, act).1.ctx.vforkStack| > |s.ctx.vforkStack|
    ensures var (a, after) := ActOn(s, act);
      && a == Some(Value(0)) && after.ctx.task == ChildOf(s.ctx.task, act.sh.nextPid)
      && Clean(after) && Under(after, s.ctx.vforkStack, s.ctx.task, act.sh.nextPid)
  {
    hide Bumped, Drained, Interrupted, LiveCount, Find;
  }

  /** From the `clone` that suspended a task until the child it made has gone, whatever is called
      at whatever depth and whatever the rest of the session does: what comes back is exactly that
      task, its descriptors, directory, umask, handlers and mask as they were, over the same outer
      tasks, and `clone` in the parent returns the child's pid. */
  lemma BracketsMatch(s: Inside, clone: Act, acts: seq<Act>, last: Act)
    requires Clean(s) && s.blocked.None? && clone.Serves? && clone.call == Life(Clone(true))
    requires var begun := ActOn(s, clone).1;
      && |begun.ctx.vforkStack| > |s.ctx.vforkStack|
      && StaysAbove(begun, acts, |s.ctx.vforkStack|)
      && |ActOn(ActAll(begun, acts), last).1.ctx.vforkStack| <= |s.ctx.vforkStack|
    ensures var (a, after) := ActOn(ActAll(ActOn(s, clone).1, acts), last);
      && a == Some(Value(clone.sh.nextPid))
      && after.ctx.task == s.ctx.task && after.ctx.vforkStack == s.ctx.vforkStack
      && Clean(after)
  {
    hide ActOn, Clean, Under;
    CloneOpens(s, clone);
    var child := ActOn(s, clone).1;
    StaysUnder(child, acts, s.ctx.vforkStack, s.ctx.task, clone.sh.nextPid);
    ActCloses(ActAll(child, acts), last, s.ctx.vforkStack, s.ctx.task, clone.sh.nextPid);
  }

  /** The acts are the session's own moves: serving process `i`, first attempt or retry, changes
      its context as `ActOn` says. */
  lemma ServeIsAct(k: Session, i: nat, call: Call, now: nat)
    requires i < |k.procs|
    requires var r := k.procs[i].resume; r.Running? || Retries(r.call, call)
    ensures
      var p := k.procs[i];
      var s := Inside(p.ctx, if p.resume.Running? then None else Some(p.resume.call));
      var (a, after) := ActOn(s, Serves(k.sh, p.inst, call, now));
      a.Some? && (!a.value.Exits? ==>
        var q := Serve(k, i, call, now).procs[i];
        q.ctx == after.ctx && after.blocked == if q.resume.Running? then None else Some(q.resume.call))
  {
    hide Dispatch, FinishProcess;
  }
}
