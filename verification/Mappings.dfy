/** File mappings, the one blocking call that is no stutter: when they block, what each attempt
    takes, and how that ends. */
module Mappings {
  import opened Base
  import opened Slabs
  import opened Fds
  import opened Kernel
  import opened Syscalls
  import opened CallFrames
  import opened Stutter
  import opened Memory

  /** The guest may be as much larger, and the session may be charged for it. */
  predicate Fits(c: Cpu, bytes: nat) {
    && AddU64(c.inst.size, bytes) <= c.sh.limits.memoryPerProcess
    && AddU64(c.sh.memoryUsed, bytes) <= c.sh.limits.memory
  }

  /** `brk` answers with the end of memory asked for exactly if that is within reach: further than the old
      end, within the limits, and the instance can grow; it has then grown by just enough whole pages. Else
      it answers with the end there is, and nothing has changed. */
  lemma BrkAnswers(c: Cpu, request: nat, grows: bool)
    requires c.sh.memoryUsed <= c.sh.limits.memory < U64_MAX
    ensures
      var (a, after) := DoBrk(c, request, grows);
      var size := c.inst.size;
      var bytes := if request > size then (request - size + 65535) / 65536 * 65536 else 0;
      if size < request <= c.sh.limits.memoryPerProcess && c.sh.memoryUsed + bytes <= c.sh.limits.memory && grows then
        && a == Value(request) && after.inst == c.inst.(size := size + bytes)
        && request <= after.inst.size < request + 65536
        && after.sh == c.sh.(memoryUsed := c.sh.memoryUsed + bytes)
      else a == Value(size) && after == c
  {
  }

  /** An anonymous `mmap` answers with the old end of memory exactly if the mapping is not empty, not at an
      address of the caller's choice, fits the limits, and the instance can grow. */
  lemma MmapAnswers(c: Cpu, length: nat, fixed: bool, fd: int, grows: bool, vfs: Vfs)
    requires c.sh.memoryUsed <= c.sh.limits.memory < U64_MAX && c.sh.limits.memoryPerProcess < U64_MAX
    ensures
      var (a, after) := DoMmap(c, length, fixed, true, fd, grows, vfs);
      var size, bytes := c.inst.size, (length + 65535) / 65536 * 65536;
      var fits := size + bytes <= c.sh.limits.memoryPerProcess && c.sh.memoryUsed + bytes <= c.sh.limits.memory;
      && a == (if length == 0 then Fail(INVAL) else if fixed || !fits || !grows then Fail(NOMEM) else Value(size))
      && (a.Fail? ==> after == c)
      && (a.Value? ==> after.inst.size == size + bytes && after.sh == c.sh.(memoryUsed := c.sh.memoryUsed + bytes))
  {
  }

  /** A call about memory blocks exactly if it maps a file, the mapping fits, the memory grows, the
      filesystem says come back later and no signal is waiting; and by then it has grown the guest
      and been charged for it. */
  lemma MappingWaits(c: Cpu, call: MemCall, now: nat)
    ensures var (a, after) := Dispatch(c, Mem(call), now);
      && (a.Block? <==>
            && call.Mmap? && call.length > 0 && !call.fixed && !call.anonymous && call.grows
            && Fits(c, RoundUp(call.length)) && NamesFile(c.sh, c.ctx.task, call.fd) && call.vfs == Refuses(AGAIN)
            && !Interrupted(c.sh, c.ctx))
      && (a.Block? ==>
            && after.inst.size == c.inst.size + RoundUp(call.length) > c.inst.size
            && after.sh.memoryUsed == AddU64(c.sh.memoryUsed, RoundUp(call.length))
            && (c.sh.limits.memoryPerProcess < U64_MAX ==> after.inst.size <= c.sh.limits.memoryPerProcess))
  {
    hide Finished, Deliverable;
    if call.Mmap? {
      PagesCover(call.length);
    }
  }

  /** An attempt that blocks leaves the session and its instance as they were, up to records of who
      waits for what, if and only if it is not a file mapping; a mapping has made the guest larger. */
  lemma StutterExactly(c: Cpu, call: Call, now: nat)
    requires Dispatch(c, call, now).0.Block?
    ensures var after := Dispatch(c, call, now).1;
      && (Idles(c.sh, after.sh) && after.inst == c.inst <==> !call.Mem?)
      && (call.Mem? ==> after.inst.size > c.inst.size)
  {
    hide Dispatch, Idles;
    if call.Mem? {
      MappingWaits(c, call.mem, now);
    } else {
      BlockedIsStutter(c, call, now);
    }
  }

  /** Attempts at one file mapping, each a retry of the first, that all block, the rest of the
      session moving in between as it likes. */
  ghost predicate MappingsBlock(ctx: Ctx, inst: Inst, tries: seq<Try>)
    requires |tries| > 0
  {
    var t := tries[|tries| - 1];
    && t.call.Mem? && Retries(tries[0].call, t.call)
    && if |tries| == 1 then Dispatch(Cpu(t.sh, ctx, inst), t.call, t.now).0.Block?
       else
         && MappingsBlock(ctx, inst, tries[..|tries| - 1])
         && var before := Tried(ctx, inst, tries[..|tries| - 1]);
            Dispatch(Cpu(t.sh, before.ctx, before.inst), t.call, t.now).0.Block?
  }

  lemma SameMapping(first: Call, again: Call)
    requires Retries(first, again) && first.Mem? && first.mem.Mmap? && again.Mem?
    ensures again.mem.Mmap? && again.mem.length == first.mem.length
  {
    hide BareIovs;
    assert Bare(first).Mem? && Bare(again).Mem?;
  }

  /** Every retry takes as much again: after so many attempts the guest is so many mappings larger,
      which cannot go on past its limit. */
  lemma {:induction false} RetriesGrow(ctx: Ctx, inst: Inst, tries: seq<Try>)
    requires |tries| > 0 && MappingsBlock(ctx, inst, tries)
    ensures tries[0].call.Mem? && tries[0].call.mem.Mmap? && RoundUp(tries[0].call.mem.length) > 0
    ensures Tried(ctx, inst, tries).inst.size == inst.size + |tries| * RoundUp(tries[0].call.mem.length)
    ensures var limit := tries[|tries| - 1].sh.limits.memoryPerProcess;
      limit < U64_MAX ==> inst.size + |tries| * RoundUp(tries[0].call.mem.length) <= limit
  {
    hide Dispatch, RoundUp, Retries;
    var n := |tries| - 1;
    var t := tries[n];
    if n == 0 {
      MappingWaits(Cpu(t.sh, ctx, inst), t.call.mem, t.now);
    } else {
      RetriesGrow(ctx, inst, tries[..n]);
      var before := Tried(ctx, inst, tries[..n]);
      MappingWaits(Cpu(t.sh, before.ctx, before.inst), t.call.mem, t.now);
      SameMapping(tries[0].call, t.call);
      var bytes: int := RoundUp(tries[0].call.mem.length);
      assert n * bytes + bytes == (n + 1) * bytes;
    }
  }

  /** When one more mapping no longer fits the retry is refused, and takes nothing more. */
  lemma RetryRefused(c: Cpu, call: MemCall, now: nat)
    requires call.Mmap? && call.length > 0 && !call.fixed && !Fits(c, RoundUp(call.length))
    ensures var (a, after) := Dispatch(c, Mem(call), now);
      a == Fail(NOMEM) && after.inst == c.inst && after.sh == Counted(c).sh
  {
    hide Interrupted;
  }
}
