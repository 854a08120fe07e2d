/** The shared half of the kernel, changed in place: what the processes of a session see of each
    other. Each operation is tied to the function on states that specifies it. */
module SharedStates {
  import opened Base
  import opened Slabs
  import opened Fds
  import opened Kernel
  import opened Syscalls

  class SharedState {
    const limits: Limits
    const descs: Slab<Desc>
    const pipes: Slab<Pipe>
    var table: seq<Record>
    var nextPid: nat
    var spawn: seq<Spawn>
    var stdin: StdinBuffer
    var stdout: OutputBuffer
    var stderr: OutputBuffer
    var memoryUsed: nat
    var vfsPending: bool
    var hostPending: bool
    var syscalls: nat
    ghost var log: seq<Event>

    ghost function View(): Shared
      reads this, descs, pipes
    {
      Shared(limits, descs.View(), pipes.View(), table, nextPid, spawn, stdin, stdout, stderr, memoryUsed, vfsPending,
             hostPending, syscalls, log)
    }

    constructor (limits: Limits)
      ensures View() == Shared(limits, Empty(), Empty(), [], 1, [], StdinBuffer([], false, false), OutputBuffer([], 0),
                               OutputBuffer([], 0), 0, false, false, 0, [])
      ensures fresh(descs) && fresh(pipes)
    {
      this.limits := limits;
      descs := new Slab<Desc>();
      pipes := new Slab<Pipe>();
      table, nextPid, spawn := [], 1, [];
      stdin, stdout, stderr := StdinBuffer([], false, false), OutputBuffer([], 0), OutputBuffer([], 0);
      memoryUsed, vfsPending, hostPending, syscalls, log := 0, false, false, 0, [];
    }

    // ----- process table -----------------------------------------------------------------

    /** The position of the first record of `pid`, or the length of the table. */
    method Position(pid: int) returns (i: nat)
      ensures i == IndexOf(table, pid)
    {
      i := 0;
      while i < |table| && table[i].pid != pid
        invariant i <= |table|
        invariant IndexOf(table, pid) == i + IndexOf(table[i..], pid)
      {
        i := i + 1;
      }
    }

    method Find(pid: int) returns (r: Option<Record>)
      ensures r == Kernel.Find(table, pid)
    {
      var i := Position(pid);
      r := if i < |table| then Some(table[i]) else None;
    }

    /** Write through `record_mut`. */
    method Put(pid: int, r: Record)
      modifies this`table
      ensures table == WithRecord(old(table), pid, r)
    {
      var i := Position(pid);
      if i < |table| {
        table := table[i := r];
      }
    }

    method Raise(pid: int, sig: int)
      modifies this`table
      ensures table == Raised(old(table), pid, sig)
    {
      var r := Find(pid);
      if r.Some? {
        Put(pid, RaisedOn(r.value, sig));
      }
    }

    method WakeAt(pid: int, when: Option<nat>)
      modifies this`table
      ensures table == WokenAt(old(table), pid, when)
    {
      var r := Find(pid);
      if r.Some? {
        Put(pid, r.value.(wakeAt := when));
      }
    }

    /** Every child of `dead` becomes a child of process 1. */
    method Reparent(dead: int)
      modifies this`table
      ensures table == Reparented(old(table), dead)
    {
      var i := 0;
      while i < |table|
        invariant i <= |table| == |old(table)|
        invariant forall j :: 0 <= j < i ==> table[j] == Adopted(old(table)[j], dead)
        invariant forall j :: i <= j < |table| ==> table[j] == old(table)[j]
      {
        if table[i].ppid == dead {
          table := table[i := table[i].(ppid := 1)];
        }
        i := i + 1;
      }
    }

    /** Drop every record of `pid`. */
    method Forget(pid: int)
      modifies this`table
      ensures table == Without(old(table), pid)
    {
      var kept: seq<Record> := [];
      var i := 0;
      while i < |table|
        invariant i <= |table| && table == old(table)
        invariant Without(table, pid) == kept + Without(table[i..], pid)
      {
        assert table[i..][1..] == table[i + 1..];
        assert Without(table[i..], pid)
            == (if table[i].pid == pid then [] else [table[i]]) + Without(table[i + 1..], pid);
        if table[i].pid != pid {
          kept := kept + [table[i]];
        }
        i := i + 1;
      }
      table := kept;
    }

    method SetExit(pid: int, status: int)
      modifies this`table
      ensures View() == Kernel.SetExit(old(View()), pid, status)
    {
      var parent := 0;
      var me := Find(pid);
      if me.Some? {
        Put(pid, Ended(me.value, status));
        parent := me.value.ppid;
      }
      Reparent(pid);
      var above := Find(parent);
      if above.Some? && above.value.exit.None? {
        Raise(parent, SIGCHLD);
      } else {
        Forget(pid);
      }
    }

    method Living() returns (n: nat)
      ensures n == LiveCount(table)
    {
      n := 0;
      var i := 0;
      while i < |table|
        invariant i <= |table| && n + LiveCount(table[i..]) == LiveCount(table)
      {
        if table[i].exit.None? {
          n := n + 1;
        }
        i := i + 1;
      }
    }

    method ForkRecord(parent: Task) returns (pid: Option<int>)
      modifies this`table, this`nextPid
      ensures (View(), pid) == Kernel.ForkRecord(old(View()), parent)
    {
      var live := Living();
      if live >= limits.processes {
        return None;
      }
      var fresh' := nextPid;
      nextPid := Min(nextPid + 1, I32_MAX);
      var r := Find(parent.pid);
      if r.Some? {
        table := table + [NewRecord(fresh', r.value.pid, r.value.pgid, r.value.sid)];
      } else {
        table := table + [NewRecord(fresh', parent.pid, parent.pid, parent.pid)];
      }
      pid := Some(fresh');
    }

    // ----- memory account ----------------------------------------------------------------

    method ChargeMemory(bytes: nat) returns (ok: bool)
      modifies this`memoryUsed
      ensures (View(), ok) == Charged(old(View()), bytes)
    {
      var next := AddU64(memoryUsed, bytes);
      if next > limits.memory {
        return false;
      }
      memoryUsed := next;
      ok := true;
    }

    method ReleaseMemory(bytes: nat)
      modifies this`memoryUsed
      ensures View() == Uncharged(old(View()), bytes)
    {
      memoryUsed := SubSat(memoryUsed, bytes);
    }

    // ----- descriptions and pipes --------------------------------------------------------

    method CollectPipe(p: nat)
      modifies pipes
      ensures View() == Kernel.CollectPipe(old(View()), p)
    {
      var q := pipes.Get(p);
      if q.Some? && q.value.readers == 0 && q.value.writers == 0 {
        var _ := pipes.Remove(p);
      }
    }

    method DropEnd(kind: DescKind)
      modifies pipes
      ensures View() == Kernel.DropEnd(old(View()), kind)
    {
      match kind
      case PipeRead(p) =>
        var q := pipes.Get(p);
        if q.Some? {
          pipes.Set(p, q.value.(readers := SubSat(q.value.readers, 1)));
        }
        CollectPipe(p);
      case PipeWrite(p) =>
        var q := pipes.Get(p);
        if q.Some? {
          pipes.Set(p, q.value.(writers := SubSat(q.value.writers, 1)));
        }
        CollectPipe(p);
      case Other(_) =>
    }

    /** Drop one reference; the last one closes the description. */
    method ReleaseDesc(key: nat)
      modifies descs, pipes
      ensures View() == Kernel.ReleaseDesc(old(View()), key)
    {
      var done := false;
      var d := descs.Get(key);
      if d.Some? {
        descs.Set(key, d.value.(refs := SubSat(d.value.refs, 1)));
        done := SubSat(d.value.refs, 1) == 0;
      }
      if !done {
        return;
      }
      var removed := descs.Remove(key);
      if removed.Some? {
        DropEnd(removed.value.kind);
      }
    }

    method ReleaseAll(keys: seq<nat>)
      modifies descs, pipes
      ensures View() == Kernel.ReleaseAll(old(View()), keys)
    {
      var i := 0;
      while i < |keys|
        invariant i <= |keys|
        invariant View() == Kernel.ReleaseAll(old(View()), keys[..i])
      {
        assert keys[..i + 1][..i] == keys[..i];
        ReleaseDesc(keys[i]);
        i := i + 1;
      }
      assert keys[..i] == keys;
    }

    /** Release every descriptor of a dying process, emptying its table. */
    method ReleaseFds(fds: FdTable)
      modifies fds, descs, pipes
      ensures View() == Kernel.ReleaseFds(old(View()), old(fds.slots))
    {
      var keys := fds.DrainAll();
      ReleaseAll(keys);
    }

    // ----- bytes -------------------------------------------------------------------------

    method WriteOutput(which: nat, bytes: seq<byte>)
      modifies this`stdout, this`stderr
      ensures View() == Kernel.WriteOutput(old(View()), which, bytes)
    {
      if which == 2 {
        stderr := Pushed(stderr, bytes, limits.output);
      } else {
        stdout := Pushed(stdout, bytes, limits.output);
      }
    }

    method ReadStdin(nonblock: bool, len: nat) returns (got: Got)
      modifies this`stdin
      ensures (got, View()) == Syscalls.ReadStdin(old(View()), nonblock, len)
    {
      if |stdin.data| == 0 {
        if stdin.closed {
          return Syscalls.Got([]);
        }
        if nonblock {
          return NoRead(AGAIN);
        }
        stdin := stdin.(wanted := true);
        return ReadWaits;
      }
      var n := 0;
      var ended := false;
      while n < |stdin.data| && n < len && !ended
        invariant n <= |stdin.data| && n <= len && stdin == old(stdin)
        invariant LineLen(stdin.data, len) == if ended then n else n + LineLen(stdin.data[n..], len - n)
      {
        ended := stdin.data[n] == 10;
        assert stdin.data[n..][1..] == stdin.data[n + 1..];
        n := n + 1;
      }
      got := Syscalls.Got(stdin.data[..n]);
      stdin := StdinBuffer(stdin.data[n..], stdin.closed, false);
    }

    method ReadPipe(p: nat, nonblock: bool, len: nat) returns (got: Got)
      modifies pipes, this`log
      ensures (got, View()) == Syscalls.ReadPipe(old(View()), p, nonblock, len)
    {
      var q := pipes.Get(p);
      if q.None? {
        return NoRead(BADF);
      }
      var data := q.value.data;
      if |data| == 0 {
        if q.value.writers == 0 {
          log := log + [EndOfFile(p)];
          return Syscalls.Got([]);
        }
        return if nonblock then NoRead(AGAIN) else ReadWaits;
      }
      var n := Min(|data|, len);
      pipes.Set(p, q.value.(data := data[n..]));
      log := log + [Returned(p, data[..n])];
      got := Syscalls.Got(data[..n]);
    }

    /** Everything `read(2)` does short of the copy to the guest. */
    method ReadBytes(t: Task, fd: int, len: nat, vfs: Vfs) returns (got: Got)
      modifies descs, pipes, this`stdin, this`log, this`vfsPending
      ensures (got, View()) == Syscalls.ReadBytes(old(View()), t, fd, len, vfs)
    {
      if len == 0 {
        return Syscalls.Got([]);
      }
      var entry := Lookup(t.fds, fd);
      if entry.Err? {
        return NoRead(entry.error);
      }
      var key := entry.value.desc;
      var found := descs.Get(key);
      if found.None? {
        return NoRead(BADF);
      }
      var d := found.value;
      if !d.Readable() {
        return NoRead(BADF);
      }
      match d.kind
      case PipeRead(p) => got := ReadPipe(p, d.nonblock, len);
      case PipeWrite(_) => got := NoRead(BADF);
      case Other(Stdin) => got := ReadStdin(d.nonblock, len);
      case Other(Memory(data, pos)) =>
        var start := Min(pos, |data|);
        var n := Min(|data| - start, len);
        descs.Set(key, d.(kind := Other(Memory(data, start + n))));
        got := Syscalls.Got(data[start..start + n]);
      case Other(File(_, _)) =>
        if vfs.Fine? {
          return Syscalls.Got(vfs.bytes[..Min(|vfs.bytes|, len)]);
        }
        if vfs.error == AGAIN {
          vfsPending := true;
          return ReadWaits;
        }
        got := NoRead(vfs.error);
      case Other(Dir) => got := NoRead(ISDIR);
      case Other(Stdout(_)) => got := NoRead(BADF);
      case Other(Null) => got := Syscalls.Got([]);
      case Other(_) => got := Syscalls.Got(Zeros(len));
    }

    method WritePipe(pid: int, p: nat, nonblock: bool, data: seq<byte>) returns (put: Put)
      modifies pipes, this`table, this`log
      ensures (put, View()) == Syscalls.WritePipe(old(View()), pid, p, nonblock, data)
    {
      var q := pipes.Get(p);
      if q.None? {
        return NoWrite(BADF);
      }
      if q.value.readers == 0 {
        Raise(pid, SIGPIPE);
        return NoWrite(Errno.PIPE);
      }
      var room := q.value.Room();
      if room == 0 {
        return if nonblock then NoWrite(AGAIN) else WriteWaits;
      }
      var n := Min(room, |data|);
      pipes.Set(p, q.value.(data := q.value.data + data[..n]));
      log := log + [Accepted(p, data[..n])];
      put := Syscalls.Put(n);
    }

    /** `write(2)` with the bytes already out of guest memory. */
    method WriteBytes(t: Task, fd: int, data: seq<byte>, vfs: Vfs) returns (put: Put)
      modifies pipes, this`table, this`log, this`vfsPending, this`stdout, this`stderr
      ensures (put, View()) == Syscalls.WriteBytes(old(View()), t, fd, data, vfs)
    {
      var entry := Lookup(t.fds, fd);
      if entry.Err? {
        return NoWrite(entry.error);
      }
      var found := descs.Get(entry.value.desc);
      if found.None? {
        return NoWrite(BADF);
      }
      var d := found.value;
      if !d.Writable() {
        return NoWrite(BADF);
      }
      match d.kind
      case PipeRead(_) => put := NoWrite(BADF);
      case PipeWrite(p) => put := WritePipe(t.pid, p, d.nonblock, data);
      case Other(File(_, readOnly)) =>
        if readOnly {
          return NoWrite(ROFS);
        }
        if vfs.Fine? {
          return Syscalls.Put(Min(vfs.count, |data|));
        }
        if vfs.error == AGAIN {
          vfsPending := true;
          return WriteWaits;
        }
        put := NoWrite(vfs.error);
      case Other(Stdout(which)) =>
        WriteOutput(which, data);
        put := Syscalls.Put(|data|);
      case Other(Dir) => put := NoWrite(BADF);
      case Other(Stdin) => put := NoWrite(BADF);
      case Other(_) => put := Syscalls.Put(|data|);
    }
  }
}
