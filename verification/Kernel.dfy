/** The state a session's processes share, what one process owns, and the operations of the
    kernel proper on them, as functions from state to state. */
module Kernel {
  import opened Base
  import opened Slabs
  import opened Fds

  const PAGE: nat := 65536
  const ASYNCIFY_PAGES: nat := 16
  const NSIG: int := 64
  const SIGKILL: int := 9
  const SIGPIPE: int := 13
  const SIGCHLD: int := 17
  const SIGSTOP: int := 19
  const SIG_DFL: nat := 0
  const SIG_IGN: nat := 1

  datatype Limits = Limits(memory: nat, memoryPerProcess: nat, processes: nat, openFiles: nat, output: nat)

  datatype SigAction = SigAction(handler: nat, resetHand: bool, mask: set<int>)

  const DEFAULT_ACTION: SigAction := SigAction(SIG_DFL, false, {})

  /** One process's private state. */
  datatype Task = Task(pid: int, fds: Slots, cwd: string, umask: nat, sigact: seq<SigAction>, sigmask: set<int>,
                       exe: string, comm: seq<byte>)

  function NewTask(pid: int, fds: Slots): Task {
    Task(pid, fds, "/", 18, seq(64, _ => DEFAULT_ACTION), {}, "", [])
  }

  function Action(t: Task, sig: int): SigAction {
    if 0 < sig < |t.sigact| then t.sigact[sig] else DEFAULT_ACTION
  }

  /** The part of a process that other processes can see. */
  datatype Record = Record(pid: int, ppid: int, pgid: int, sid: int, pending: set<int>, exit: Option<int>,
                           wakeAt: Option<nat>)

  function NewRecord(pid: int, ppid: int, pgid: int, sid: int): Record {
    Record(pid, ppid, pgid, sid, {}, None, None)
  }

  /** A process waiting for an instance of its own. */
  datatype Spawn = Spawn(task: Task, program: nat, exe: string, argv: seq<seq<byte>>, envp: seq<seq<byte>>)

  /** What pipes did, in order; a history no operation reads. */
  datatype Event = Made(pipe: nat) | Accepted(pipe: nat, bytes: seq<byte>) | Returned(pipe: nat, bytes: seq<byte>)
                 | EndOfFile(pipe: nat)

  datatype StdinBuffer = StdinBuffer(data: seq<byte>, closed: bool, wanted: bool)

  datatype OutputBuffer = OutputBuffer(data: seq<byte>, dropped: nat)

  datatype Shared = Shared(
    limits: Limits,
    descs: SlabState<Desc>,
    pipes: SlabState<Pipe>,
    table: seq<Record>,
    nextPid: nat,
    spawn: seq<Spawn>,
    stdin: StdinBuffer,
    stdout: OutputBuffer,
    stderr: OutputBuffer,
    memoryUsed: nat,
    vfsPending: bool,
    hostPending: bool,
    syscalls: nat,
    log: seq<Event>)

  /** The suspension bookkeeping a blocked call keeps, and what `brk` and `mmap` added. */
  datatype Exec = Exec(deadline: Option<nat>, maskToRestore: Option<set<int>>, grown: nat, hasFlag: bool, flag: bool)

  const FRESH_EXEC: Exec := Exec(None, None, 0, false, false)

  datatype Ctx = Ctx(task: Task, vforkStack: seq<Task>, execRequest: Option<Spawn>, exec: Exec)

  /** An instance's memory: its size, where the stack-saving area starts, and what `mmap` handed out. */
  datatype Inst = Inst(size: nat, asyncify: nat, maps: seq<(nat, nat)>)

  /** Everything one handler can reach. */
  datatype Cpu = Cpu(sh: Shared, ctx: Ctx, inst: Inst)

  // ----- process table -------------------------------------------------------------------

  function IndexOf(table: seq<Record>, pid: int): (r: nat)
    ensures r <= |table|
    ensures r < |table| ==> table[r].pid == pid
    ensures forall i :: 0 <= i < r ==> table[i].pid != pid
  {
    if |table| == 0 then 0
    else if table[0].pid == pid then 0
    else 1 + IndexOf(table[1..], pid)
  }

  function Find(table: seq<Record>, pid: int): Option<Record> {
    var i := IndexOf(table, pid);
    if i < |table| then Some(table[i]) else None
  }

  predicate Alive(table: seq<Record>, pid: int) {
    var r := Find(table, pid);
    r.Some? && r.value.exit.None?
  }

  function Pending(sh: Shared, pid: int): set<int> {
    match Find(sh.table, pid)
    case Some(r) => r.pending
    case None => {}
  }

  /** Overwrite the record of `pid`, if it has one. */
  function WithRecord(table: seq<Record>, pid: int, r: Record): seq<Record> {
    var i := IndexOf(table, pid);
    if i < |table| then table[i := r] else table
  }

  function RaisedOn(r: Record, sig: int): Record {
    if 0 < sig < NSIG then r.(pending := r.pending + {sig}) else r
  }

  function Raised(table: seq<Record>, pid: int, sig: int): seq<Record> {
    match Find(table, pid)
    case Some(r) => WithRecord(table, pid, RaisedOn(r, sig))
    case None => table
  }

  function WokenAt(table: seq<Record>, pid: int, when: Option<nat>): seq<Record> {
    match Find(table, pid)
    case Some(r) => WithRecord(table, pid, r.(wakeAt := when))
    case None => table
  }

  function Without(table: seq<Record>, pid: int): seq<Record> {
    if |table| == 0 then []
    else if table[0].pid == pid then Without(table[1..], pid)
    else [table[0]] + Without(table[1..], pid)
  }

  function Adopted(r: Record, dead: int): Record {
    if r.ppid == dead then r.(ppid := 1) else r
  }

  /** Children of a dead process become children of process 1. */
  function Reparented(table: seq<Record>, dead: int): (r: seq<Record>)
    ensures |r| == |table| && forall i :: 0 <= i < |r| ==> r[i] == Adopted(table[i], dead)
  {
    seq(|table|, i requires 0 <= i < |table| => Adopted(table[i], dead))
  }

  function Ended(r: Record, status: int): Record {
    r.(exit := if r.exit.None? then Some(status) else r.exit, wakeAt := None)
  }

  /** Record an exit, hand the orphans to process 1, and tell the parent; with no live parent the
      record goes at once. */
  function ExitTable(table: seq<Record>, pid: int, status: int): seq<Record> {
    var me := Find(table, pid);
    var ended := if me.Some? then WithRecord(table, pid, Ended(me.value, status)) else table;
    var parent := if me.Some? then me.value.ppid else 0;
    var moved := Reparented(ended, pid);
    if Alive(moved, parent) then Raised(moved, parent, SIGCHLD) else Without(moved, pid)
  }

  function SetExit(sh: Shared, pid: int, status: int): Shared {
    sh.(table := ExitTable(sh.table, pid, status))
  }

  function LiveCount(table: seq<Record>): nat {
    if |table| == 0 then 0 else (if table[0].exit.None? then 1 else 0) + LiveCount(table[1..])
  }

  /** A pid and a record for a `vfork` child, unless the session is at its process limit. */
  function ForkRecord(sh: Shared, parent: Task): (Shared, Option<int>) {
    if LiveCount(sh.table) >= sh.limits.processes then (sh, None)
    else
      var pid := sh.nextPid;
      var r := Find(sh.table, parent.pid);
      var child := if r.Some? then NewRecord(pid, r.value.pid, r.value.pgid, r.value.sid)
                   else NewRecord(pid, parent.pid, parent.pid, parent.pid);
      (sh.(table := sh.table + [child], nextPid := Min(pid + 1, I32_MAX)), Some(pid))
  }

  // ----- memory account ------------------------------------------------------------------

  function Charged(sh: Shared, bytes: nat): (Shared, bool) {
    var next := AddU64(sh.memoryUsed, bytes);
    if next > sh.limits.memory then (sh, false) else (sh.(memoryUsed := next), true)
  }

  function Uncharged(sh: Shared, bytes: nat): Shared {
    sh.(memoryUsed := SubSat(sh.memoryUsed, bytes))
  }

  // ----- descriptions and pipes ----------------------------------------------------------

  function CollectPipe(sh: Shared, p: nat): Shared {
    match At(sh.pipes, p)
    case Some(q) => if q.readers == 0 && q.writers == 0 then sh.(pipes := Removed(sh.pipes, p).0) else sh
    case None => sh
  }

  function DropEnd(sh: Shared, kind: DescKind): Shared {
    match kind
    case PipeRead(p) =>
      var dropped := match At(sh.pipes, p)
        case Some(q) => sh.(pipes := Stored(sh.pipes, p, q.(readers := SubSat(q.readers, 1))))
        case None => sh;
      CollectPipe(dropped, p)
    case PipeWrite(p) =>
      var dropped := match At(sh.pipes, p)
        case Some(q) => sh.(pipes := Stored(sh.pipes, p, q.(writers := SubSat(q.writers, 1))))
        case None => sh;
      CollectPipe(dropped, p)
    case Other(_) => sh
  }

  /** Drop one reference to a description; the last one closes it, and with it a pipe end. */
  function ReleaseDesc(sh: Shared, key: nat): Shared {
    match At(sh.descs, key)
    case None => sh
    case Some(d) =>
      var less := d.(refs := SubSat(d.refs, 1));
      var dropped := sh.(descs := Stored(sh.descs, key, less));
      if less.refs != 0 then dropped
      else DropEnd(dropped.(descs := Removed(dropped.descs, key).0), less.kind)
  }

  function ReleaseAll(sh: Shared, keys: seq<nat>): Shared {
    if |keys| == 0 then sh else ReleaseDesc(ReleaseAll(sh, keys[..|keys| - 1]), keys[|keys| - 1])
  }

  function ReleaseFds(sh: Shared, fds: Slots): Shared {
    ReleaseAll(sh, Drained(fds))
  }

  function Pushed(out: OutputBuffer, bytes: seq<byte>, limit: nat): OutputBuffer {
    var take := Min(SubSat(limit, |out.data|), |bytes|);
    OutputBuffer(out.data + bytes[..take], AddU64(out.dropped, |bytes| - take))
  }

  function WriteOutput(sh: Shared, which: nat, bytes: seq<byte>): Shared {
    if which == 2 then sh.(stderr := Pushed(sh.stderr, bytes, sh.limits.output))
    else sh.(stdout := Pushed(sh.stdout, bytes, sh.limits.output))
  }

  // ----- signals -------------------------------------------------------------------------

  predicate DefaultIgnored(sig: int) {
    sig in {17, 23, 28, 18, 19, 20, 21, 22}
  }

  predicate Ignored(t: Task, sig: int) {
    var a := Action(t, sig);
    a.handler == SIG_IGN || (a.handler == SIG_DFL && DefaultIgnored(sig))
  }

  /** The pending signals that would do something now. */
  function Deliverable(pending: set<int>, mask: set<int>, t: Task): set<int> {
    set s | s in pending && 0 < s < NSIG && !Ignored(t, s) && (s !in mask || s == SIGKILL || s == SIGSTOP)
  }

  function Discardable(pending: set<int>, t: Task): set<int> {
    set s | s in pending && 0 < s < NSIG && Ignored(t, s)
  }

  predicate Interrupted(sh: Shared, ctx: Ctx) {
    Deliverable(Pending(sh, ctx.task.pid), ctx.task.sigmask, ctx.task) != {}
  }

  // ----- processes -----------------------------------------------------------------------

  /** Whatever can stop a spawn from becoming a process, or the instance it gets. */
  datatype Launch =
    | NoProgram
    | HostCommand(readsStdin: bool)
    | GuestFails
    | GuestRuns(pages: nat, grows: bool)
  {
    /** An instance's memory is whole pages. */
    function Size(): nat { if GuestRuns? then pages * PAGE else 0 }
  }
}
