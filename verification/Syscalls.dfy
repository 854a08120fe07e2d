/** The syscall table: what each call does to the state its handler can reach. A call carries its
    arguments already read out of guest memory, and the answers of everything outside the
    kernel (a mounted filesystem, the growth of an instance's memory, the copy back to the guest). */
module Syscalls {
  import opened Base
  import opened Slabs
  import opened Fds
  import opened Kernel

  const INSTANT_MAX: nat := U64_MAX
  const STAGING_MAX: nat := 1048576
  const POLL_MAX: nat := 1024

  /** What a mounted file answered. */
  datatype Vfs = Fine(bytes: seq<byte>, count: nat) | Refuses(error: Errno)

  /** One element of a `readv` or `writev` vector. */
  datatype Iov = Iov(decodes: bool, len: nat, data: seq<byte>, copyOk: bool, vfs: Vfs)

  datatype PollFd = PollFd(fd: int, read: bool, write: bool)

  /** Calls about which processes exist. */
  datatype LifeCall =
    | ExitCall(code: int)
    | Clone(vforkShape: bool)
    | Execve(program: nat, exe: string, argv: seq<seq<byte>>, envp: seq<seq<byte>>)
    | Wait4(which: int, noHang: bool, copyOk: bool)
    | Setpgid(target: int, group: int)
    | Setsid
    | Kill(target: int, signal: int)

  /** Calls that touch nothing but the caller's own task. */
  datatype TaskCall =
    | Umask(mask: nat)
    | Chdir(cwd: string)
    | Sigaction(signal: int, action: Option<SigAction>, copyOk: bool)
    | Sigprocmask(how: int, sigs: Option<set<int>>, copyOk: bool)

  /** Calls that wait on the clock, on signals or on descriptors, and consume nothing. */
  datatype WaitCall =
    | Sigsuspend(mask: set<int>)
    | Nanosleep(after: nat)
    | Ppoll(polls: seq<PollFd>, timeout: Option<nat>, copyOk: bool)
    | Pselect(polls: seq<PollFd>, timeout: Option<nat>, copyOk: bool)

  datatype MemCall =
    | Brk(request: nat, grows: bool)
    | Mmap(length: nat, fixed: bool, anonymous: bool, fd: int, grows: bool, vfs: Vfs)

  datatype FdCall =
    | Close(fd: int)
    | DupAt(fd: int, min: int, cloexec: bool)
    | Dup3(from: int, to: int, cloexec: bool)
    | SetCloexec(fd: int, on: bool)
    | SetFlags(fd: int, append: bool, nonblock: bool)
    | Pipe2(cloexec: bool, nonblock: bool, copyOk: bool)
    | Open(plain: Plain, access: Access, append: bool, nonblock: bool, cloexec: bool)

  datatype ByteCall =
    | Read(fd: int, len: nat, copyOk: bool, vfs: Vfs)
    | Write(fd: int, decodes: bool, data: seq<byte>, vfs: Vfs)
    | Readv(fd: int, iovs: seq<Iov>)
    | Writev(fd: int, iovs: seq<Iov>)

  /** A decoded call. `dup`, `F_DUPFD` and reopening `/dev/fd/N` are all `DupAt`; a call that only
      computes an answer is `Plainly`, one that only asks a filesystem is `FileCall`. */
  datatype Call =
    | Life(life: LifeCall)
    | Own(own: TaskCall)
    | Wait(wait: WaitCall)
    | Mem(mem: MemCall)
    | Files(files: FdCall)
    | Bytes(bytes: ByteCall)
    | FileCall(vfs: Vfs)
    | Plainly(result: Result<int, Errno>)

  datatype Answer = Value(v: int) | Fail(error: Errno) | Block | Exits(status: int) | Execs

  function StatusExited(code: int): int {
    (code % 256) * 256
  }

  function StatusSignaled(sig: int): int {
    sig % 128
  }

  function ToAnswer(r: Result<int, Errno>): Answer {
    match r
    case Ok(v) => Value(v)
    case Err(e) => Fail(e)
  }

  // ----- process lifetime ----------------------------------------------------------------

  /** A vfork child that ends hands the instance back to its parent. */
  function DoExit(c: Cpu, code: int): (Answer, Cpu) {
    var n := |c.ctx.vforkStack|;
    if n == 0 then (Exits(StatusExited(code)), c)
    else
      var child := c.ctx.task;
      var ctx := c.ctx.(task := c.ctx.vforkStack[n - 1], vforkStack := c.ctx.vforkStack[..n - 1]);
      (Value(child.pid), c.(ctx := ctx, sh := SetExit(ReleaseFds(c.sh, child.fds), child.pid, StatusExited(code))))
  }

  function ChildOf(parent: Task, pid: int): Task {
    NewTask(pid, parent.fds).(cwd := parent.cwd, umask := parent.umask, sigact := parent.sigact,
                              sigmask := parent.sigmask, exe := parent.exe, comm := parent.comm)
  }

  function DoClone(c: Cpu, vforkShape: bool): (Answer, Cpu) {
    if !vforkShape then (Fail(NOSYS), c)
    else
      var (sh, pid) := ForkRecord(c.sh, c.ctx.task);
      if pid.None? then (Fail(AGAIN), c)
      else
        var sh' := sh.(descs := Bumped(sh.descs, Drained(c.ctx.task.fds)));
        var ctx := c.ctx.(task := ChildOf(c.ctx.task, pid.value), vforkStack := c.ctx.vforkStack + [c.ctx.task]);
        (Value(0), c.(ctx := ctx, sh := sh'))
  }

  /** Close-on-exec, then either the child goes to the spawn queue and its parent comes back, or
      this instance is to be replaced. */
  function DoExecve(c: Cpu, program: nat, exe: string, argv: seq<seq<byte>>, envp: seq<seq<byte>>): (Answer, Cpu) {
    var sh := ReleaseAll(c.sh, DrainedCloexec(c.ctx.task.fds));
    var task := c.ctx.task.(fds := KeptOnExec(c.ctx.task.fds));
    var spawn := Spawn(task, program, exe, argv, envp);
    var n := |c.ctx.vforkStack|;
    if n > 0 then
      var ctx := c.ctx.(task := c.ctx.vforkStack[n - 1], vforkStack := c.ctx.vforkStack[..n - 1]);
      (Value(task.pid), c.(ctx := ctx, sh := sh.(spawn := sh.spawn + [spawn])))
    else
      (Execs, c.(ctx := c.ctx.(task := NewTask(0, []), execRequest := Some(spawn)), sh := sh))
  }

  predicate Waits(r: Record, pid: int, pgid: int, which: int) {
    && r.ppid == pid
    && (if which == -1 then true else if which == 0 then r.pgid == pgid else if which > 0 then r.pid == which
        else r.pgid == -which)
  }

  /** The first child in table order that `wait4` asks about and that is dead. */
  function FirstDead(table: seq<Record>, pid: int, pgid: int, which: int): Option<Record> {
    if |table| == 0 then None
    else if Waits(table[0], pid, pgid, which) && table[0].exit.Some? then Some(table[0])
    else FirstDead(table[1..], pid, pgid, which)
  }

  predicate AnyChild(table: seq<Record>, pid: int, pgid: int, which: int) {
    exists i :: 0 <= i < |table| && Waits(table[i], pid, pgid, which)
  }

  function GroupOf(sh: Shared, pid: int): int {
    match Find(sh.table, pid)
    case Some(r) => r.pgid
    case None => pid
  }

  function DoWait4(c: Cpu, which: int, noHang: bool, copyOk: bool): (Answer, Cpu) {
    var pid := c.ctx.task.pid;
    var pgid := GroupOf(c.sh, pid);
    if !AnyChild(c.sh.table, pid, pgid, which) then (Fail(CHILD), c)
    else match FirstDead(c.sh.table, pid, pgid, which)
      case None => (if noHang then Value(0) else Block, c)
      case Some(r) =>
        (if copyOk then Value(r.pid) else Fail(FAULT), c.(sh := c.sh.(table := Without(c.sh.table, r.pid))))
  }

  function DoSetpgid(c: Cpu, target: int, group: int): (Answer, Cpu) {
    var who := if target == 0 then c.ctx.task.pid else target;
    var to := if group == 0 then who else group;
    match Find(c.sh.table, who)
    case Some(r) => (Value(0), c.(sh := c.sh.(table := WithRecord(c.sh.table, who, r.(pgid := to)))))
    case None => (Fail(SRCH), c)
  }

  function DoSetsid(c: Cpu): (Answer, Cpu) {
    var pid := c.ctx.task.pid;
    match Find(c.sh.table, pid)
    case Some(r) => (Value(pid), c.(sh := c.sh.(table := WithRecord(c.sh.table, pid, r.(pgid := pid, sid := pid)))))
    case None => (Fail(SRCH), c)
  }

  // ----- signals -------------------------------------------------------------------------

  function DoSigaction(c: Cpu, signal: int, action: Option<SigAction>, copyOk: bool): (Answer, Cpu) {
    if signal <= 0 || signal >= NSIG then (Fail(INVAL), c)
    else if !copyOk then (Fail(FAULT), c)
    else if action.None? then (Value(0), c)
    else if signal == SIGKILL || signal == SIGSTOP then (Fail(INVAL), c)
    else if signal >= |c.ctx.task.sigact| then (Value(0), c)
    else (Value(0), WithTask(c, c.ctx.task.(sigact := c.ctx.task.sigact[signal := action.value])))
  }

  function WithTask(c: Cpu, t: Task): Cpu {
    c.(ctx := c.ctx.(task := t))
  }

  function DoSigprocmask(c: Cpu, how: int, sigs: Option<set<int>>, copyOk: bool): (Answer, Cpu) {
    var before := c.ctx.task.sigmask;
    var answer := if copyOk then Value(0) else Fail(FAULT);
    if sigs.None? then (answer, c)
    else
      var s := sigs.value - {SIGKILL, SIGSTOP};
      if how == 0 then (answer, WithTask(c, c.ctx.task.(sigmask := before + s)))
      else if how == 1 then (answer, WithTask(c, c.ctx.task.(sigmask := before - s)))
      else if how == 2 then (answer, WithTask(c, c.ctx.task.(sigmask := s)))
      else (Fail(INVAL), c)
  }

  /** Install the temporary mask, remembering the first one it displaced, and wait. */
  function DoSigsuspend(c: Cpu, mask: set<int>): (Answer, Cpu) {
    var saved := if c.ctx.exec.maskToRestore.None? then Some(c.ctx.task.sigmask) else c.ctx.exec.maskToRestore;
    var ctx := c.ctx.(exec := c.ctx.exec.(maskToRestore := saved), task := c.ctx.task.(sigmask := mask));
    (if Interrupted(c.sh, ctx) then Fail(INTR) else Block, c.(ctx := ctx))
  }

  predicate Targets(r: Record, target: int, me: int, myGroup: int) {
    if target > 0 then r.pid == target
    else if target == 0 then r.pgid == myGroup && r.exit.None?
    else if target == -1 then r.pid != 1 && r.pid != me && r.exit.None?
    else r.pgid == -target && r.exit.None?
  }

  function Signalled(r: Record, target: int, signal: int, me: int, myGroup: int): Record {
    if Targets(r, target, me, myGroup) && signal != 0 then RaisedOn(r, signal).(wakeAt := None) else r
  }

  function SignalTable(table: seq<Record>, target: int, signal: int, me: int, myGroup: int): (t: seq<Record>)
    ensures |t| == |table| && forall i :: 0 <= i < |t| ==> t[i] == Signalled(table[i], target, signal, me, myGroup)
  {
    seq(|table|, i requires 0 <= i < |table| => Signalled(table[i], target, signal, me, myGroup))
  }

  function DoKill(c: Cpu, target: int, signal: int): (Answer, Cpu) {
    var me := c.ctx.task.pid;
    var group := GroupOf(c.sh, me);
    if signal < 0 || signal >= NSIG then (Fail(INVAL), c)
    else if exists i :: 0 <= i < |c.sh.table| && Targets(c.sh.table[i], target, me, group) then
      (Value(0), c.(sh := c.sh.(table := SignalTable(c.sh.table, target, signal, me, group))))
    else (Fail(SRCH), c)
  }

  // ----- time ----------------------------------------------------------------------------

  /** A deadline fixed by the first attempt and kept across retries. */
  function DeadlineOf(e: Exec, after: nat, now: nat): nat {
    match e.deadline
    case Some(when) => when
    case None => if now + after <= INSTANT_MAX then now + after else now
  }

  function WithDeadline(c: Cpu, when: nat): Cpu {
    c.(ctx := c.ctx.(exec := c.ctx.exec.(deadline := Some(when))))
  }

  function Asleep(c: Cpu, when: nat): Cpu {
    c.(sh := c.sh.(table := WokenAt(c.sh.table, c.ctx.task.pid, Some(when))))
  }

  function DoNanosleep(c: Cpu, after: nat, now: nat): (Answer, Cpu) {
    var until := DeadlineOf(c.ctx.exec, after, now);
    var timed := WithDeadline(c, until);
    if now >= until then (Value(0), timed) else (Block, Asleep(timed, until))
  }

  // ----- memory --------------------------------------------------------------------------

  function Pages(bytes: nat): nat {
    (bytes + PAGE - 1) / PAGE
  }

  function Grown(c: Cpu, sh: Shared, bytes: nat): Cpu {
    Cpu(sh, c.ctx.(exec := c.ctx.exec.(grown := AddU64(c.ctx.exec.grown, bytes))), c.inst.(size := c.inst.size + bytes))
  }

  function DoBrk(c: Cpu, request: nat, grows: bool): (Answer, Cpu) {
    var current := c.inst.size;
    if request <= current then (Value(current), c)
    else if request > c.sh.limits.memoryPerProcess then (Value(current), c)
    else
      var bytes := Pages(request - current) * PAGE;
      var (sh, charged) := Charged(c.sh, bytes);
      if !charged then (Value(current), c)
      else if grows then (Value(request), Grown(c, sh, bytes))
      else (Value(current), c.(sh := Uncharged(sh, bytes)))
  }

  function DoMmap(c: Cpu, length: nat, fixed: bool, anonymous: bool, fd: int, grows: bool, vfs: Vfs): (Answer, Cpu) {
    if length == 0 then (Fail(INVAL), c)
    else if fixed then (Fail(NOMEM), c)
    else
      var bytes := Pages(length) * PAGE;
      if AddU64(c.inst.size, bytes) > c.sh.limits.memoryPerProcess then (Fail(NOMEM), c)
      else
        var (sh, charged) := Charged(c.sh, bytes);
        if !charged then (Fail(NOMEM), c)
        else if !grows then (Fail(NOMEM), c.(sh := Uncharged(sh, bytes)))
        else
          var at := c.inst.size;
          var grown := Grown(c, sh, bytes);
          var mapped := grown.(inst := grown.inst.(maps := grown.inst.maps + [(at, at + bytes)]));
          if anonymous then (Value(at), mapped) else (MapFile(mapped, at, fd, vfs))
  }

  /** The file half of a mapping, a read done once the memory is already grown. */
  function MapFile(c: Cpu, at: nat, fd: int, vfs: Vfs): (Answer, Cpu) {
    match Lookup(c.ctx.task.fds, fd)
    case Err(e) => (Fail(e), c)
    case Ok(entry) =>
      match At(c.sh.descs, entry.desc)
      case None => (Fail(BADF), c)
      case Some(d) =>
        if !(d.kind.Other? && d.kind.plain.File?) then (Fail(NODEV), c)
        else match vfs
          case Fine(_, _) => (Value(at), c)
          case Refuses(e) => VfsFault(c, e)
  }

  /** A filesystem's `AGAIN` means wait; any other error is the call's own. */
  function VfsFault(c: Cpu, e: Errno): (Answer, Cpu) {
    if e == AGAIN then (Block, c.(sh := c.sh.(vfsPending := true))) else (Fail(e), c)
  }

  // ----- descriptors ---------------------------------------------------------------------

  function WithFds(c: Cpu, fds: Slots): Cpu {
    c.(ctx := c.ctx.(task := c.ctx.task.(fds := fds)))
  }

  function DoClose(c: Cpu, fd: int): (Answer, Cpu) {
    var (fds, r) := Taken(c.ctx.task.fds, fd);
    match r
    case Err(e) => (Fail(e), c)
    case Ok(entry) => (Value(0), WithFds(c, fds).(sh := ReleaseDesc(c.sh, entry.desc)))
  }

  /** A second descriptor for an open one: the reference is taken before the slot is found. */
  function DoDupAt(c: Cpu, fd: int, min: nat, cloexec: bool): (Answer, Cpu) {
    match Lookup(c.ctx.task.fds, fd)
    case Err(e) => (Fail(e), c)
    case Ok(entry) =>
      var sh := c.sh.(descs := BumpedOne(c.sh.descs, entry.desc));
      var (fds, r) := Allocated(c.ctx.task.fds, Fd(entry.desc, cloexec), min, c.sh.limits.openFiles);
      match r
      case Ok(n) => (Value(n), WithFds(c, fds).(sh := sh))
      case Err(e) => (Fail(e), c.(sh := sh))
  }

  function DoDup3(c: Cpu, from: int, to: int, cloexec: bool): (Answer, Cpu) {
    if from == to then (Fail(INVAL), c)
    else match Lookup(c.ctx.task.fds, from)
      case Err(e) => (Fail(e), c)
      case Ok(entry) =>
        var sh := c.sh.(descs := BumpedOne(c.sh.descs, entry.desc));
        var (fds, r) := Replaced(c.ctx.task.fds, to, Fd(entry.desc, cloexec), c.sh.limits.openFiles);
        match r
        case Err(e) => (Fail(e), c.(sh := sh))
        case Ok(None) => (Value(to), WithFds(c, fds).(sh := sh))
        case Ok(Some(was)) => (Value(to), WithFds(c, fds).(sh := ReleaseDesc(sh, was.desc)))
  }

  function DoSetCloexec(c: Cpu, fd: int, on: bool): (Answer, Cpu) {
    var (fds, r) := Marked(c.ctx.task.fds, fd, on);
    (ToAnswer(r), WithFds(c, fds))
  }

  function DoSetFlags(c: Cpu, fd: int, append: bool, nonblock: bool): (Answer, Cpu) {
    match Lookup(c.ctx.task.fds, fd)
    case Err(e) => (Fail(e), c)
    case Ok(entry) =>
      match At(c.sh.descs, entry.desc)
      case None => (Fail(BADF), c)
      case Some(d) =>
        (Value(0), c.(sh := c.sh.(descs := Stored(c.sh.descs, entry.desc, d.(append := append, nonblock := nonblock)))))
  }

  /** A pipe, its two descriptions and its two descriptors; each allocation can be the one that fails. */
  function DoPipe2(c: Cpu, cloexec: bool, nonblock: bool, copyOk: bool): (Answer, Cpu) {
    var (pipes, p) := Inserted(c.sh.pipes, Pipe([], 1, 1), c.sh.limits.openFiles);
    if p.None? then (Fail(MFILE), c.(sh := c.sh.(pipes := pipes)))
    else PipeReadEnd(WithPipe(c, pipes, p.value), p.value, cloexec, nonblock, copyOk)
  }

  function WithPipe(c: Cpu, pipes: SlabState<Pipe>, p: nat): Cpu {
    c.(sh := c.sh.(pipes := pipes, log := c.sh.log + [Made(p)]))
  }

  function WithDescs(c: Cpu, descs: SlabState<Desc>): Cpu {
    c.(sh := c.sh.(descs := descs))
  }

  function ReadEnd(p: nat, nonblock: bool): Desc {
    Desc(PipeRead(p), ReadOnly, false, nonblock, 1)
  }

  function WriteEnd(p: nat, nonblock: bool): Desc {
    Desc(PipeWrite(p), WriteOnly, false, nonblock, 1)
  }

  function PipeReadEnd(c: Cpu, p: nat, cloexec: bool, nonblock: bool, copyOk: bool): (Answer, Cpu) {
    var (descs, r) := Inserted(c.sh.descs, ReadEnd(p, nonblock), c.sh.limits.openFiles * 4);
    if r.None? then (Fail(MFILE), WithDescs(c, descs))
    else PipeWriteEnd(WithDescs(c, descs), p, r.value, cloexec, nonblock, copyOk)
  }

  function PipeWriteEnd(c: Cpu, p: nat, r: nat, cloexec: bool, nonblock: bool, copyOk: bool): (Answer, Cpu) {
    var (descs, w) := Inserted(c.sh.descs, WriteEnd(p, nonblock), c.sh.limits.openFiles * 4);
    if w.None? then (Fail(MFILE), WithDescs(c, descs))
    else PipeFds(WithDescs(c, descs), r, w.value, cloexec, copyOk)
  }

  function PipeFds(c: Cpu, r: nat, w: nat, cloexec: bool, copyOk: bool): (Answer, Cpu) {
    var limit := c.sh.limits.openFiles;
    var (fds1, readFd) := Allocated(c.ctx.task.fds, Fd(r, cloexec), 0, limit);
    if readFd.Err? then (Fail(readFd.error), c)
    else
      var (fds2, writeFd) := Allocated(fds1, Fd(w, cloexec), 0, limit);
      if writeFd.Err? then
        var (fds3, back) := Taken(fds1, readFd.value);
        match back
        case Ok(entry) => (Fail(writeFd.error), WithFds(c, fds3).(sh := ReleaseDesc(c.sh, entry.desc)))
        case Err(_) => (Fail(writeFd.error), WithFds(c, fds3))
      else
        (if copyOk then Value(0) else Fail(FAULT), WithFds(c, fds2))
  }

  /** A fresh description for something that is not a pipe, dropped again if no descriptor is free. */
  function DoOpen(c: Cpu, d: Desc, cloexec: bool): (Answer, Cpu) {
    var limit := c.sh.limits.openFiles;
    var (descs, key) := Inserted(c.sh.descs, d, limit * 4);
    var sh := c.sh.(descs := descs);
    if key.None? then (Fail(MFILE), c.(sh := sh))
    else
      var (fds, r) := Allocated(c.ctx.task.fds, Fd(key.value, cloexec), 0, limit);
      match r
      case Ok(n) => (Value(n), WithFds(c, fds).(sh := sh))
      case Err(e) => (Fail(e), c.(sh := ReleaseDesc(sh, key.value)))
  }

  // ----- bytes ---------------------------------------------------------------------------

  datatype Got = Got(bytes: seq<byte>) | NoRead(error: Errno) | ReadWaits

  datatype Put = Put(count: nat) | NoWrite(error: Errno) | WriteWaits

  function Zeros(n: nat): (r: seq<byte>)
    ensures |r| == n
  {
    seq(n, _ => 0)
  }

  /** How many bytes a canonical-mode read takes: up to and including the first newline. */
  function LineLen(data: seq<byte>, max: nat): (n: nat)
    ensures n <= |data| && n <= max
    ensures |data| > 0 && max > 0 ==> n > 0
  {
    if |data| == 0 || max == 0 then 0
    else if data[0] == 10 then 1
    else 1 + LineLen(data[1..], max - 1)
  }

  function ReadStdin(sh: Shared, nonblock: bool, len: nat): (Got, Shared) {
    var s := sh.stdin;
    if |s.data| == 0 then
      if s.closed then (Got([]), sh)
      else if nonblock then (NoRead(AGAIN), sh)
      else (ReadWaits, sh.(stdin := s.(wanted := true)))
    else
      var n := LineLen(s.data, len);
      (Got(s.data[..n]), sh.(stdin := StdinBuffer(s.data[n..], s.closed, false)))
  }

  function ReadPipe(sh: Shared, p: nat, nonblock: bool, len: nat): (Got, Shared) {
    match At(sh.pipes, p)
    case None => (NoRead(BADF), sh)
    case Some(q) =>
      if |q.data| == 0 then
        if q.writers == 0 then (Got([]), sh.(log := sh.log + [EndOfFile(p)]))
        else if nonblock then (NoRead(AGAIN), sh)
        else (ReadWaits, sh)
      else
        var n := Min(|q.data|, len);
        (Got(q.data[..n]),
         sh.(pipes := Stored(sh.pipes, p, q.(data := q.data[n..])), log := sh.log + [Returned(p, q.data[..n])]))
  }

  /** Everything `read(2)` does short of the copy to the guest. */
  function ReadBytes(sh: Shared, t: Task, fd: int, len: nat, vfs: Vfs): (Got, Shared) {
    if len == 0 then (Got([]), sh)
    else match Lookup(t.fds, fd)
      case Err(e) => (NoRead(e), sh)
      case Ok(entry) =>
        match At(sh.descs, entry.desc)
        case None => (NoRead(BADF), sh)
        case Some(d) => if !d.Readable() then (NoRead(BADF), sh) else ReadDesc(sh, entry.desc, d, len, vfs)
  }

  function ReadDesc(sh: Shared, key: nat, d: Desc, len: nat, vfs: Vfs): (Got, Shared) {
    match d.kind
    case PipeRead(p) => ReadPipe(sh, p, d.nonblock, len)
    case PipeWrite(_) => (NoRead(BADF), sh)
    case Other(plain) =>
      match plain
      case File(_, _) =>
        (match vfs
         case Fine(bytes, _) => (Got(bytes[..Min(|bytes|, len)]), sh)
         case Refuses(e) => if e == AGAIN then (ReadWaits, sh.(vfsPending := true)) else (NoRead(e), sh))
      case Memory(data, pos) =>
        var start := Min(pos, |data|);
        var n := Min(|data| - start, len);
        (Got(data[start..start + n]),
         sh.(descs := Stored(sh.descs, key, d.(kind := Other(Memory(data, start + n))))))
      case Dir => (NoRead(ISDIR), sh)
      case Stdin => ReadStdin(sh, d.nonblock, len)
      case Stdout(_) => (NoRead(BADF), sh)
      case Null => (Got([]), sh)
      case Zero => (Got(Zeros(len)), sh)
      case Random => (Got(Zeros(len)), sh)
  }

  function DoRead(c: Cpu, fd: int, len: nat, copyOk: bool, vfs: Vfs): (Answer, Cpu) {
    if len == 0 then (Value(0), c)
    else
      var (g, sh) := ReadBytes(c.sh, c.ctx.task, fd, Min(len, STAGING_MAX), vfs);
      match g
      case Got(bytes) => (if copyOk then Value(|bytes|) else Fail(FAULT), c.(sh := sh))
      case NoRead(e) => (Fail(e), c.(sh := sh))
      case ReadWaits => (Block, c.(sh := sh))
  }

  function WritePipe(sh: Shared, pid: int, p: nat, nonblock: bool, data: seq<byte>): (r: (Put, Shared))
    ensures r.0.Put? ==> r.0.count <= |data|
  {
    match At(sh.pipes, p)
    case None => (NoWrite(BADF), sh)
    case Some(q) =>
      if q.readers == 0 then (NoWrite(PIPE), sh.(table := Raised(sh.table, pid, SIGPIPE)))
      else if q.Room() == 0 then (if nonblock then NoWrite(AGAIN) else WriteWaits, sh)
      else
        var n := Min(q.Room(), |data|);
        (Put(n), sh.(pipes := Stored(sh.pipes, p, q.(data := q.data + data[..n])),
          log := sh.log + [Accepted(p, data[..n])]))
  }

  /** `write(2)` with the bytes already out of guest memory. */
  function WriteBytes(sh: Shared, t: Task, fd: int, data: seq<byte>, vfs: Vfs): (r: (Put, Shared))
    ensures r.0.Put? ==> r.0.count <= |data|
  {
    match Lookup(t.fds, fd)
    case Err(e) => (NoWrite(e), sh)
    case Ok(entry) =>
      match At(sh.descs, entry.desc)
      case None => (NoWrite(BADF), sh)
      case Some(d) => if !d.Writable() then (NoWrite(BADF), sh) else WriteDesc(sh, t.pid, d, data, vfs)
  }

  function WriteDesc(sh: Shared, pid: int, d: Desc, data: seq<byte>, vfs: Vfs): (r: (Put, Shared))
    ensures r.0.Put? ==> r.0.count <= |data|
  {
    match d.kind
    case PipeRead(_) => (NoWrite(BADF), sh)
    case PipeWrite(p) => WritePipe(sh, pid, p, d.nonblock, data)
    case Other(plain) =>
      match plain
      case File(_, readOnly) =>
        if readOnly then (NoWrite(ROFS), sh)
        else (match vfs
              case Fine(_, count) => (Put(Min(count, |data|)), sh)
              case Refuses(e) => if e == AGAIN then (WriteWaits, sh.(vfsPending := true)) else (NoWrite(e), sh))
      case Stdout(which) => (Put(|data|), WriteOutput(sh, which, data))
      case Dir => (NoWrite(BADF), sh)
      case Stdin => (NoWrite(BADF), sh)
      case Memory(_, _) => (Put(|data|), sh)
      case Null => (Put(|data|), sh)
      case Zero => (Put(|data|), sh)
      case Random => (Put(|data|), sh)
  }

  function DoWrite(c: Cpu, fd: int, decodes: bool, data: seq<byte>, vfs: Vfs): (Answer, Cpu) {
    if !decodes then (Fail(FAULT), c)
    else
      var (p, sh) := WriteBytes(c.sh, c.ctx.task, fd, data, vfs);
      match p
      case Put(n) => (Value(n), c.(sh := sh))
      case NoWrite(e) => (Fail(e), c.(sh := sh))
      case WriteWaits => (Block, c.(sh := sh))
  }

  /** One element of a vectored call. */
  function DoIov(c: Cpu, reading: bool, fd: int, v: Iov): (Answer, Cpu) {
    if reading then DoRead(c, fd, v.len, v.copyOk, v.vfs) else DoWrite(c, fd, v.copyOk, v.data, v.vfs)
  }

  function IovLen(reading: bool, v: Iov): nat {
    if reading then v.len else |v.data|
  }

  /** The vector from its `i`-th element on, `total` bytes already moved. */
  function DoVector(c: Cpu, reading: bool, fd: int, iovs: seq<Iov>, i: nat, total: nat): (Answer, Cpu)
    requires i <= |iovs|
    decreases |iovs| - i
  {
    if i == |iovs| then (Value(total), c)
    else
      var v := iovs[i];
      if !v.decodes then (Fail(FAULT), c)
      else if IovLen(reading, v) == 0 then DoVector(c, reading, fd, iovs, i + 1, total)
      else
        var (a, after) := DoIov(c, reading, fd, v);
        match a
        case Value(done) =>
          var sum := Min(total + Max(done, 0), I32_MAX);
          if done < IovLen(reading, v) then (Value(sum), after) else DoVector(after, reading, fd, iovs, i + 1, sum)
        case _ => if total > 0 then (Value(total), after) else (a, after)
  }

  // ----- waiting on descriptors ----------------------------------------------------------

  datatype Ready = Ready(input: bool, output: bool, err: bool, hup: bool, nval: bool) {
    predicate Any() { input || output || err || hup || nval }
  }

  const NOT_READY: Ready := Ready(false, false, false, false, false)

  /** What one description is ready for, whatever was asked. */
  function ReadyOf(sh: Shared, d: Desc): Ready {
    match d.kind
    case PipeRead(p) =>
      (match At(sh.pipes, p)
       case Some(q) =>
         if |q.data| > 0 then NOT_READY.(input := true)
         else if q.writers == 0 then NOT_READY.(hup := true) else NOT_READY
       case None => NOT_READY)
    case PipeWrite(p) =>
      (match At(sh.pipes, p)
       case Some(q) =>
         if q.readers == 0 then NOT_READY.(err := true)
         else if q.Room() > 0 then NOT_READY.(output := true) else NOT_READY
       case None => NOT_READY)
    case Other(plain) =>
      match plain
      case Stdin => NOT_READY.(input := |sh.stdin.data| > 0 || sh.stdin.closed)
      case Stdout(_) => NOT_READY.(output := true)
      case _ => NOT_READY.(input := true, output := true)
  }

  function PollOne(sh: Shared, key: nat, wantIn: bool, wantOut: bool): Ready {
    match At(sh.descs, key)
    case None => NOT_READY.(nval := true)
    case Some(d) =>
      var r := ReadyOf(sh, d);
      r.(input := r.input && wantIn, output := r.output && wantOut)
  }

  function PollFdReady(sh: Shared, t: Task, p: PollFd): Ready {
    if p.fd < 0 then NOT_READY
    else match Lookup(t.fds, p.fd)
      case Ok(entry) => PollOne(sh, entry.desc, p.read, p.write)
      case Err(_) => NOT_READY.(nval := true)
  }

  /** What an entry adds to the count: `ppoll` counts entries, `pselect` counts set memberships. */
  function PollScore(sh: Shared, t: Task, p: PollFd, select: bool): nat {
    var r := PollFdReady(sh, t, p);
    if select then
      (if p.read && (r.input || r.hup || r.err) then 1 else 0) + (if p.write && (r.output || r.err) then 1 else 0)
    else if r.Any() then 1 else 0
  }

  function ReadyCount(sh: Shared, t: Task, polls: seq<PollFd>, select: bool): nat {
    if |polls| == 0 then 0 else PollScore(sh, t, polls[0], select) + ReadyCount(sh, t, polls[1..], select)
  }

  function DoPoll(c: Cpu, polls: seq<PollFd>, timeout: Option<nat>, copyOk: bool, select: bool,
    now: nat): (Answer, Cpu) {
    var until := if timeout.None? then None else Some(DeadlineOf(c.ctx.exec, timeout.value, now));
    var timed := if until.None? then c else WithDeadline(c, until.value);
    var ready := ReadyCount(c.sh, c.ctx.task, polls[..Min(|polls|, POLL_MAX)], select);
    if ready > 0 || (until.Some? && now >= until.value) then
      (if copyOk then Value(ready) else Fail(FAULT), timed)
    else if until.Some? then (Block, Asleep(timed, until.value))
    else if !select && IsOpen(c.ctx.task.fds, 0) then
      (Block, timed.(sh := timed.sh.(stdin := timed.sh.stdin.(wanted := true))))
    else (Block, timed)
  }

  // ----- the table -----------------------------------------------------------------------

  function HandleLife(c: Cpu, call: LifeCall): (Answer, Cpu) {
    match call
    case ExitCall(code) => DoExit(c, code)
    case Clone(shape) => DoClone(c, shape)
    case Execve(program, exe, argv, envp) => DoExecve(c, program, exe, argv, envp)
    case Wait4(which, noHang, copyOk) => DoWait4(c, which, noHang, copyOk)
    case Setpgid(target, group) => DoSetpgid(c, target, group)
    case Setsid => DoSetsid(c)
    case Kill(target, signal) => DoKill(c, target, signal)
  }

  function HandleOwn(c: Cpu, call: TaskCall): (Answer, Cpu) {
    match call
    case Umask(mask) => (Value(c.ctx.task.umask), WithTask(c, c.ctx.task.(umask := mask % 512)))
    case Chdir(cwd) => (Value(0), WithTask(c, c.ctx.task.(cwd := cwd)))
    case Sigaction(signal, action, copyOk) => DoSigaction(c, signal, action, copyOk)
    case Sigprocmask(how, sigs, copyOk) => DoSigprocmask(c, how, sigs, copyOk)
  }

  function HandleWait(c: Cpu, call: WaitCall, now: nat): (Answer, Cpu) {
    match call
    case Sigsuspend(mask) => DoSigsuspend(c, mask)
    case Nanosleep(after) => DoNanosleep(c, after, now)
    case Ppoll(polls, timeout, copyOk) => DoPoll(c, polls, timeout, copyOk, false, now)
    case Pselect(polls, timeout, copyOk) => DoPoll(c, polls, timeout, copyOk, true, now)
  }

  function HandleMem(c: Cpu, call: MemCall): (Answer, Cpu) {
    match call
    case Brk(request, grows) => DoBrk(c, request, grows)
    case Mmap(length, fixed, anonymous, fd, grows, vfs) => DoMmap(c, length, fixed, anonymous, fd, grows, vfs)
  }

  function HandleFiles(c: Cpu, call: FdCall): (Answer, Cpu) {
    match call
    case Close(fd) => DoClose(c, fd)
    case DupAt(fd, min, cloexec) => DoDupAt(c, fd, Max(min, 0), cloexec)
    case Dup3(from, to, cloexec) => DoDup3(c, from, to, cloexec)
    case SetCloexec(fd, on) => DoSetCloexec(c, fd, on)
    case SetFlags(fd, append, nonblock) => DoSetFlags(c, fd, append, nonblock)
    case Pipe2(cloexec, nonblock, copyOk) => DoPipe2(c, cloexec, nonblock, copyOk)
    case Open(plain, access, append, nonblock, cloexec) =>
      DoOpen(c, Desc(Other(plain), access, append, nonblock, 1), cloexec)
  }

  function HandleBytes(c: Cpu, call: ByteCall): (Answer, Cpu) {
    match call
    case Read(fd, len, copyOk, vfs) => DoRead(c, fd, len, copyOk, vfs)
    case Write(fd, decodes, data, vfs) => DoWrite(c, fd, decodes, data, vfs)
    case Readv(fd, iovs) => DoVector(c, true, fd, iovs, 0, 0)
    case Writev(fd, iovs) => DoVector(c, false, fd, iovs, 0, 0)
  }

  function HandleFile(c: Cpu, vfs: Vfs): (Answer, Cpu) {
    match vfs
    case Fine(_, count) => (Value(count), c)
    case Refuses(e) => VfsFault(c, e)
  }

  function Handle(c: Cpu, call: Call, now: nat): (Answer, Cpu) {
    match call
    case Life(life) => HandleLife(c, life)
    case Own(own) => HandleOwn(c, own)
    case Wait(wait) => HandleWait(c, wait, now)
    case Mem(mem) => HandleMem(c, mem)
    case Files(files) => HandleFiles(c, files)
    case Bytes(bytes) => HandleBytes(c, bytes)
    case FileCall(vfs) => HandleFile(c, vfs)
    case Plainly(result) => (ToAnswer(result), c)
  }

  function FlagRaised(c: Cpu): Cpu {
    if c.ctx.exec.hasFlag then c.(ctx := c.ctx.(exec := c.ctx.exec.(flag := Interrupted(c.sh, c.ctx)))) else c
  }

  /** The call is no longer outstanding: drop its deadline, restore a displaced mask, and tell the
      guest whether a signal is waiting. */
  function Finished(c: Cpu): Cpu {
    var exec := c.ctx.exec.(deadline := None, maskToRestore := None);
    var task := match c.ctx.exec.maskToRestore
      case Some(mask) => c.ctx.task.(sigmask := mask)
      case None => c.ctx.task;
    FlagRaised(c.(ctx := c.ctx.(exec := exec, task := task)))
  }

  function Counted(c: Cpu): Cpu {
    c.(sh := c.sh.(syscalls := AddU64(c.sh.syscalls, 1)))
  }

  /** Serve one call: a wait that a deliverable signal interrupts ends with `EINTR`. */
  function Dispatch(c: Cpu, call: Call, now: nat): (Answer, Cpu) {
    var (a, after) := Handle(Counted(c), call, now);
    match a
    case Value(_) => (a, Finished(after))
    case Fail(_) => (a, Finished(after))
    case Block => if Interrupted(after.sh, after.ctx) then (Fail(INTR), Finished(after)) else (Block, after)
    case Exits(_) => (a, after)
    case Execs => (a, after)
  }

  // ----- retries -------------------------------------------------------------------------

  function BareIov(v: Iov): Iov {
    v.(vfs := Refuses(AGAIN))
  }

  function BareIovs(iovs: seq<Iov>): seq<Iov> {
    seq(|iovs|, i requires 0 <= i < |iovs| => BareIov(iovs[i]))
  }

  /** What a guest asked for, without what the outside answers this time. An absolute sleep works
      out what is left of it again at every attempt. */
  function Bare(call: Call): Call {
    match call
    case Wait(Nanosleep(_)) => Wait(Nanosleep(0))
    case Mem(Mmap(length, fixed, anonymous, fd, _, _)) => Mem(Mmap(length, fixed, anonymous, fd, true, Refuses(AGAIN)))
    case Bytes(Read(fd, len, copyOk, _)) => Bytes(Read(fd, len, copyOk, Refuses(AGAIN)))
    case Bytes(Write(fd, decodes, data, _)) => Bytes(Write(fd, decodes, data, Refuses(AGAIN)))
    case Bytes(Readv(fd, iovs)) => Bytes(Readv(fd, BareIovs(iovs)))
    case Bytes(Writev(fd, iovs)) => Bytes(Writev(fd, BareIovs(iovs)))
    case _ => call
  }

  /** Whether `again` can be the retry of `first`: the same request, the outside asked anew. A call
      that waited for a filesystem to answer may turn out to be any call about a path. */
  predicate Retries(first: Call, again: Call) {
    if first.FileCall? then
      || again.FileCall? || (again.Files? && (again.files.Open? || again.files.DupAt?))
      || (again.Own? && again.own.Chdir?) || (again.Life? && again.life.Execve?)
    else Bare(first) == Bare(again)
  }
}
