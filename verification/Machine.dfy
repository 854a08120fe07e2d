/** The whole session as a state machine: the shared state, the running processes, and one move
    for everything the scheduler, a guest, a host command or the embedder can do next. */
module Machine {
  import opened Base
  import opened Slabs
  import opened Sums
  import opened Fds
  import opened Kernel
  import opened Syscalls
  import opened HostSteps
  import opened Signals

  /** Whether a guest may run, or its outstanding call has to be retried first. */
  datatype Resume = Running | BlockedIn(call: Call)

  datatype Body = Guest | Host(readsStdin: bool, argv: seq<seq<byte>>, envp: seq<seq<byte>>, phase: Phase)

  datatype Proc = Proc(ctx: Ctx, inst: Inst, body: Body, resume: Resume, charged: nat)

  datatype Session = Session(sh: Shared, procs: seq<Proc>, exitStatus: Option<int>)

  const NO_INST: Inst := Inst(0, 0, [])

  function ResetAction(a: SigAction): SigAction {
    if a.handler == SIG_IGN then a else DEFAULT_ACTION
  }

  /** `execve` resets every handler of the old program; what was ignored stays ignored. */
  function ResetHandlers(t: Task): Task {
    t.(sigact := seq(|t.sigact|, i requires 0 <= i < |t.sigact| => ResetAction(t.sigact[i])))
  }

  function Launched(s: Spawn): Task {
    ResetHandlers(s.task).(exe := s.exe, comm := if |s.argv| > 0 then s.argv[0] else [])
  }

  function FreshCtx(s: Spawn): Ctx {
    Ctx(Launched(s), [], None, FRESH_EXEC)
  }

  function FreshHost(s: Spawn, readsStdin: bool): Body {
    Host(readsStdin, s.argv, s.envp, Reading([]))
  }

  /** Turn a spawn into a process at the end of the list, or give its descriptors back. */
  function Start(k: Session, s: Spawn, launch: Launch): (Session, bool) {
    match launch
    case NoProgram => (Abandoned(k, s), false)
    case GuestFails => (Abandoned(k, s), false)
    case HostCommand(readsStdin) =>
      (k.(procs := k.procs + [Proc(FreshCtx(s), NO_INST, FreshHost(s, readsStdin), Running, 0)]), true)
    case GuestRuns(_, grows) =>
      var size := launch.Size();
      var charge := AddU64(size, ASYNCIFY_PAGES * PAGE);
      var (sh, charged) := Charged(k.sh, charge);
      if !charged then (Abandoned(k, s), false)
      else if !grows then (Abandoned(k.(sh := Uncharged(sh, charge)), s), false)
      else
        var inst := Inst(size + ASYNCIFY_PAGES * PAGE, size, []);
        (k.(sh := sh, procs := k.procs + [Proc(FreshCtx(s), inst, Guest, Running, charge)]), true)
  }

  function Abandoned(k: Session, s: Spawn): Session {
    k.(sh := ReleaseFds(k.sh, s.task.fds))
  }

  /** A dying task gives its descriptors back and its exit is recorded. */
  function TaskEnds(sh: Shared, t: Task, status: int): Shared {
    SetExit(ReleaseFds(sh, t.fds), t.pid, status)
  }

  /** vfork children inside a dying instance die with it, innermost first, then its own task. */
  function StackEnds(sh: Shared, task: Task, stack: seq<Task>, status: int): Shared
    decreases |stack|
  {
    if |stack| == 0 then TaskEnds(sh, task, status)
    else StackEnds(TaskEnds(sh, task, StatusSignaled(SIGKILL)), stack[|stack| - 1], stack[..|stack| - 1], status)
  }

  function OwnPid(ctx: Ctx): int {
    if |ctx.vforkStack| > 0 then ctx.vforkStack[0].pid else ctx.task.pid
  }

  function FirstStatus(e: Option<int>, status: int): Option<int> {
    if e.Some? then e else Some(status)
  }

  function FinishProcess(k: Session, i: nat, status: int): Session
    requires i < |k.procs|
  {
    var p := k.procs[i];
    var procs := Dropped(k.procs, i);
    var sh := StackEnds(Uncharged(k.sh, AddU64(p.charged, p.ctx.exec.grown)), p.ctx.task, p.ctx.vforkStack, status);
    Session(sh, procs, if OwnPid(p.ctx) == 1 || |procs| == 0 then FirstStatus(k.exitStatus, status) else k.exitStatus)
  }

  function KillAll(k: Session, status: int): Session
    decreases |k.procs|
  {
    if |k.procs| == 0 then k.(exitStatus := FirstStatus(k.exitStatus, status))
    else KillAll(FinishProcess(k, 0, status), status)
  }

  /** Swap the instance in place: the old one is gone and paid back before the new one starts. */
  function ReplaceInstance(k: Session, i: nat, launch: Launch): Session
    requires i < |k.procs| && k.procs[i].ctx.execRequest.Some?
  {
    var p := k.procs[i];
    var spawn := p.ctx.execRequest.value;
    var freed := k.(procs := Dropped(k.procs, i), sh := Uncharged(k.sh, AddU64(p.charged, p.ctx.exec.grown)));
    var (started, ok) := Start(freed, spawn, launch);
    if ok && |started.procs| > 0 then
      var n := |started.procs| - 1;
      var at := Min(i, n);
      started.(procs := started.procs[..at] + [started.procs[n]] + started.procs[at..n])
    else started.(sh := SetExit(started.sh, spawn.task.pid, StatusExited(126)))
  }

  /** The oldest pending spawn becomes a process, or is reported as a failed exec. */
  function StartNext(k: Session, launch: Launch): Session
    requires |k.sh.spawn| > 0
  {
    var s := k.sh.spawn[0];
    var (started, ok) := Start(k.(sh := k.sh.(spawn := k.sh.spawn[1..])), s, launch);
    if ok then started else started.(sh := SetExit(started.sh, s.task.pid, StatusExited(126)))
  }

  /** What a call of process `i` reaches. */
  function CpuAt(k: Session, i: nat): Cpu
    requires i < |k.procs|
  {
    Cpu(k.sh, k.procs[i].ctx, k.procs[i].inst)
  }

  /** Serve a call of process `i`, first attempt or retry. */
  function Serve(k: Session, i: nat, call: Call, now: nat): Session
    requires i < |k.procs|
  {
    var p := k.procs[i];
    var (a, after) := Dispatch(CpuAt(k, i), call, now);
    var p' := p.(ctx := after.ctx, inst := after.inst, resume := if a.Block? then BlockedIn(call) else Running);
    var served := k.(sh := after.sh, procs := k.procs[i := p']);
    if a.Exits? then FinishProcess(served, i, a.status) else served
  }

  /** The guest asks for its next signal; a fatal one ends the process. */
  function Fetch(k: Session, i: nat): Session
    requires i < |k.procs|
  {
    var p := k.procs[i];
    var pid := p.ctx.task.pid;
    var (d, left, t) := NextSignal(Pending(k.sh, pid), p.ctx.task);
    var r := Find(k.sh.table, pid);
    var sh := if r.Some? then k.sh.(table := WithRecord(k.sh.table, pid, r.value.(pending := left))) else k.sh;
    var exec := if d.NoSignal? && p.ctx.exec.hasFlag then p.ctx.exec.(flag := false) else p.ctx.exec;
    var fetched := k.(sh := sh, procs := k.procs[i := p.(ctx := p.ctx.(task := t, exec := exec))]);
    if d.Fatal? then FinishProcess(fetched, i, d.status) else fetched
  }

  function HostTurn(k: Session, i: nat, o: HostOracle): Session
    requires i < |k.procs| && k.procs[i].body.Host? && PhaseOk(k.procs[i].body.phase)
  {
    var p := k.procs[i];
    match StepHost(k.sh, p.ctx.task, p.body.readsStdin, p.body.phase, o)
    case None => k
    case Some((step, phase, sh)) =>
      var stepped := k.(sh := sh, procs := k.procs[i := p.(body := p.body.(phase := phase))]);
      match step
      case Stuck => stepped
      case EndedWith(status) => FinishProcess(stepped, i, status)
  }

  datatype Move =
    | Syscall(i: nat, call: Call, now: nat)
    | Retry(i: nat, call: Call, now: nat)
    | Replace(i: nat, launch: Launch)
    | FetchSignal(i: nat)
    | Init(i: nat)
    | Gone(i: nat, status: int, complaint: seq<byte>)
    | StartSpawn(launch: Launch)
    | HostMove(i: nat, oracle: HostOracle)
    | WallClock(status: int)
    | Feed(bytes: seq<byte>)
    | CloseStdin

  predicate Settled(k: Session) {
    forall i :: 0 <= i < |k.procs| ==> k.procs[i].ctx.execRequest.None?
  }

  predicate Runs(k: Session, i: nat) {
    i < |k.procs| && k.procs[i].body.Guest? && k.procs[i].resume.Running?
  }

  /** Whether the source could make this move now. Between an `execve` and the replacement of the
      instance nothing else happens: both are one turn of the scheduler. */
  predicate Enabled(k: Session, m: Move) {
    match m
    case Replace(i, _) => i < |k.procs| && k.procs[i].ctx.execRequest.Some?
    case Syscall(i, _, _) => Settled(k) && Runs(k, i)
    case Retry(i, call, _) =>
      && Settled(k) && i < |k.procs| && k.procs[i].body.Guest? && k.procs[i].resume.BlockedIn?
      && Retries(k.procs[i].resume.call, call)
    case FetchSignal(i) => Settled(k) && Runs(k, i)
    case Init(i) => Settled(k) && Runs(k, i)
    case Gone(i, _, _) => Settled(k) && Runs(k, i)
    case StartSpawn(_) => Settled(k) && |k.sh.spawn| > 0
    case HostMove(i, _) => Settled(k) && i < |k.procs| && k.procs[i].body.Host? && PhaseOk(k.procs[i].body.phase)
    case WallClock(_) => Settled(k) && |k.sh.spawn| == 0
    case Feed(_) => Settled(k)
    case CloseStdin => Settled(k)
  }

  function Step(k: Session, m: Move): Session {
    if !Enabled(k, m) then k
    else match m
      case Syscall(i, call, now) => Serve(k, i, call, now)
      case Retry(i, call, now) => Serve(k, i, call, now)
      case Replace(i, launch) => ReplaceInstance(k, i, launch)
      case FetchSignal(i) => Fetch(k, i)
      case Init(i) =>
        k.(procs := k.procs[i := k.procs[i].(ctx := k.procs[i].ctx.(exec := k.procs[i].ctx.exec.(hasFlag := true)))])
      case Gone(i, status, complaint) => FinishProcess(k.(sh := WriteOutput(k.sh, 2, complaint)), i, status)
      case StartSpawn(launch) => StartNext(k, launch)
      case HostMove(i, o) => HostTurn(k, i, o)
      case WallClock(status) => KillAll(k, status)
      case Feed(bytes) => k.(sh := k.sh.(stdin := k.sh.stdin.(data := k.sh.stdin.data + bytes, wanted := false)))
      case CloseStdin => k.(sh := k.sh.(stdin := k.sh.stdin.(closed := true, wanted := false)))
  }

  /** A whole run, move by move. */
  function Run(k: Session, moves: seq<Move>): Session {
    if |moves| == 0 then k else Step(Run(k, moves[..|moves| - 1]), moves[|moves| - 1])
  }

  // ----- the first process ---------------------------------------------------------------

  function EmptyShared(limits: Limits): Shared {
    Shared(limits, Empty(), Empty(), [], 1, [], StdinBuffer([], false, false), OutputBuffer([], 0), OutputBuffer([], 0),
           0, false, false, 0, [])
  }

  function EmptySession(limits: Limits): Session {
    Session(EmptyShared(limits), [], None)
  }

  /** One of the three standard streams: a description, and the lowest free descriptor if any. */
  function AddStream(sh: Shared, fds: Slots, d: Desc): (Shared, Slots, bool) {
    var (descs, key) := Inserted(sh.descs, d, sh.limits.openFiles * 4);
    if key.None? then (sh.(descs := descs), fds, false)
    else (sh.(descs := descs), Allocated(fds, Fd(key.value, false), 0, sh.limits.openFiles).0, true)
  }

  function Stream(plain: Plain, access: Access): Desc {
    Desc(Other(plain), access, false, false, 1)
  }

  /** The three standard streams, if the description slab has room for them. */
  function Streams(sh: Shared): Option<(Shared, Slots)> {
    var (sh1, fds1, ok1) := AddStream(sh, [], Stream(Stdin, ReadOnly));
    if !ok1 then None else
    var (sh2, fds2, ok2) := AddStream(sh1, fds1, Stream(Stdout(1), WriteOnly));
    if !ok2 then None else
    var (sh3, fds3, ok3) := AddStream(sh2, fds2, Stream(Stdout(2), WriteOnly));
    if !ok3 then None else Some((sh3, fds3))
  }

  function FirstTask(fds: Slots, cwd: string): Task {
    NewTask(1, fds).(cwd := cwd)
  }

  /** Start process 1 on its three streams; `None` when the session cannot begin. */
  function SpawnFirst(limits: Limits, program: nat, exe: string, argv: seq<seq<byte>>,
    envp: seq<seq<byte>>, cwd: string,
                      launch: Launch): Option<Session> {
    match Streams(EmptyShared(limits))
    case None => None
    case Some((shared, fds)) =>
      var sh := shared.(nextPid := 2, table := [NewRecord(1, 0, 1, 1)]);
      var (started, ok) := Start(Session(sh, [], None), Spawn(FirstTask(fds, cwd), program, exe, argv, envp), launch);
      if ok then Some(started) else None
  }
}
