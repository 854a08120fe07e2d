/** A host command over whole runs, the rest of the session doing as it likes between its turns: it
    is handed everything its standard input held, the same at every retry, and what it answers is
    written once. */
module HostRuns {
  import opened Base
  import opened Slabs
  import opened Sums
  import opened Fds
  import opened Kernel
  import opened Syscalls
  import opened HostSteps
  import opened Signals
  import opened Machine
  import opened References
  import opened PipeCalls
  import opened HostFrames
  import opened SessionRefs
  import opened Books
  import opened RefTheorems
  import opened CensusRuns
  import opened Fifo
  import opened Steady
  import opened HostOnce

  // ----- following one process -----------------------------------------------------------

  /** The process a move is made for. */
  function Mover(m: Move): Option<nat> {
    match m
    case Syscall(i, _, _) => Some(i)
    case Retry(i, _, _) => Some(i)
    case Replace(i, _) => Some(i)
    case FetchSignal(i) => Some(i)
    case Init(i) => Some(i)
    case Gone(i, _, _) => Some(i)
    case HostMove(i, _) => Some(i)
    case _ => None
  }

  /** Where the process at place `i` stands after a move: the list closes up behind one that ends. */
  function Place(k: Session, m: Move, i: nat): Option<nat> {
    if m.WallClock? && Enabled(k, m) then None
    else if |Step(k, m).procs| >= |k.procs| || Mover(m).None? || Mover(m).value > i then Some(i)
    else if Mover(m).value == i then None
    else Some(i - 1)
  }

  /** Where the process at place `i` of `s` stands after a run, if it is still there. */
  function Where(s: Session, i: nat, moves: seq<Move>): Option<nat> {
    if |moves| == 0 then Some(i)
    else
      var before := moves[..|moves| - 1];
      match Where(s, i, before)
      case None => None
      case Some(j) => Place(Run(s, before), moves[|moves| - 1], j)
  }

  ghost predicate HostAt(k: Session, i: nat) {
    i < |k.procs| && k.procs[i].body.Host? && k.procs[i].ctx.execRequest.None? && PhaseOk(k.procs[i].body.phase)
  }

  /** The session at the end of `path`, where the process at place `i` is a host command that has
      not had a turn yet, as starting one leaves it. */
  ghost predicate Begun(u: Setup, path: seq<Move>, i: nat) {
    && Begin(u).Some? && HostAt(Birth(u, path), i)
    && Birth(u, path).procs[i].body.phase == Reading([])
  }

  function Birth(u: Setup, path: seq<Move>): Session
    requires Begin(u).Some?
  {
    Run(Begin(u).value, path)
  }

  /** If it reads standard input, that is pipe `p`. */
  ghost predicate Piped(s: Session, i: nat, p: nat)
    requires HostAt(s, i)
  {
    s.procs[i].body.readsStdin ==> ReadsPipe(s.sh, s.procs[i].ctx.task, 0, p)
  }

  /** Descriptor `fd` waits rather than be refused. */
  ghost predicate WaitsOn(sh: Shared, t: Task, fd: int) {
    IsOpen(t.fds, fd) && Live(sh.descs, t.fds[fd].value.desc) && !DescAt(sh, t, fd).nonblock
  }

  lemma FinishPlaces(k: Session, j: nat, status: int, i: nat)
    requires j < |k.procs| && i < |k.procs|
    ensures var procs := FinishProcess(k, j, status).procs;
      && |procs| == |k.procs| - 1
      && (i < j ==> procs[i] == k.procs[i]) && (i > j ==> procs[i - 1] == k.procs[i])
  {
    hide StackEnds;
  }

  lemma StartPlaces(k: Session, spawn: Spawn, launch: Launch, i: nat)
    requires i < |k.procs|
    ensures var (after, ok) := Start(k, spawn, launch);
      && |after.procs| == |k.procs| + Unit(ok) && after.procs[i] == k.procs[i]
  {
    hide ReleaseFds, Charged;
  }

  lemma ServePlaces(k: Session, j: nat, call: Call, now: nat, i: nat)
    requires j < |k.procs| && i < |k.procs| && i != j
    ensures var procs := Serve(k, j, call, now).procs;
      if |procs| == |k.procs| then procs[i] == k.procs[i]
      else |procs| == |k.procs| - 1 && procs[if i < j then i else i - 1] == k.procs[i]
  {
    hide Dispatch, FinishProcess;
    var p := k.procs[j];
    var (a, after) := Dispatch(Cpu(k.sh, p.ctx, p.inst), call, now);
    if a.Exits? {
      var p' := p.(ctx := after.ctx, inst := after.inst, resume := Running);
      FinishPlaces(k.(sh := after.sh, procs := k.procs[j := p']), j, a.status, i);
    }
  }

  lemma FetchPlaces(k: Session, j: nat, i: nat)
    requires j < |k.procs| && i < |k.procs| && i != j
    ensures var procs := Fetch(k, j).procs;
      if |procs| == |k.procs| then procs[i] == k.procs[i]
      else |procs| == |k.procs| - 1 && procs[if i < j then i else i - 1] == k.procs[i]
  {
    hide NextSignal, FinishProcess, WithRecord;
    var p := k.procs[j];
    var pid := p.ctx.task.pid;
    var (d, left, t) := NextSignal(Pending(k.sh, pid), p.ctx.task);
    var r := Find(k.sh.table, pid);
    var sh := if r.Some? then k.sh.(table := WithRecord(k.sh.table, pid, r.value.(pending := left))) else k.sh;
    var exec := if d.NoSignal? && p.ctx.exec.hasFlag then p.ctx.exec.(flag := false) else p.ctx.exec;
    if d.Fatal? {
      FinishPlaces(k.(sh := sh, procs := k.procs[j := p.(ctx := p.ctx.(task := t, exec := exec))]), j, d.status, i);
    }
  }

  lemma HostPlaces(k: Session, j: nat, o: HostOracle, i: nat)
    requires j < |k.procs| && k.procs[j].body.Host? && PhaseOk(k.procs[j].body.phase) && i < |k.procs| && i != j
    ensures var procs := HostTurn(k, j, o).procs;
      if |procs| == |k.procs| then procs[i] == k.procs[i]
      else |procs| == |k.procs| - 1 && procs[if i < j then i else i - 1] == k.procs[i]
  {
    hide StepHost, FinishProcess;
    var p := k.procs[j];
    match StepHost(k.sh, p.ctx.task, p.body.readsStdin, p.body.phase, o)
    case None =>
    case Some((step, phase, sh)) =>
      if step.EndedWith? {
        FinishPlaces(k.(sh := sh, procs := k.procs[j := p.(body := p.body.(phase := phase))]), j, step.status, i);
      }
  }

  lemma ReplacePlaces(k: Session, j: nat, launch: Launch, i: nat)
    requires j < |k.procs| && k.procs[j].ctx.execRequest.Some? && i < |k.procs| && i != j
    ensures var procs := ReplaceInstance(k, j, launch).procs;
      if |procs| == |k.procs| then procs[i] == k.procs[i]
      else |procs| == |k.procs| - 1 && procs[if i < j then i else i - 1] == k.procs[i]
  {
    hide Start, ExitTable;
    var p := k.procs[j];
    var freed := k.(procs := Dropped(k.procs, j), sh := Uncharged(k.sh, AddU64(p.charged, p.ctx.exec.grown)));
    StartPlaces(freed, p.ctx.execRequest.value, launch, if i < j then i else i - 1);
  }

  lemma StartNextPlaces(k: Session, launch: Launch, i: nat)
    requires |k.sh.spawn| > 0 && i < |k.procs|
    ensures var procs := StartNext(k, launch).procs; |procs| >= |k.procs| && procs[i] == k.procs[i]
  {
    hide Start, ExitTable;
    StartPlaces(k.(sh := k.sh.(spawn := k.sh.spawn[1..])), k.sh.spawn[0], launch, i);
  }

  /** Nothing touches a host command but its own turns: through any other move it stays as it is,
      unless the wall clock runs out. */
  lemma OthersLeaveIt(k: Session, m: Move, i: nat)
    requires HostAt(k, i) && !(m.HostMove? && m.i == i)
    ensures match Place(k, m, i)
      case None => m.WallClock?
      case Some(j) => j < |Step(k, m).procs| && Step(k, m).procs[j] == k.procs[i]
  {
    hide Serve, FinishProcess, ReplaceInstance, StartNext, Fetch, HostTurn, KillAll;
    if Enabled(k, m) {
      match m
      case Syscall(j, call, now) => ServePlaces(k, j, call, now, i);
      case Retry(j, call, now) => ServePlaces(k, j, call, now, i);
      case Replace(j, launch) => ReplacePlaces(k, j, launch, i);
      case FetchSignal(j) => FetchPlaces(k, j, i);
      case Gone(j, status, complaint) => FinishPlaces(k.(sh := WriteOutput(k.sh, 2, complaint)), j, status, i);
      case StartSpawn(launch) => StartNextPlaces(k, launch, i);
      case HostMove(j, o) => HostPlaces(k, j, o, i);
      case _ =>
    }
  }

  lemma {:induction false} RunConcat(s: Session, a: seq<Move>, b: seq<Move>)
    ensures Run(s, a + b) == Run(Run(s, a), b)
  {
    hide Step;
    if |b| == 0 {
      assert a + b == a;
    } else {
      var n := |b| - 1;
      RunConcat(s, a, b[..n]);
      assert (a + b)[..|a + b| - 1] == a + b[..n];
    }
  }

  lemma {:induction false} WhereConcat(s: Session, i: nat, a: seq<Move>, b: seq<Move>)
    ensures Where(s, i, a + b) == (match Where(s, i, a) case None => None case Some(j) => Where(Run(s, a), j, b))
  {
    hide Place, Run;
    if |b| == 0 {
      assert a + b == a;
    } else {
      var n := |b| - 1;
      WhereConcat(s, i, a, b[..n]);
      RunConcat(s, a, b[..n]);
      assert (a + b)[..|a + b| - 1] == a + b[..n];
    }
  }

  // ----- its own turns -------------------------------------------------------------------

  /** The move is a turn of the host command at place `i`. A drain that the filesystem answers ran
      out on is no turn. */
  predicate OwnTurn(k: Session, m: Move, i: nat) {
    && Enabled(k, m) && m.HostMove? && m.i == i
    && var p := k.procs[i]; StepHost(k.sh, p.ctx.task, p.body.readsStdin, p.body.phase, m.oracle).Some?
  }

  /** The last move of a run is a turn of the process that stood at place `i` of `s`. */
  predicate LastIsOwn(s: Session, i: nat, moves: seq<Move>) {
    && |moves| > 0
    && var before := moves[..|moves| - 1];
       && Where(s, i, before).Some?
       && OwnTurn(Run(s, before), moves[|moves| - 1], Where(s, i, before).value)
  }

  /** What the process's own turns added to the history while at descriptor 0, 1 or 2. */
  ghost function OwnEvents(s: Session, i: nat, moves: seq<Move>, fd: int): seq<Event> {
    if |moves| == 0 then []
    else
      var before := moves[..|moves| - 1];
      OwnEvents(s, i, before, fd)
      + if LastIsOwn(s, i, moves) then EventsOf(Run(s, before), moves[|moves| - 1], fd) else []
  }

  ghost function EventsOf(k: Session, m: Move, fd: int): seq<Event>
    requires m.HostMove? && OwnTurn(k, m, m.i)
  {
    var p := k.procs[m.i];
    TurnEvents(k.sh, p.ctx.task, p.body.readsStdin, p.body.phase, m.oracle, fd)
  }

  /** The bytes the process's own turns got accepted on descriptor 1 or 2. */
  function OwnSent(s: Session, i: nat, moves: seq<Move>, fd: int): seq<byte> {
    if |moves| == 0 then []
    else
      var before := moves[..|moves| - 1];
      OwnSent(s, i, before, fd) + if LastIsOwn(s, i, moves) then SentBy(Run(s, before), moves[|moves| - 1], fd) else []
  }

  function SentBy(k: Session, m: Move, fd: int): seq<byte>
    requires m.HostMove? && OwnTurn(k, m, m.i)
  {
    var p := k.procs[m.i];
    TurnSent(k.sh, p.ctx.task, p.body.readsStdin, p.body.phase, m.oracle, fd)
  }

  predicate RefusedBy(k: Session, m: Move, fd: int)
    requires m.HostMove? && OwnTurn(k, m, m.i)
  {
    var p := k.procs[m.i];
    TurnRefused(k.sh, p.ctx.task, p.body.readsStdin, p.body.phase, m.oracle, fd)
  }

  /** What the command is handed, in a turn in which it is run. */
  function Handed(k: Session, i: nat, o: HostOracle): Option<Invocation> {
    if !(i < |k.procs| && k.procs[i].body.Host? && k.procs[i].body.phase.Reading?) then None
    else
      var p := k.procs[i];
      var (drain, all, _) := Drawn(k.sh, p.ctx.task, p.body.readsStdin, p.body.phase, o);
      if drain.Done? then Some(Invocation(p.body.argv, p.body.envp, p.ctx.task.cwd, all)) else None
  }

  /** The wait status, and what is to be written on descriptors 1 and 2, of an answer: a command that
      could not be run is one that exits with 126 and its complaint. */
  function StatusOf(answer: HostAnswer): int {
    match answer
    case Ran(status, _, _) => (status % 256) * 256
    case _ => 126 * 256
  }

  function OutOf(answer: HostAnswer): seq<byte> {
    match answer
    case Ran(_, out, _) => out
    case _ => []
  }

  function ErrOf(answer: HostAnswer): seq<byte> {
    match answer
    case Ran(_, _, err) => err
    case CannotRun(complaint) => complaint
    case NotYet => []
  }

  lemma StartedIs(a: HostAnswer)
    requires !a.NotYet?
    ensures Started(a) == Flushing(StatusOf(a), OutOf(a), ErrOf(a), 0, 0)
  {
  }

  /** The answer the command gave, once it gave one. */
  function Replied(s: Session, i: nat, moves: seq<Move>): (r: Option<HostAnswer>)
    ensures r.Some? ==> !r.value.NotYet?
  {
    if |moves| == 0 then None
    else
      var before := moves[..|moves| - 1];
      var k := Run(s, before);
      var m := moves[|moves| - 1];
      if Replied(s, i, before).Some? then Replied(s, i, before)
      else if LastIsOwn(s, i, moves) && Handed(k, m.i, m.oracle).Some? && !m.oracle.answer.NotYet? then
        Some(m.oracle.answer)
      else None
  }

  /** What a turn comes to. */
  function Outcome(k: Session, i: nat, o: HostOracle): Option<HostStep> {
    if !(i < |k.procs| && k.procs[i].body.Host? && PhaseOk(k.procs[i].body.phase)) then None
    else
      var p := k.procs[i];
      match StepHost(k.sh, p.ctx.task, p.body.readsStdin, p.body.phase, o)
      case None => None
      case Some((step, _, _)) => Some(step)
  }

  /** All of the answer's output for descriptor 1 or 2 has been sent. */
  predicate SentWhole(s: Session, i: nat, moves: seq<Move>, fd: int) {
    && Replied(s, i, moves).Some?
    && var a := Replied(s, i, moves).value; OwnSent(s, i, moves, fd) == if fd == 1 then OutOf(a) else ErrOf(a)
  }

  /** The same process, at whatever it has come to. */
  ghost predicate Himself(p: Proc, q: Proc) {
    p.body.Host? && q.body.Host? && PhaseOk(q.body.phase) && q == p.(body := p.body.(phase := q.body.phase))
  }

  /** How far a host command is: still reading, with nothing sent; or with an answer of which the
      cursors tell how much was sent. */
  ghost predicate Progress(ph: Phase, replied: Option<HostAnswer>, out: seq<byte>, err: seq<byte>) {
    match replied
    case None => ph.Reading? && out == [] && err == []
    case Some(a) =>
      && !a.NotYet? && out <= OutOf(a) && err <= ErrOf(a)
      && ph == Flushing(StatusOf(a), OutOf(a), ErrOf(a), |out|, |err|)
  }

  /** What is on record of a process that has gone. */
  ghost predicate Recorded(replied: Option<HostAnswer>, out: seq<byte>, err: seq<byte>) {
    match replied
    case None => out == [] && err == []
    case Some(a) => !a.NotYet? && out <= OutOf(a) && err <= ErrOf(a)
  }

  /** A turn of its own: where it stands afterwards, and how far it has come. */
  lemma OwnStep(k: Session, m: Move, replied: Option<HostAnswer>, out: seq<byte>, err: seq<byte>)
    requires m.HostMove? && OwnTurn(k, m, m.i) && HostAt(k, m.i)
    requires Progress(k.procs[m.i].body.phase, replied, out, err)
    ensures
      var p := k.procs[m.i];
      var now := if replied.None? && Handed(k, m.i, m.oracle).Some? && !m.oracle.answer.NotYet?
                 then Some(m.oracle.answer) else replied;
      var out', err' := out + SentBy(k, m, 1), err + SentBy(k, m, 2);
      var r := StepHost(k.sh, p.ctx.task, p.body.readsStdin, p.body.phase, m.oracle).value;
      && Recorded(now, out', err') && Progress(r.1, now, out', err')
      && (Place(k, m, m.i).Some? <==> r.0.Stuck?)
      && (r.0.Stuck? ==>
            && Place(k, m, m.i) == Some(m.i)
            && Step(k, m) == k.(sh := r.2, procs := k.procs[m.i := p.(body := p.body.(phase := r.1))]))
      && (r.0.EndedWith? ==>
            && now.Some? && r.0.status == StatusOf(now.value)
            && (out' == OutOf(now.value) <==> !RefusedBy(k, m, 1))
            && (err' == ErrOf(now.value) <==> !RefusedBy(k, m, 2)))
  {
    hide StepHost, Drawn, ToFlush, TurnSent, TurnRefused, ReachesErr, FinishProcess, Started, StatusOf, OutOf, ErrOf;
    var p := k.procs[m.i];
    var t, ph := p.ctx.task, p.body.phase;
    if !m.oracle.answer.NotYet? {
      StartedIs(m.oracle.answer);
    }
    TurnParts(k.sh, t, p.body.readsStdin, ph, m.oracle);
    ToFlushWhen(k.sh, t, p.body.readsStdin, ph, m.oracle);
    var r := StepHost(k.sh, t, p.body.readsStdin, ph, m.oracle).value;
    if r.0.EndedWith? {
      FinishPlaces(k.(sh := r.2, procs := k.procs[m.i := p.(body := p.body.(phase := r.1))]), m.i, r.0.status, m.i);
    }
  }

  lemma ToFlushWhen(sh: Shared, t: Task, readsStdin: bool, ph: Phase, o: HostOracle)
    requires PhaseOk(ph)
    ensures var f := ToFlush(sh, t, readsStdin, ph, o);
      && (ph.Flushing? ==> f == Some(ph))
      && (ph.Reading? ==>
            f == if Drawn(sh, t, readsStdin, ph, o).0.Done? && !o.answer.NotYet? then Some(Started(o.answer)) else None)
      && (f.None? ==> TurnSent(sh, t, readsStdin, ph, o, 1) == [] && TurnSent(sh, t, readsStdin, ph, o, 2) == [])
  {
    hide DrainStdin;
  }

  /** On any run after a host command has started, as long as it is there it is itself, and what its
      own turns sent is a prefix, for each of its outputs, of what it answered, which its cursors
      measure; nothing was sent before it answered. */
  lemma {:induction false} HostStays(u: Setup, path: seq<Move>, i: nat, moves: seq<Move>)
    requires Begun(u, path, i)
    ensures var s := Birth(u, path); var k := Run(s, moves);
      var replied, out, err := Replied(s, i, moves), OwnSent(s, i, moves, 1), OwnSent(s, i, moves, 2);
      && Recorded(replied, out, err)
      && match Where(s, i, moves)
         case None => true
         case Some(j) =>
           HostAt(k, j) && Himself(s.procs[i], k.procs[j]) && Progress(k.procs[j].body.phase, replied, out, err)
  {
    hide Begin, Step, Place, OwnTurn, Handed, SentBy, RefusedBy, Himself, Progress, Recorded;
    var s := Birth(u, path);
    if |moves| == 0 {
      StartsHimself(s, i);
    } else {
      var before, m := moves[..|moves| - 1], moves[|moves| - 1];
      HostStays(u, path, i, before);
      var k := Run(s, before);
      if Where(s, i, before).Some? {
        var j := Where(s, i, before).value;
        HostStep(s.procs[i], k, m, j, Replied(s, i, before), OwnSent(s, i, before, 1), OwnSent(s, i, before, 2));
        OwnMover(k, m, j);
      }
      assert OwnSent(s, i, before, 1) + [] == OwnSent(s, i, before, 1);
      assert OwnSent(s, i, before, 2) + [] == OwnSent(s, i, before, 2);
    }
  }

  lemma OwnMover(k: Session, m: Move, j: nat)
    ensures OwnTurn(k, m, j) ==> m.HostMove? && m.i == j
  {
  }

  lemma StartsHimself(s: Session, i: nat)
    requires HostAt(s, i) && s.procs[i].body.phase == Reading([])
    ensures Himself(s.procs[i], s.procs[i]) && Progress(s.procs[i].body.phase, None, [], []) && Recorded(None, [], [])
  {
  }

  /** One move, own or not. */
  lemma HostStep(p: Proc, k: Session, m: Move, j: nat, replied: Option<HostAnswer>, out: seq<byte>, err: seq<byte>)
    requires HostAt(k, j) && Himself(p, k.procs[j]) && Progress(k.procs[j].body.phase, replied, out, err)
    ensures
      var own := OwnTurn(k, m, j);
      var now := if own && replied.None? && Handed(k, j, m.oracle).Some? && !m.oracle.answer.NotYet?
                 then Some(m.oracle.answer) else replied;
      var out', err' := if own then out + SentBy(k, m, 1) else out, if own then err + SentBy(k, m, 2) else err;
      && Recorded(now, out', err')
      && match Place(k, m, j)
         case None => true
         case Some(n) =>
           && HostAt(Step(k, m), n) && Himself(p, Step(k, m).procs[n])
           && Progress(Step(k, m).procs[n].body.phase, now, out', err')
  {
    if OwnTurn(k, m, j) {
      hide StepHost, Place, Handed, SentBy, RefusedBy;
      var q := k.procs[j];
      HostFrame(k.sh, q.ctx.task, q.body.readsStdin, q.body.phase, m.oracle);
      OwnStep(k, m, replied, out, err);
    } else if m.HostMove? && m.i == j {
      hide StepHost;
      assert Step(k, m) == k;
    } else {
      hide Step, Place;
      OthersLeaveIt(k, m, j);
    }
  }

  // ----- what its descriptors are --------------------------------------------------------

  lemma {:induction false} TamePrefix(u: Setup, a: seq<Move>, b: seq<Move>)
    requires Begin(u).Some? && Tame(u, a + b)
    ensures Tame(u, a)
  {
    hide Begin, Run, SlotCount, Lost;
    if |b| == 0 {
      assert a + b == a;
    } else {
      assert (a + b)[..|a + b| - 1] == a + b[..|b| - 1];
      TamePrefix(u, a, b[..|b| - 1]);
    }
  }

  lemma SlotHeld(k: Session, j: nat, fd: int)
    requires j < |k.procs| && IsOpen(k.procs[j].ctx.task.fds, fd)
    ensures SlotCount(k, k.procs[j].ctx.task.fds[fd].value.desc) > 0
  {
    hide Sum, Count;
    var key := k.procs[j].ctx.task.fds[fd].value.desc;
    CountOpen(k.procs[j].ctx.task.fds, fd);
    SumMember(k.procs, j, ProcSlots(key));
  }

  /** In every state of a run a table's open descriptor names a live description, and if that is a
      pipe end its pipe is live. */
  lemma DescriptorIsLive(u: Setup, moves: seq<Move>, j: nat, fd: int)
    requires Begin(u).Some? && Tame(u, moves)
    requires var k := Run(Begin(u).value, moves); j < |k.procs| && IsOpen(k.procs[j].ctx.task.fds, fd)
    ensures var k := Run(Begin(u).value, moves); var key := k.procs[j].ctx.task.fds[fd].value.desc;
      && Live(k.sh.descs, key) && DescsOk(k.sh.descs)
      && (forall p: nat ::
            PipesOk(k.sh, p, LostReaders(Begin(u).value, moves, p), LostWriters(Begin(u).value, moves, p)))
      && match At(k.sh.descs, key).value.kind
         case PipeRead(p) => Live(k.sh.pipes, p)
         case PipeWrite(p) => Live(k.sh.pipes, p)
         case Other(_) => true
  {
    hide Begin, Run, PipesOk, DescsOk, SlotCount;
    var k := Run(Begin(u).value, moves);
    var key := k.procs[j].ctx.task.fds[fd].value.desc;
    SlotHeld(k, j, fd);
    SlotsAreLive(u, moves, key);
    RunBooks(u, moves);
    assert Accounted(k, key, Lost(u, moves, key));
  }

  /** What a host command's descriptor names stays what it was when the command started, whatever
      the processes that share it do. */
  lemma {:induction false} DescriptorStays(u: Setup, path: seq<Move>, i: nat, moves: seq<Move>, fd: int)
    requires Begun(u, path, i) && Tame(u, path + moves)
    requires var s := Birth(u, path); IsOpen(s.procs[i].ctx.task.fds, fd) && Where(s, i, moves).Some?
    ensures var s := Birth(u, path); var k := Run(s, moves);
      var key := s.procs[i].ctx.task.fds[fd].value.desc;
      && Live(s.sh.descs, key) && Live(k.sh.descs, key) && DescsOk(k.sh.descs)
      && Akin(At(s.sh.descs, key).value, At(k.sh.descs, key).value)
      && match At(k.sh.descs, key).value.kind
         case PipeRead(p) => Live(k.sh.pipes, p)
         case PipeWrite(p) => Live(k.sh.pipes, p)
         case Other(_) => true
  {
    hide Begin, Step, Place, PipesOk, DescsOk, Replied, OwnSent, Progress, Recorded;
    var s := Birth(u, path);
    HostStays(u, path, i, moves);
    RunConcat(Begin(u).value, path, moves);
    DescriptorIsLive(u, path + moves, Where(s, i, moves).value, fd);
    if |moves| == 0 {
      assert path + moves == path;
    } else {
      var before, m := moves[..|moves| - 1], moves[|moves| - 1];
      assert path + moves == path + before + [m];
      TamePrefix(u, path + before, [m]);
      DescriptorStays(u, path, i, before, fd);
      assert Sound(Run(s, before).sh.descs) by { SoundDescs(Run(s, before).sh.descs); }
      StepKeeps(Run(s, before), m, s.procs[i].ctx.task.fds[fd].value.desc);
    }
  }

  lemma SoundDescs(descs: SlabState<Desc>)
    requires DescsOk(descs)
    ensures Sound(descs)
  {
  }

  // ----- what it is handed ---------------------------------------------------------------

  /** One turn's reading: what is drawn is what had been, and what this turn's reads returned. */
  lemma TurnReads(sh: Shared, t: Task, readsStdin: bool, ph: Phase, o: HostOracle, p: nat)
    requires ph.Reading? && (readsStdin ==> ReadsPipe(sh, t, 0, p))
    ensures var (drain, all, after) := Drawn(sh, t, readsStdin, ph, o);
      && all == ph.buffer + ReturnedIn(TurnEvents(sh, t, readsStdin, ph, o, 0))
      && (readsStdin ==>
            && (EndOfFile(p) in TurnEvents(sh, t, readsStdin, ph, o, 0) <==> drain.Done? && WillEnd(sh, t, p))
            && (drain.Done? && WillEnd(sh, t, p) ==> EofSeen(after.log, p)))
  {
    hide DrainStdin, ReadsPipe;
    NothingIn();
    NewOne(sh.log, EndOfFile(p));
    if readsStdin {
      DrainReads(sh, t, ph.buffer, o.ins, p);
    }
  }

  /** The buffer of a command still reading is, byte for byte, what the reads of its own turns
      returned, however many of them stopped short. */
  lemma {:induction false} HostReads(u: Setup, path: seq<Move>, i: nat, moves: seq<Move>, p: nat)
    requires Begun(u, path, i) && Tame(u, path + moves)
    requires Piped(Birth(u, path), i, p)
    ensures var s := Birth(u, path);
      match Where(s, i, moves)
      case None => true
      case Some(j) =>
        var k := Run(s, moves);
        && HostAt(k, j) && Himself(s.procs[i], k.procs[j])
        && (s.procs[i].body.readsStdin ==> ReadsPipe(k.sh, s.procs[i].ctx.task, 0, p))
        && (k.procs[j].body.phase.Reading? ==>
              k.procs[j].body.phase.buffer == ReturnedIn(OwnEvents(s, i, moves, 0)))
  {
    hide Begin, Step, Place, Replied, OwnSent, Progress, Recorded, ReadsPipe, Akin, OwnTurn, TurnEvents;
    var s := Birth(u, path);
    HostStays(u, path, i, moves);
    if Where(s, i, moves).Some? {
      if s.procs[i].body.readsStdin {
        OpenZero(s.sh, s.procs[i].ctx.task, p);
        DescriptorStays(u, path, i, moves, 0);
        PipeStays(s.sh, Run(s, moves).sh, s.procs[i].ctx.task, p);
      }
      if |moves| == 0 {
        NothingIn();
      } else {
        var before, m := moves[..|moves| - 1], moves[|moves| - 1];
        assert path + moves == path + before + [m];
        TamePrefix(u, path + before, [m]);
        HostReads(u, path, i, before, p);
        HostStays(u, path, i, before);
        StepReads(Run(s, before), m, Where(s, i, before).value, p, OwnEvents(s, i, before, 0));
        OwnMover(Run(s, before), m, Where(s, i, before).value);
        assert OwnEvents(s, i, before, 0) + [] == OwnEvents(s, i, before, 0);
      }
    }
  }

  lemma OpenZero(sh: Shared, t: Task, p: nat)
    requires ReadsPipe(sh, t, 0, p)
    ensures IsOpen(t.fds, 0)
  {
  }

  lemma PipeStays(sh: Shared, after: Shared, t: Task, p: nat)
    requires ReadsPipe(sh, t, 0, p)
    requires var key := t.fds[0].value.desc;
      && Live(sh.descs, key) && Live(after.descs, key) && Akin(At(sh.descs, key).value, At(after.descs, key).value)
      && (At(after.descs, key).value.kind.PipeRead? ==> Live(after.pipes, At(after.descs, key).value.kind.pipe))
    ensures ReadsPipe(after, t, 0, p)
  {
  }

  /** One move, as far as the buffer goes. */
  lemma StepReads(k: Session, m: Move, j: nat, p: nat, events: seq<Event>)
    requires HostAt(k, j) && (k.procs[j].body.readsStdin ==> ReadsPipe(k.sh, k.procs[j].ctx.task, 0, p))
    requires k.procs[j].body.phase.Reading? ==> k.procs[j].body.phase.buffer == ReturnedIn(events)
    ensures match Place(k, m, j)
      case None => true
      case Some(n) =>
        n < |Step(k, m).procs| && Step(k, m).procs[n].body.Host? && (Step(k, m).procs[n].body.phase.Reading? ==>
          Step(k, m).procs[n].body.phase.buffer
          == ReturnedIn(events + if OwnTurn(k, m, j) then EventsOf(k, m, 0) else []))
  {
    hide Place, ReadsPipe, TurnEvents;
    assert events + [] == events;
    if OwnTurn(k, m, j) {
      hide StepHost, FinishProcess, Drawn, ToFlush, ReachesErr, TurnSent, TurnRefused;
      var q := k.procs[j];
      var r := StepHost(k.sh, q.ctx.task, q.body.readsStdin, q.body.phase, m.oracle).value;
      TurnParts(k.sh, q.ctx.task, q.body.readsStdin, q.body.phase, m.oracle);
      ToFlushWhen(k.sh, q.ctx.task, q.body.readsStdin, q.body.phase, m.oracle);
      if q.body.phase.Reading? {
        TurnReads(k.sh, q.ctx.task, q.body.readsStdin, q.body.phase, m.oracle, p);
        InConcat(events, EventsOf(k, m, 0));
      }
      OwnPlace(k, m);
    } else if m.HostMove? && m.i == j {
      hide StepHost;
      assert Step(k, m) == k;
      OwnPlaceIdle(k, m);
    } else {
      hide Step;
      OthersLeaveIt(k, m, j);
    }
  }

  lemma OwnPlace(k: Session, m: Move)
    requires m.HostMove? && OwnTurn(k, m, m.i)
    ensures var p := k.procs[m.i];
      var r := StepHost(k.sh, p.ctx.task, p.body.readsStdin, p.body.phase, m.oracle).value;
      && (Place(k, m, m.i).Some? <==> r.0.Stuck?)
      && (r.0.Stuck? ==>
            && Place(k, m, m.i) == Some(m.i)
            && Step(k, m) == k.(sh := r.2, procs := k.procs[m.i := p.(body := p.body.(phase := r.1))]))
  {
    hide StepHost, FinishProcess;
    var p := k.procs[m.i];
    var r := StepHost(k.sh, p.ctx.task, p.body.readsStdin, p.body.phase, m.oracle).value;
    if r.0.EndedWith? {
      FinishPlaces(k.(sh := r.2, procs := k.procs[m.i := p.(body := p.body.(phase := r.1))]), m.i, r.0.status, m.i);
    }
  }

  lemma OwnPlaceIdle(k: Session, m: Move)
    requires m.HostMove? && Step(k, m) == k
    ensures Place(k, m, m.i) == Some(m.i)
  {
  }

  /** A command is handed its own argument vector, environment and directory, and as standard input
      all that its own turns have read. The turn that hands it over has met the end of the pipe if and
      only if its end of the pipe waits or the pipe has no writers left. */
  lemma HandedIsAll(u: Setup, path: seq<Move>, i: nat, moves: seq<Move>, o: HostOracle, p: nat)
    requires Begun(u, path, i) && Tame(u, path + moves)
    requires var s := Birth(u, path);
      && Piped(s, i, p) && Where(s, i, moves).Some?
      && var j := Where(s, i, moves).value;
         Handed(Run(s, moves), j, o).Some? && Enabled(Run(s, moves), HostMove(j, o))
    ensures var s := Birth(u, path); var q := s.procs[i];
      var k := Run(s, moves); var j := Where(s, i, moves).value;
      && Handed(k, j, o) == Some(Invocation(q.body.argv, q.body.envp, q.ctx.task.cwd,
                                            ReturnedIn(OwnEvents(s, i, moves + [HostMove(j, o)], 0))))
      && (q.body.readsStdin ==>
            && (EndOfFile(p) in EventsOf(k, HostMove(j, o), 0) <==> WillEnd(k.sh, q.ctx.task, p))
            && (WillEnd(k.sh, q.ctx.task, p) ==> EofSeen(Step(k, HostMove(j, o)).sh.log, p)))
  {
    hide Begin, Step, Place, Run, Replied, OwnSent, Progress, Recorded, ReadsPipe, Handed, OwnTurn, EventsOf;
    var s := Birth(u, path);
    HostReads(u, path, i, moves, p);
    var k, j := Run(s, moves), Where(s, i, moves).value;
    var m := HostMove(j, o);
    assert (moves + [m])[..|moves + [m]| - 1] == moves;
    HandedIsTurn(k, j, o);
    TurnHands(k, j, o, p, OwnEvents(s, i, moves, 0));
  }

  /** What one turn hands the command, given what the turns before it read. */
  lemma TurnHands(k: Session, j: nat, o: HostOracle, p: nat, events: seq<Event>)
    requires Handed(k, j, o).Some? && OwnTurn(k, HostMove(j, o), j)
    requires k.procs[j].body.readsStdin ==> ReadsPipe(k.sh, k.procs[j].ctx.task, 0, p)
    requires k.procs[j].body.phase.buffer == ReturnedIn(events)
    ensures var q := k.procs[j]; var m := HostMove(j, o);
      && Handed(k, j, o) == Some(Invocation(q.body.argv, q.body.envp, q.ctx.task.cwd,
                                            ReturnedIn(events + EventsOf(k, m, 0))))
      && (q.body.readsStdin ==>
            && (EndOfFile(p) in EventsOf(k, m, 0) <==> WillEnd(k.sh, q.ctx.task, p))
            && (WillEnd(k.sh, q.ctx.task, p) ==> EofSeen(Step(k, m).sh.log, p)))
  {
    hide Step, TurnEvents, EofSeen, DrainStdin, StepHost, WillEnd;
    var q := k.procs[j];
    TurnReads(k.sh, q.ctx.task, q.body.readsStdin, q.body.phase, o, p);
    InConcat(events, EventsOf(k, HostMove(j, o), 0));
    if q.body.readsStdin && WillEnd(k.sh, q.ctx.task, p) {
      DrawnStays(k, j, o, p);
    }
  }

  lemma HandedIsTurn(k: Session, j: nat, o: HostOracle)
    requires Handed(k, j, o).Some? && Enabled(k, HostMove(j, o))
    ensures OwnTurn(k, HostMove(j, o), j) && k.procs[j].body.phase.Reading?
  {
    hide DrainStdin, FlushBoth;
  }

  /** An end of file met while draining is on record when the turn is over. */
  lemma DrawnStays(k: Session, j: nat, o: HostOracle, p: nat)
    requires OwnTurn(k, HostMove(j, o), j)
    requires var q := k.procs[j]; EofSeen(Drawn(k.sh, q.ctx.task, q.body.readsStdin, q.body.phase, o).2.log, p)
    ensures EofSeen(Step(k, HostMove(j, o)).sh.log, p)
  {
    hide DrainStdin, FlushTo, FinishProcess, Adds, EofSeen;
    var q := k.procs[j];
    var t, ph := q.ctx.task, q.body.phase;
    var drawn := Drawn(k.sh, t, q.body.readsStdin, ph, o).2;
    var r := StepHost(k.sh, t, q.body.readsStdin, ph, o).value;
    AddsOne(drawn.log, EndOfFile(p), p);
    var f := ToFlush(k.sh, t, q.body.readsStdin, ph, o);
    if f.Some? {
      BothAdd(drawn, t, f.value, o.outs, o.errs, p);
    }
    EofStays(drawn.log, r.2.log, p);
    if r.0.EndedWith? {
      FinishQuiet(k.(sh := r.2, procs := k.procs[j := q.(body := q.body.(phase := r.1))]), j, r.0.status, p);
    }
  }

  // ----- the same at every retry ---------------------------------------------------------

  /** With the end of its pipe on record a command that is still reading has what it will be handed. */
  lemma {:induction false} InputSettles(u: Setup, path: seq<Move>, i: nat, moves: seq<Move>, more: seq<Move>, p: nat)
    requires Begun(u, path, i) && Tame(u, path + moves + more)
    requires var s := Birth(u, path);
      && s.procs[i].body.readsStdin && Piped(s, i, p) && Where(s, i, moves).Some? && EofSeen(Run(s, moves).sh.log, p)
    ensures var s := Birth(u, path); var k := Run(s, moves); var j := Where(s, i, moves).value;
      HostAt(k, j) &&
      match Where(s, i, moves + more)
      case None => true
      case Some(n) =>
        var e := Run(s, moves + more);
        && HostAt(e, n) && Himself(s.procs[i], e.procs[n]) && ReadsPipe(e.sh, s.procs[i].ctx.task, 0, p)
        && AtEnd(e.sh, p) && EofSeen(e.sh.log, p)
        && (e.procs[n].body.phase.Reading? ==> e.procs[n].body.phase == k.procs[j].body.phase)
  {
    hide Begin, Step, Place, Run, Where, OwnSent, OwnEvents, Replied, Progress, Recorded, ReadsPipe, AtEnd, EofSeen;
    var s := Birth(u, path);
    var all := moves + more;
    assert path + moves + more == path + all;
    TamePrefix(u, path + moves, more);
    HostReads(u, path, i, moves, p);
    HostReads(u, path, i, all, p);
    if |more| == 0 {
      assert all == moves;
    } else {
      var before, m := more[..|more| - 1], more[|more| - 1];
      assert all == moves + before + [m];
      assert path + moves + more == path + moves + before + [m];
      TamePrefix(u, path + moves + before, [m]);
      InputSettles(u, path, i, moves, before, p);
      RunMore(s, moves + before, m);
      WhereMore(s, i, moves + before, m);
      RunConcat(Begin(u).value, path, moves + before);
      assert path + (moves + before) == path + moves + before;
      if Where(s, i, moves + before).Some? {
        OneStepSettled(u, path + moves + before, m, Where(s, i, moves + before).value, p);
      }
    }
    RunConcat(Begin(u).value, path, all);
    if Where(s, i, all).Some? {
      EndIsReached(u, path + all, p, s.procs[i].ctx.task);
    }
  }

  lemma WhereMore(s: Session, i: nat, moves: seq<Move>, m: Move)
    ensures Where(s, i, moves + [m])
         == (match Where(s, i, moves) case None => None case Some(j) => Place(Run(s, moves), m, j))
  {
    assert (moves + [m])[..|moves + [m]| - 1] == moves;
  }

  /** One move of a run, once end of file has been reported. */
  lemma OneStepSettled(u: Setup, moves: seq<Move>, m: Move, j: nat, p: nat)
    requires Begin(u).Some?
    requires var k := Run(Begin(u).value, moves);
      && HostAt(k, j) && k.procs[j].body.readsStdin && ReadsPipe(k.sh, k.procs[j].ctx.task, 0, p)
      && AtEnd(k.sh, p) && EofSeen(k.sh.log, p)
    ensures var k := Run(Begin(u).value, moves); var after := Step(k, m);
      && EofSeen(after.sh.log, p)
      && match Place(k, m, j)
         case None => true
         case Some(n) =>
           n < |after.procs| && after.procs[n].body.Host?
           && (after.procs[n].body.phase.Reading? ==> after.procs[n].body.phase == k.procs[j].body.phase)
  {
    hide Begin, Run, Place, EofSeen, ReadsPipe, AtEnd, PipesOk, Orderly, FifoOk;
    var k := Run(Begin(u).value, moves);
    RunFifo(u, moves, p);
    EndIsLive(k.sh, p, LostReaders(Begin(u).value, moves, p), LostWriters(Begin(u).value, moves, p));
    StepAdds(k, m, p);
    EofStays(k.sh.log, Step(k, m).sh.log, p);
    if OwnTurn(k, m, j) {
      hide StepHost, DrainStdin, FinishProcess, ReachesErr, TurnSent, TurnRefused;
      var q := k.procs[j];
      OwnPlace(k, m);
      TurnParts(k.sh, q.ctx.task, q.body.readsStdin, q.body.phase, m.oracle);
      if q.body.phase.Reading? {
        DrainAtEnd(k.sh, q.ctx.task, q.body.phase.buffer, m.oracle.ins, p);
      }
    } else if m.HostMove? && m.i == j {
      hide StepHost;
      assert Step(k, m) == k;
      OwnPlaceIdle(k, m);
    } else {
      hide Step;
      OthersLeaveIt(k, m, j);
    }
  }

  lemma EndIsLive(sh: Shared, p: nat, lostR: nat, lostW: nat)
    requires PipesOk(sh, p, lostR, lostW) && AtEnd(sh, p)
    ensures Sound(sh.pipes) && Live(sh.pipes, p)
  {
  }

  lemma EndIsReached(u: Setup, moves: seq<Move>, p: nat, t: Task)
    requires Begin(u).Some?
    requires var k := Run(Begin(u).value, moves); EofSeen(k.sh.log, p) && ReadsPipe(k.sh, t, 0, p)
    ensures AtEnd(Run(Begin(u).value, moves).sh, p)
  {
    hide Begin, Run, EofSeen, Written, Seen, Orderly, PipesOk;
    RunFifo(u, moves, p);
  }

  /** A command run at the end of its pipe, which its end of the pipe waited for or found without
      writers, and told to come back is handed, at every later retry, the identical invocation, however
      often that happens and whatever goes on in between. */
  lemma SameInvocation(u: Setup, path: seq<Move>, i: nat, moves: seq<Move>, o: HostOracle, more: seq<Move>,
                       again: HostOracle, p: nat)
    requires Begun(u, path, i)
    requires var s := Birth(u, path);
      && s.procs[i].body.readsStdin && Piped(s, i, p) && Where(s, i, moves).Some?
      && var k := Run(s, moves); var j := Where(s, i, moves).value;
         && Enabled(k, HostMove(j, o)) && Handed(k, j, o).Some? && o.answer.NotYet?
         && WillEnd(k.sh, s.procs[i].ctx.task, p)
         && Tame(u, path + (moves + [HostMove(j, o)]) + more)
         && Where(s, i, moves + [HostMove(j, o)] + more).Some?
    ensures var s := Birth(u, path); var k := Run(s, moves); var j := Where(s, i, moves).value;
      var e := Run(s, moves + [HostMove(j, o)] + more); var n := Where(s, i, moves + [HostMove(j, o)] + more).value;
      && HostAt(e, n)
      && (e.procs[n].body.phase.Reading? ==> e.procs[n].body.phase.buffer == Handed(k, j, o).value.stdin)
      && (Handed(e, n, again).Some? ==> Handed(e, n, again) == Handed(k, j, o))
  {
    hide Begin, Step, Place, Run, Replied, OwnSent, OwnEvents, Progress, Recorded, ReadsPipe, AtEnd, EofSeen, Handed,
      OwnTurn;
    var s := Birth(u, path);
    var k, j := Run(s, moves), Where(s, i, moves).value;
    var m := HostMove(j, o);
    var now := moves + [m];
    assert now[..|now| - 1] == moves;
    TamePrefix(u, path + now, more);
    assert path + now == path + moves + [m];
    TamePrefix(u, path + moves, [m]);
    HandedIsAll(u, path, i, moves, o, p);
    HostReads(u, path, i, moves, p);
    HandedIsTurn(k, j, o);
    StaysPut(k, j, o);
    RunMore(s, moves, m);
    InputSettles(u, path, i, now, more, p);
    HandedAgain(Run(s, now + more), Where(s, i, now + more).value, again, p);
    HandedWho(k, j, o);
  }

  lemma RunMore(s: Session, moves: seq<Move>, m: Move)
    ensures Run(s, moves + [m]) == Step(Run(s, moves), m)
  {
    assert (moves + [m])[..|moves + [m]| - 1] == moves;
  }

  lemma HandedWho(k: Session, j: nat, o: HostOracle)
    requires Handed(k, j, o).Some?
    ensures var q := k.procs[j];
      Handed(k, j, o) == Some(Invocation(q.body.argv, q.body.envp, q.ctx.task.cwd, Handed(k, j, o).value.stdin))
  {
    hide DrainStdin;
  }

  /** At the end of its pipe a command is handed just what it had drawn before. */
  lemma HandedAgain(k: Session, j: nat, o: HostOracle, p: nat)
    requires HostAt(k, j) && k.procs[j].body.readsStdin && ReadsPipe(k.sh, k.procs[j].ctx.task, 0, p) && AtEnd(k.sh, p)
    ensures var q := k.procs[j];
      Handed(k, j, o).Some? ==>
        && q.body.phase.Reading?
        && Handed(k, j, o) == Some(Invocation(q.body.argv, q.body.envp, q.ctx.task.cwd, q.body.phase.buffer))
  {
    hide DrainStdin, ReadsPipe, AtEnd;
    var q := k.procs[j];
    if q.body.phase.Reading? {
      DrainAtEnd(k.sh, q.ctx.task, q.body.phase.buffer, o.ins, p);
    }
  }

  /** A turn whose command must be run again leaves it reading, with what it was handed. */
  lemma StaysPut(k: Session, j: nat, o: HostOracle)
    requires OwnTurn(k, HostMove(j, o), j) && Handed(k, j, o).Some? && o.answer.NotYet?
    ensures var m := HostMove(j, o);
      Place(k, m, j) == Some(j) && j < |Step(k, m).procs| && Step(k, m).procs[j].body.Host?
      && Step(k, m).procs[j].body.phase == Reading(Handed(k, j, o).value.stdin)
  {
    hide StepHost, DrainStdin, FinishProcess;
    var q := k.procs[j];
    OwnPlace(k, HostMove(j, o));
    TurnParts(k.sh, q.ctx.task, q.body.readsStdin, q.body.phase, o);
  }

  // ----- what it writes ------------------------------------------------------------------

  /** The turn that ends a command: its status is that of the answer, and each output has been sent
      whole exactly if no write of it failed in that turn. */
  lemma HostEnds(u: Setup, path: seq<Move>, i: nat, moves: seq<Move>, o: HostOracle)
    requires Begun(u, path, i)
    requires var s := Birth(u, path);
      && Where(s, i, moves).Some?
      && var j := Where(s, i, moves).value;
         OwnTurn(Run(s, moves), HostMove(j, o), j) && Where(s, i, moves + [HostMove(j, o)]).None?
    ensures var s := Birth(u, path); var k := Run(s, moves); var j := Where(s, i, moves).value;
      var m := HostMove(j, o); var all := moves + [m];
      && Replied(s, i, all).Some? && Outcome(k, j, o) == Some(EndedWith(StatusOf(Replied(s, i, all).value)))
      && (SentWhole(s, i, all, 1) <==> !RefusedBy(k, m, 1))
      && (SentWhole(s, i, all, 2) <==> !RefusedBy(k, m, 2))
  {
    hide Begin, Step, Place, StepHost, Handed, SentBy, RefusedBy, Himself, Progress, Recorded;
    var s := Birth(u, path);
    HostStays(u, path, i, moves);
    var k, j := Run(s, moves), Where(s, i, moves).value;
    var m := HostMove(j, o);
    assert (moves + [m])[..|moves + [m]| - 1] == moves;
    OwnStep(k, m, Replied(s, i, moves), OwnSent(s, i, moves, 1), OwnSent(s, i, moves, 2));
  }

  /** Once a command has answered it is never run again. */
  lemma AnsweredOnce(u: Setup, path: seq<Move>, i: nat, moves: seq<Move>, o: HostOracle)
    requires Begun(u, path, i)
    requires var s := Birth(u, path); Where(s, i, moves).Some? && Replied(s, i, moves).Some?
    ensures var s := Birth(u, path); Handed(Run(s, moves), Where(s, i, moves).value, o).None?
  {
    hide Begin, Run, Where, Replied, OwnSent;
    HostStays(u, path, i, moves);
  }

  /** Reading standard input leaves a pipe end on another descriptor what it is. */
  lemma DrawnHolds(sh: Shared, t: Task, readsStdin: bool, ph: Phase, o: HostOracle, fd: int, p: nat, lostR: nat,
                   lostW: nat)
    requires WritesPipe(sh, t, fd, p) && PipesOk(sh, p, lostR, lostW)
    ensures var after := Drawn(sh, t, readsStdin, ph, o).2;
      WritesPipe(after, t, fd, p) && PipesOk(after, p, lostR, lostW)
  {
    if ph.Reading? && readsStdin {
      hide DrainStdin, PipeOk;
      var key := t.fds[fd].value.desc;
      DrainKeeps(sh, t, ph.buffer, o.ins, key, p, lostR, lostW);
      DrainWorn(sh, t, ph.buffer, o.ins, key);
      EndHasPipe(Drawn(sh, t, readsStdin, ph, o).2, key, p, lostR, lostW);
    }
  }

  lemma EndHasPipe(sh: Shared, key: nat, p: nat, lostR: nat, lostW: nat)
    requires PipesOk(sh, p, lostR, lostW) && Live(sh.descs, key) && At(sh.descs, key).value.kind == PipeWrite(p)
    ensures Live(sh.pipes, p)
  {
    EndCounted(sh.descs, key);
  }

  lemma FlushHolds(sh: Shared, t: Task, fd: int, p: nat, bytes: seq<byte>, done: nat, vfs: seq<Vfs>, lostR: nat,
                   lostW: nat)
    requires WritesPipe(sh, t, fd, p) && PipesOk(sh, p, lostR, lostW) && done <= |bytes|
    ensures WritesPipe(FlushTo(sh, t, 1, bytes, done, vfs, 0).2, t, fd, p)
  {
    hide FlushTo, PipeOk;
    FlushFrame(sh, t, 1, bytes, done, vfs, 0);
    FlushKeeps(sh, t, 1, bytes, done, vfs, 0, p, lostR, lostW);
    EndHasPipe(FlushTo(sh, t, 1, bytes, done, vfs, 0).2, t.fds[fd].value.desc, p, lostR, lostW);
  }

  /** What a turn has left to write on descriptor 1 or 2 when it comes to it. */
  function LeftFor(sh: Shared, t: Task, readsStdin: bool, ph: Phase, o: HostOracle, fd: int): nat
    requires PhaseOk(ph)
  {
    match ToFlush(sh, t, readsStdin, ph, o)
    case None => 0
    case Some(f) =>
      if fd == 1 then |f.out| - f.outDone
      else if fd == 2 && ReachesErr(sh, t, readsStdin, ph, o) then |f.err| - f.errDone
      else 0
  }

  /** There is something left to write, and nobody to read the pipe, or more left than it has room
      for and a descriptor that does not wait. */
  ghost predicate PipeRefuses(sh: Shared, t: Task, readsStdin: bool, ph: Phase, o: HostOracle, fd: int, p: nat)
    requires PhaseOk(ph)
  {
    var left := LeftFor(sh, t, readsStdin, ph, o, fd);
    && left > 0 && (fd == 2 ==> ReachesErr(sh, t, readsStdin, ph, o))
    && var b := Before(sh, t, readsStdin, ph, o, fd);
       && WritesPipe(b, t, fd, p)
       && (PipeAt(b, p).readers == 0 || (!WaitsOn(b, t, fd) && left > PipeAt(b, p).Room()))
  }

  /** A turn's writes into a pipe: the history records just what was sent, and one of them fails
      exactly if nobody reads the pipe, or it fills up and the descriptor does not wait. */
  lemma TurnPipes(sh: Shared, t: Task, readsStdin: bool, ph: Phase, o: HostOracle, fd: int, p: nat, lostR: nat,
                  lostW: nat)
    requires PhaseOk(ph) && (fd == 1 || fd == 2) && WritesPipe(sh, t, fd, p) && PipesOk(sh, p, lostR, lostW)
    ensures AcceptedIn(TurnEvents(sh, t, readsStdin, ph, o, fd)) == TurnSent(sh, t, readsStdin, ph, o, fd)
    ensures TurnRefused(sh, t, readsStdin, ph, o, fd) <==> PipeRefuses(sh, t, readsStdin, ph, o, fd, p)
  {
    hide Drawn, FlushTo, Sent, Refused, New, AcceptedIn, PipesOk, ReturnedIn;
    assert AcceptedIn([]) == [] by { NothingIn(); }
    match ToFlush(sh, t, readsStdin, ph, o)
    case None =>
    case Some(f) =>
      DrawnHolds(sh, t, readsStdin, ph, o, fd, p, lostR, lostW);
      var drawn := Drawn(sh, t, readsStdin, ph, o).2;
      if fd == 1 {
        PipeFlush(drawn, t, 1, f.out, f.outDone, o.outs, 0, p);
      } else {
        FlushHolds(drawn, t, 2, p, f.out, f.outDone, o.outs, lostR, lostW);
        PipeFlush(OutFlush(sh, t, readsStdin, ph, o).2, t, 2, f.err, f.errDone, o.errs, 0, p);
      }
  }

  /** Descriptor 1 or 2 of a host command, when it is a pipe: on any run the bytes that pipe took
      from it are exactly those its own turns sent. */
  lemma {:induction false} HostWrites(u: Setup, path: seq<Move>, i: nat, moves: seq<Move>, fd: int, p: nat)
    requires Begun(u, path, i) && Tame(u, path + moves) && (fd == 1 || fd == 2)
    requires var s := Birth(u, path); WritesPipe(s.sh, s.procs[i].ctx.task, fd, p)
    ensures var s := Birth(u, path); AcceptedIn(OwnEvents(s, i, moves, fd)) == OwnSent(s, i, moves, fd)
  {
    hide Begin, Step, Place, Run, EventsOf, SentBy, Replied, Progress, Recorded, WritesPipe, OwnTurn, AcceptedIn;
    assert AcceptedIn([]) == [] by { NothingIn(); }
    var s := Birth(u, path);
    if |moves| > 0 {
      var before, m := moves[..|moves| - 1], moves[|moves| - 1];
      assert path + moves == path + before + [m];
      TamePrefix(u, path + before, [m]);
      HostWrites(u, path, i, before, fd, p);
      assert OwnEvents(s, i, before, fd) + [] == OwnEvents(s, i, before, fd);
      assert OwnSent(s, i, before, fd) + [] == OwnSent(s, i, before, fd);
      if LastIsOwn(s, i, moves) {
        OwnMover(Run(s, before), m, Where(s, i, before).value);
        WritesNow(u, path, i, before, m, fd, p);
        InConcat(OwnEvents(s, i, before, fd), EventsOf(Run(s, before), m, fd));
      }
    }
  }

  /** One turn of a run, as far as one output goes that is a pipe. */
  lemma WritesNow(u: Setup, path: seq<Move>, i: nat, moves: seq<Move>, m: Move, fd: int, p: nat)
    requires Begun(u, path, i) && Tame(u, path + moves) && (fd == 1 || fd == 2)
    requires var s := Birth(u, path); WritesPipe(s.sh, s.procs[i].ctx.task, fd, p)
    requires var s := Birth(u, path);
      Where(s, i, moves).Some? && m.HostMove? && m.i == Where(s, i, moves).value && OwnTurn(Run(s, moves), m, m.i)
    ensures var k := Run(Birth(u, path), moves);
      var q := k.procs[m.i];
      && AcceptedIn(EventsOf(k, m, fd)) == SentBy(k, m, fd)
      && (RefusedBy(k, m, fd) <==>
            PipeRefuses(k.sh, q.ctx.task, q.body.readsStdin, q.body.phase, m.oracle, fd, p))
  {
    hide Begin, Run, Where, StepHost, TurnEvents, TurnSent, TurnRefused, PipeRefuses, PipesOk, OwnSent, Replied,
      Progress, AcceptedIn;
    var s := Birth(u, path);
    var k := Run(s, moves);
    HostStays(u, path, i, moves);
    DescriptorStays(u, path, i, moves, fd);
    RunConcat(Begin(u).value, path, moves);
    DescriptorIsLive(u, path + moves, m.i, fd);
    var q := k.procs[m.i];
    TurnPipes(k.sh, q.ctx.task, q.body.readsStdin, q.body.phase, m.oracle, fd, p,
              LostReaders(Begin(u).value, path + moves, p), LostWriters(Begin(u).value, path + moves, p));
  }

  // ----- every host command --------------------------------------------------------------

  /** The place from which the process at place `n` after a move has come. */
  function Source(k: Session, m: Move, n: nat): nat {
    if |Step(k, m).procs| < |k.procs| && Mover(m).Some? && Mover(m).value <= n then n + 1 else n
  }

  lemma ServeBody(k: Session, j: nat, call: Call, now: nat)
    requires j < |k.procs|
    ensures var procs := Serve(k, j, call, now).procs;
      |procs| <= |k.procs| && (|procs| == |k.procs| ==> procs[j].body == k.procs[j].body)
  {
    hide Dispatch, FinishProcess;
    var p := k.procs[j];
    var (a, after) := Dispatch(Cpu(k.sh, p.ctx, p.inst), call, now);
    if a.Exits? {
      var p' := p.(ctx := after.ctx, inst := after.inst, resume := Running);
      FinishPlaces(k.(sh := after.sh, procs := k.procs[j := p']), j, a.status, j);
    }
  }

  lemma FetchBody(k: Session, j: nat)
    requires j < |k.procs|
    ensures var procs := Fetch(k, j).procs;
      |procs| <= |k.procs| && (|procs| == |k.procs| ==> procs[j].body == k.procs[j].body)
  {
    hide NextSignal, FinishProcess, WithRecord;
    var p := k.procs[j];
    var pid := p.ctx.task.pid;
    var (d, left, t) := NextSignal(Pending(k.sh, pid), p.ctx.task);
    var r := Find(k.sh.table, pid);
    var sh := if r.Some? then k.sh.(table := WithRecord(k.sh.table, pid, r.value.(pending := left))) else k.sh;
    var exec := if d.NoSignal? && p.ctx.exec.hasFlag then p.ctx.exec.(flag := false) else p.ctx.exec;
    if d.Fatal? {
      FinishPlaces(k.(sh := sh, procs := k.procs[j := p.(ctx := p.ctx.(task := t, exec := exec))]), j, d.status, j);
    }
  }

  lemma StartBody(k: Session, spawn: Spawn, launch: Launch)
    ensures var (after, ok) := Start(k, spawn, launch);
      && |after.procs| == |k.procs| + Unit(ok)
      && (ok ==> var p := after.procs[|k.procs|]; p.body.Host? ==> p.body.phase == Reading([]))
  {
    hide ReleaseFds, Charged;
  }

  lemma ReplaceBody(k: Session, j: nat, launch: Launch)
    requires j < |k.procs| && k.procs[j].ctx.execRequest.Some?
    ensures var procs := ReplaceInstance(k, j, launch).procs;
      && |procs| <= |k.procs|
      && (|procs| == |k.procs| && procs[j].body.Host? ==> procs[j].body.phase == Reading([]))
  {
    hide Start, ExitTable;
    var p := k.procs[j];
    var freed := k.(procs := Dropped(k.procs, j), sh := Uncharged(k.sh, AddU64(p.charged, p.ctx.exec.grown)));
    StartBody(freed, p.ctx.execRequest.value, launch);
  }

  lemma StartNextBody(k: Session, launch: Launch)
    requires |k.sh.spawn| > 0
    ensures var procs := StartNext(k, launch).procs;
      && |k.procs| <= |procs| <= |k.procs| + 1
      && (|procs| > |k.procs| && procs[|k.procs|].body.Host? ==> procs[|k.procs|].body.phase == Reading([]))
  {
    hide Start, ExitTable;
    StartBody(k.(sh := k.sh.(spawn := k.sh.spawn[1..])), k.sh.spawn[0], launch);
  }

  lemma HostShrinks(k: Session, j: nat, o: HostOracle)
    requires j < |k.procs| && k.procs[j].body.Host? && PhaseOk(k.procs[j].body.phase)
    ensures |HostTurn(k, j, o).procs| <= |k.procs|
  {
    hide StepHost, FinishProcess;
    var p := k.procs[j];
    match StepHost(k.sh, p.ctx.task, p.body.readsStdin, p.body.phase, o)
    case None =>
    case Some((step, phase, sh)) =>
      if step.EndedWith? {
        FinishPlaces(k.(sh := sh, procs := k.procs[j := p.(body := p.body.(phase := phase))]), j, step.status, j);
      }
  }

  /** The move started the process that stands at place `n` after it. */
  predicate Newborn(k: Session, m: Move, n: nat) {
    Enabled(k, m) &&
    match m
    case StartSpawn(_) => n == |k.procs| < |Step(k, m).procs|
    case Replace(j, _) => n == j && |Step(k, m).procs| == |k.procs|
    case _ => false
  }

  /** A host command in the list after a move has just been started by it, or was in the list before. */
  lemma Origin(k: Session, m: Move, n: nat)
    requires Orderly(k) && HostAt(Step(k, m), n)
    ensures
      if Newborn(k, m, n) then Step(k, m).procs[n].body.phase == Reading([])
      else HostAt(k, Source(k, m, n)) && Place(k, m, Source(k, m, n)) == Some(n)
  {
    hide Serve, FinishProcess, ReplaceInstance, StartNext, Fetch, HostTurn, KillAll, Orderly, PhaseOk;
    var i := Source(k, m, n);
    if Enabled(k, m) {
      match m
      case Syscall(j, call, now) =>
        ServeBody(k, j, call, now);
        if i != j { ServePlaces(k, j, call, now, i); }
      case Retry(j, call, now) =>
        ServeBody(k, j, call, now);
        if i != j { ServePlaces(k, j, call, now, i); }
      case Replace(j, launch) =>
        ReplaceBody(k, j, launch);
        if i != j { ReplacePlaces(k, j, launch, i); }
      case FetchSignal(j) =>
        FetchBody(k, j);
        if i != j { FetchPlaces(k, j, i); }
      case Gone(j, status, complaint) =>
        FinishPlaces(k.(sh := WriteOutput(k.sh, 2, complaint)), j, status, j);
        FinishPlaces(k.(sh := WriteOutput(k.sh, 2, complaint)), j, status, i);
      case StartSpawn(launch) =>
        StartNextBody(k, launch);
        if n < |k.procs| { StartNextPlaces(k, launch, n); }
      case HostMove(j, o) =>
        HostShrinks(k, j, o);
        if i != j { HostPlaces(k, j, o, i); }
      case WallClock(status) => KillOrderly(k, status);
      case _ =>
    }
    if i < |k.procs| && k.procs[i].body.Host? {
      InOrder(k, i);
    }
  }

  lemma InOrder(k: Session, i: nat)
    requires Orderly(k) && i < |k.procs| && k.procs[i].body.Host?
    ensures HostAt(k, i)
  {
    assert ProcOk(k.procs[i]);
  }

  /** Every host command of every run is the session's first process or was started by a move of the
      run, and stood in the list from then on: all of the above is about it from its start. */
  lemma {:induction false} EveryHostBegan(u: Setup, moves: seq<Move>, n: nat) returns (at: nat, i: nat)
    requires Begin(u).Some? && HostAt(Run(Begin(u).value, moves), n)
    ensures at <= |moves| && Begun(u, moves[..at], i) && Where(Birth(u, moves[..at]), i, moves[at..]) == Some(n)
    ensures at == 0 || Newborn(Run(Begin(u).value, moves[..at - 1]), moves[at - 1], i)
  {
    hide Begin, Step, Place, Orderly, Source, Newborn;
    if |moves| == 0 {
      at, i := 0, n;
      FirstIsFresh(u, n);
      assert moves[..at] == moves && moves[at..] == [];
    } else {
      var before, m := moves[..|moves| - 1], moves[|moves| - 1];
      var b := Run(Begin(u).value, before);
      RunOrderly(u, before);
      Origin(b, m, n);
      if Newborn(b, m, n) {
        at, i := |moves|, n;
        assert moves[..at] == moves && moves[at..] == [];
      } else {
        at, i := EveryHostBegan(u, before, Source(b, m, n));
        StillThere(u, before, m, n, at, i);
        assert moves == before + [m];
      }
    }
  }

  /** One move more: the process that stood where it came from now stands at place `n`. */
  lemma StillThere(u: Setup, before: seq<Move>, m: Move, n: nat, at: nat, i: nat)
    requires Begin(u).Some? && at <= |before| && Begun(u, before[..at], i)
    requires var b := Run(Begin(u).value, before);
      Where(Birth(u, before[..at]), i, before[at..]) == Some(Source(b, m, n)) && Place(b, m, Source(b, m, n)) == Some(n)
    ensures var moves := before + [m];
      && moves[..at] == before[..at]
      && (at > 0 ==> moves[..at - 1] == before[..at - 1] && moves[at - 1] == before[at - 1])
      && Where(Birth(u, moves[..at]), i, moves[at..]) == Some(n)
  {
    hide Begin, Step, Place, Source, Run, Where;
    var moves := before + [m];
    assert before[..at] == moves[..at] && moves[at..] == before[at..] + [m];
    WhereMore(Birth(u, moves[..at]), i, before[at..], m);
    RunConcat(Begin(u).value, before[..at], before[at..]);
    assert before == before[..at] + before[at..];
  }

  lemma FirstIsFresh(u: Setup, n: nat)
    requires Begin(u).Some? && HostAt(Begin(u).value, n)
    ensures Begin(u).value.procs[n].body.phase == Reading([])
  {
    hide Streams, Start;
    var (sh, fds) := Streams(EmptyShared(u.limits)).value;
    var s0 := Session(sh.(nextPid := 2, table := [NewRecord(1, 0, 1, 1)]), [], None);
    StartBody(s0, Spawn(FirstTask(fds, u.cwd), u.program, u.exe, u.argv, u.envp), u.launch);
  }
}
