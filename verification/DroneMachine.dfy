/** One drone as a step system.

    The bee is single-threaded asyncio: the code between two suspending awaits runs as one
    atomic step, and the event loop picks the next ready step freely.  A run is any sequence
    of actions; an action whose guard is false leaves the state alone, so a statement about
    every sequence of actions is a statement about every interleaving.

    Times are milliseconds of the event loop's clock. */
module DroneMachine {
  import opened Options
  import opened Statuses

  // ---------- state ----------

  /** How far start() has got. Broken: it raised or was cancelled. */
  datatype Phase = Fresh | Spawning | Draining | Started | Broken

  datatype Reader = NotMade | Reading | Ended | Raised

  /** The exit monitor's task, by the await it is suspended at.  cleaned: it had already torn
      the cgroup down when it crashed. */
  datatype Monitor =
    | Absent | AwaitExit | AwaitStdout | AwaitStderr | AwaitCallback
    | Returned | Crashed(cleaned: bool)

  datatype TimerState = Pending | Fired | Cancelled

  /** The SIGKILL failsafe of one cooperative stop.  guarded: the monitor task existed when
      the timer was armed. */
  datatype Timer = Timer(armedAt: nat, due: nat, guarded: bool, state: TimerState)

  /** One stop() call, by the await it is suspended at. */
  datatype StopCall =
    | ForceWait(until: nat)
    | CoopWait(timer: nat, until: nat)
    | LateWait(until: nat)
    | CallbackWait
    | Over

  datatype Cause = Forced | Failsafe(timer: nat) | Teardown

  /** One operation on the drone's cgroup. exited: the return code was known at the time. */
  datatype Op = Create | Populate | Kill(cause: Cause, at: nat, exited: bool) | WaitEmpty | Cleanup

  datatype Actor = Stdout | Watcher | Stopper | Escalation
  datatype Attempt = Attempt(actor: Actor, status: ScanStatus)

  /** The status, every call of _set_status so far, and every status-change callback so far. */
  datatype Life = Life(status: ScanStatus, attempts: seq<Attempt>, announced: seq<ScanStatus>)

  datatype State = State(
    grace: nat,                  // graceful_stop_timeout_s
    lag: nat,                    // how late the loop may run a due timer
    now: nat,
    phase: Phase,
    spawned: bool,               // _process is not None
    alive: bool,                 // the kernel still runs the process
    rc: Option<int>,             // _process.returncode
    stopping: bool,
    life: Life,
    stdout: Reader,
    stderr: Reader,
    monitor: Monitor,
    timers: seq<Timer>,
    stops: seq<StopCall>,
    escalations: nat,            // failsafe status tasks created and not yet run
    ops: seq<Op>
  )

  function Init(grace: nat, lag: nat): State {
    State(grace, lag, 0, Fresh, false, false, None, false, Life(NotStarted, [], []),
          NotMade, NotMade, Absent, [], [], 0, [])
  }

  predicate MonitorDone(m: Monitor) {
    m.Returned? || m.Crashed?
  }

  /** _await_exit comes back at once. */
  predicate NothingToAwait(m: Monitor) {
    m.Absent? || MonitorDone(m)
  }

  // ---------- the atomic regions ----------

  function Attempted(life: Life, at: Attempt): Life {
    Life(Ratchet(life.status, at.status),
         life.attempts + [at],
         life.announced + if Advances(life.status, at.status) then [at.status] else [])
  }

  function SetStatus(d: State, actor: Actor, s: ScanStatus): State {
    d.(life := Attempted(d.life, Attempt(actor, s)))
  }

  function KillCgroup(d: State, cause: Cause): State {
    d.(ops := d.ops + [Kill(cause, d.now, d.rc.Some?)])
  }

  function CreateCgroup(d: State, ok: bool): State {
    d.(ops := d.ops + [Create], phase := if ok then Spawning else Broken)
  }

  function Spawn(d: State, ok: bool, populated: bool): State {
    if !ok then d.(phase := Broken)
    else d.(spawned := true, alive := true, ops := d.ops + [Populate],
            phase := if populated then Draining else Broken)
  }

  function Drain(d: State, ok: bool): State {
    if !ok then d.(phase := Broken)
    else d.(phase := Started, stdout := Reading, stderr := Reading, monitor := AwaitExit)
  }

  /** The status the monitor reads off a return code. */
  function Verdict(rc: int, stopping: bool): ScanStatus {
    if rc == 0 then Finished
    else if rc == 2 then Aborted
    else if stopping && rc < 0 then Aborted
    else Failed
  }

  function TearDown(d: State): State
    requires d.rc.Some?
  {
    var swept := d.(ops := d.ops + [Kill(Teardown, d.now, true), WaitEmpty, Cleanup]);
    if IsTerminal(d.life.status) then swept.(monitor := Returned)
    else SetStatus(swept, Watcher, Verdict(d.rc.value, d.stopping)).(monitor := AwaitCallback)
  }

  function JoinStderr(d: State): State
    requires d.rc.Some?
  {
    if d.stderr.Reading? then d.(monitor := AwaitStderr) else TearDown(d)
  }

  function JoinStdout(d: State): State
    requires d.rc.Some?
  {
    if d.stdout.Reading? then d.(monitor := AwaitStdout) else JoinStderr(d)
  }

  predicate MonitorReady(d: State) {
    && d.rc.Some?
    && (d.monitor.AwaitExit?
        || (d.monitor.AwaitStdout? && !d.stdout.Reading?)
        || (d.monitor.AwaitStderr? && !d.stderr.Reading?))
  }

  function MonitorWakes(d: State): State
    requires MonitorReady(d)
  {
    match d.monitor
    case AwaitExit => JoinStdout(d)
    case AwaitStdout => if d.stdout.Raised? then d.(monitor := Crashed(false)) else JoinStderr(d)
    case _ => if d.stderr.Raised? then d.(monitor := Crashed(false)) else TearDown(d)
  }

  /** The tail `if not self.is_terminal: await self._set_status(ABORTED)` of a stop call. */
  function ConcludeStop(d: State, i: nat): State
    requires i < |d.stops|
  {
    if IsTerminal(d.life.status) then d.(stops := d.stops[i := Over])
    else
      var aborted := SetStatus(d, Stopper, Aborted);
      aborted.(stops := d.stops[i := CallbackWait])
  }

  /** stop() from its entry to its first suspension. gone: getpgid found no such process. */
  function EnterStop(d: State, force: bool, gone: bool): State {
    var i := |d.stops|;
    var d := d.(stopping := true, stops := d.stops + [Over]);
    if IsTerminal(d.life.status) || !d.spawned || d.rc.Some? || gone then d
    else if force then
      var killed := KillCgroup(d, Forced);
      if NothingToAwait(d.monitor) then ConcludeStop(killed, i)
      else killed.(stops := d.stops[i := ForceWait(d.now + 5000)])
    else
      var due := d.now + d.grace;
      if NothingToAwait(d.monitor) then
        d.(timers := d.timers + [Timer(d.now, due, !d.monitor.Absent?, Cancelled)])
      else
        d.(timers := d.timers + [Timer(d.now, due, true, Pending)],
           stops := d.stops[i := CoopWait(|d.timers|, due + 1000)])
  }

  predicate StopAwaitsMonitor(d: State, i: nat) {
    i < |d.stops| && (d.stops[i].ForceWait? || d.stops[i].CoopWait? || d.stops[i].LateWait?)
  }

  function CancelTimer(d: State, j: nat): State {
    if j < |d.timers| && d.timers[j].state.Pending? then
      d.(timers := d.timers[j := d.timers[j].(state := Cancelled)])
    else d
  }

  /** The awaited monitor task is done; a crashed monitor re-raises in the stop call. */
  function StopWakes(d: State, i: nat): State
    requires StopAwaitsMonitor(d, i)
  {
    if d.monitor.Crashed? then d.(stops := d.stops[i := Over])
    else
      match d.stops[i]
      case CoopWait(j, _) => CancelTimer(d.(stops := d.stops[i := Over]), j)
      case _ => ConcludeStop(d, i)
  }

  function StopTimesOut(d: State, i: nat): State
    requires StopAwaitsMonitor(d, i)
  {
    match d.stops[i]
    case ForceWait(_) => d.(stops := d.stops[i := Over])
    case CoopWait(_, _) =>
      if MonitorDone(d.monitor) then ConcludeStop(d, i)
      else d.(stops := d.stops[i := LateWait(d.now + 10000)])
    case _ => ConcludeStop(d, i)
  }

  /** Cancellation of the caller: propagated, except in the late wait, which suppresses it. */
  function StopIsCancelled(d: State, i: nat): State
    requires i < |d.stops|
  {
    if d.stops[i].LateWait? then ConcludeStop(d, i) else d.(stops := d.stops[i := Over])
  }

  function FireTimer(d: State, j: nat): State
    requires j < |d.timers|
  {
    var fired := d.(timers := d.timers[j := d.timers[j].(state := Fired)]);
    if !d.spawned || d.rc.Some? then fired
    else KillCgroup(fired, Failsafe(j)).(escalations := d.escalations + 1)
  }

  // ---------- actions ----------

  datatype Action =
    | DoCreate(ok: bool)
    | DoSpawn(ok: bool, populated: bool)
    | DoDrain(ok: bool)
    | ProcessDies
    | LoopSeesExit(code: int)
    | StatusLine(reported: ScanStatus)
    | StdoutEnds(ok: bool)
    | StderrEnds(ok: bool)
    | DoMonitor
    | MonitorCallback(ok: bool)
    | DoStop(force: bool, gone: bool)
    | StopResumes(i: nat)
    | StopTimeout(i: nat)
    | StopCancel(i: nat)
    | StopCallback(i: nat)
    | TimerFires(j: nat)
    | DoEscalate
    | Tick(ms: nat)

  predicate Enabled(d: State, a: Action) {
    match a
    case DoCreate(_) => d.phase.Fresh?
    case DoSpawn(_, _) => d.phase.Spawning?
    case DoDrain(_) => d.phase.Draining?
    case ProcessDies => d.alive
    case LoopSeesExit(_) => d.spawned && !d.alive && d.rc.None?
    case StatusLine(_) => d.stdout.Reading?
    case StdoutEnds(_) => d.stdout.Reading?
    case StderrEnds(_) => d.stderr.Reading?
    case DoMonitor => MonitorReady(d)
    case MonitorCallback(_) => d.monitor.AwaitCallback?
    case DoStop(_, gone) => gone ==> !d.alive
    case StopResumes(i) => StopAwaitsMonitor(d, i) && MonitorDone(d.monitor)
    case StopTimeout(i) => StopAwaitsMonitor(d, i) && d.stops[i].until <= d.now
    case StopCancel(i) => i < |d.stops| && !d.stops[i].Over?
    case StopCallback(i) => i < |d.stops| && d.stops[i].CallbackWait?
    case TimerFires(j) => j < |d.timers| && d.timers[j].state.Pending? && d.timers[j].due <= d.now
    case DoEscalate => d.escalations > 0
    case Tick(ms) => forall t | t in d.timers && t.state.Pending? :: d.now + ms <= t.due + d.lag
  }

  function Apply(d: State, a: Action): State
    requires Enabled(d, a)
  {
    match a
    case DoCreate(ok) => CreateCgroup(d, ok)
    case DoSpawn(ok, populated) => Spawn(d, ok, populated)
    case DoDrain(ok) => Drain(d, ok)
    case ProcessDies => d.(alive := false)
    case LoopSeesExit(code) => d.(rc := Some(code))
    case StatusLine(s) => SetStatus(d, Stdout, s)
    case StdoutEnds(ok) => d.(stdout := if ok then Ended else Raised)
    case StderrEnds(ok) => d.(stderr := if ok then Ended else Raised)
    case DoMonitor => MonitorWakes(d)
    case MonitorCallback(ok) => d.(monitor := if ok then Returned else Crashed(true))
    case DoStop(force, gone) => EnterStop(d, force, gone)
    case StopResumes(i) => StopWakes(d, i)
    case StopTimeout(i) => StopTimesOut(d, i)
    case StopCancel(i) => StopIsCancelled(d, i)
    case StopCallback(i) => d.(stops := d.stops[i := Over])
    case TimerFires(j) => FireTimer(d, j)
    case DoEscalate => SetStatus(d.(escalations := d.escalations - 1), Escalation, Aborted)
    case Tick(ms) => d.(now := d.now + ms)
  }

  function Step(d: State, a: Action): State {
    if Enabled(d, a) then Apply(d, a) else d
  }

  function Exec(d: State, acts: seq<Action>): State {
    if acts == [] then d else Step(Exec(d, acts[..|acts| - 1]), acts[|acts| - 1])
  }

  // ---------- invariant: shape and cgroup operations ----------

  predicate Cleaned(m: Monitor) {
    m.AwaitCallback? || m.Returned? || m == Crashed(true)
  }

  /** A kill issued by a stop call or the failsafe, while the process was not known to have exited. */
  predicate EarlyKill(op: Op) {
    op.Kill? && !op.cause.Teardown? && !op.exited
  }

  predicate SweptAt(ops: seq<Op>, n: nat) {
    && |ops| == n + 3
    && ops[n].Kill? && ops[n].cause.Teardown? && ops[n].exited
    && ops[n + 1] == WaitEmpty && ops[n + 2] == Cleanup
  }

  ghost predicate OpsShape(ops: seq<Op>, spawned: bool, cleaned: bool) {
    if !spawned then ops == [] || ops == [Create]
    else
      var n := if cleaned then |ops| - 3 else |ops|;
      && 2 <= n
      && ops[0] == Create && ops[1] == Populate
      && (forall k | 2 <= k < n :: EarlyKill(ops[k]))
      && (cleaned ==> SweptAt(ops, n))
  }

  ghost predicate Shape(d: State) {
    && OpsShape(d.ops, d.spawned, Cleaned(d.monitor))
    && (d.phase.Fresh? ==> d.ops == [])
    && (d.phase.Fresh? || d.phase.Spawning? ==> !d.spawned)
    && (d.phase.Spawning? ==> d.ops == [Create])
    && (d.phase.Draining? || d.phase.Started? ==> d.spawned)
    && (d.phase.Started? <==> !d.monitor.Absent?)
    && (d.stdout.NotMade? <==> d.monitor.Absent?) && (d.stderr.NotMade? <==> d.monitor.Absent?)
    && (d.alive ==> d.spawned && d.rc.None?)
    && (d.rc.Some? ==> d.spawned)
    && (!d.monitor.Absent? && !d.monitor.AwaitExit? ==> d.rc.Some?)
    && (d.monitor.AwaitStderr? ==> !d.stdout.Reading?)
    && (Cleaned(d.monitor) ==> !d.stdout.Reading? && !d.stderr.Reading? && IsTerminal(d.life.status))
  }

  lemma EarlyKillKeepsShape(d: State, cause: Cause)
    requires Shape(d) && d.spawned && d.rc.None? && !cause.Teardown?
    ensures Shape(KillCgroup(d, cause))
  {
    var after := KillCgroup(d, cause).ops;
    assert !Cleaned(d.monitor);
    assert forall k | 0 <= k < |d.ops| :: after[k] == d.ops[k];
  }

  lemma TearDownKeepsShape(d: State)
    requires Shape(d) && d.rc.Some? && !d.stdout.Reading? && !d.stderr.Reading?
    requires !Cleaned(d.monitor) && !d.monitor.Absent?
    ensures Shape(TearDown(d)) && Cleaned(TearDown(d).monitor)
  {
    var after := TearDown(d).ops;
    assert forall k | 0 <= k < |d.ops| :: after[k] == d.ops[k];
  }

  lemma StopKeepsShape(d: State, force: bool, gone: bool)
    requires Shape(d)
    ensures Shape(EnterStop(d, force, gone))
  {
    var i := |d.stops|;
    var e := d.(stopping := true, stops := d.stops + [Over]);
    assert Shape(e);
    if !(IsTerminal(d.life.status) || !d.spawned || d.rc.Some? || gone) {
      if force {
        EarlyKillKeepsShape(e, Forced);
        var killed := KillCgroup(e, Forced);
        assert Shape(ConcludeStop(killed, i));
      }
    }
  }

  lemma MonitorKeepsShape(d: State)
    requires Shape(d) && MonitorReady(d)
    ensures Shape(MonitorWakes(d))
  {
    if d.monitor.AwaitExit? {
      if !d.stdout.Reading? && !d.stderr.Reading? {
        TearDownKeepsShape(d);
      }
    } else if d.monitor.AwaitStdout? {
      if !d.stdout.Raised? && !d.stderr.Reading? {
        TearDownKeepsShape(d);
      }
    } else if !d.stderr.Raised? {
      TearDownKeepsShape(d);
    }
  }

  lemma TimerKeepsShape(d: State, j: nat)
    requires Shape(d) && j < |d.timers|
    ensures Shape(FireTimer(d, j))
  {
    var fired := d.(timers := d.timers[j := d.timers[j].(state := Fired)]);
    assert Shape(fired);
    if d.spawned && d.rc.None? {
      EarlyKillKeepsShape(fired, Failsafe(j));
    }
  }

  lemma StartKeepsShape(d: State, a: Action)
    requires Shape(d) && Enabled(d, a)
    requires a.DoCreate? || a.DoSpawn? || a.DoDrain?
    ensures Shape(Apply(d, a))
  {
  }

  /** e differs from d only in what a stop call already past its kill may touch. */
  predicate SameProcess(d: State, e: State) {
    && e.ops == d.ops && e.spawned == d.spawned && e.phase == d.phase
    && e.alive == d.alive && e.rc == d.rc
    && e.stdout == d.stdout && e.stderr == d.stderr && e.monitor == d.monitor
    && e.now == d.now && e.grace == d.grace && e.lag == d.lag
    && e.escalations == d.escalations && e.stopping == d.stopping
    && (IsTerminal(d.life.status) ==> IsTerminal(e.life.status))
  }

  lemma ConcludeIsLocal(d: State, i: nat)
    requires i < |d.stops|
    ensures SameProcess(d, ConcludeStop(d, i))
    ensures ConcludeStop(d, i).timers == d.timers
  {
  }

  lemma StopCallIsLocal(d: State, a: Action)
    requires Enabled(d, a)
    requires a.StopResumes? || a.StopTimeout? || a.StopCancel? || a.StopCallback?
    ensures SameProcess(d, Apply(d, a))
  {
    match a
    case StopResumes(i) => if !d.monitor.Crashed? && !d.stops[i].CoopWait? { ConcludeIsLocal(d, i); }
    case StopTimeout(i) => if !d.stops[i].ForceWait? { ConcludeIsLocal(d, i); }
    case StopCancel(i) => if d.stops[i].LateWait? { ConcludeIsLocal(d, i); }
    case StopCallback(i) =>
  }

  /** The process, the readers and start() are as they were. */
  predicate SameRun(d: State, e: State) {
    && e.spawned == d.spawned && e.alive == d.alive && e.rc == d.rc && e.phase == d.phase
    && e.stdout == d.stdout && e.stderr == d.stderr
  }

  lemma MonitorIsLocal(d: State)
    requires MonitorReady(d)
    ensures SameRun(d, MonitorWakes(d))
  {
    assert SameRun(d, TearDown(d));
    assert SameRun(d, JoinStderr(d));
    assert SameRun(d, JoinStdout(d));
  }

  lemma EnterStopIsLocal(d: State, force: bool, gone: bool)
    ensures SameRun(d, EnterStop(d, force, gone))
  {
  }

  lemma StopCallKeepsShape(d: State, a: Action)
    requires Shape(d) && Enabled(d, a)
    requires a.StopResumes? || a.StopTimeout? || a.StopCancel? || a.StopCallback?
    ensures Shape(Apply(d, a))
  {
    StopCallIsLocal(d, a);
    var e := Apply(d, a);
    assert SameProcess(d, e);
  }

  lemma ShapeStep(d: State, a: Action)
    requires Shape(d)
    ensures Shape(Step(d, a))
  {
    if Enabled(d, a) {
      match a
      case DoCreate(_) => StartKeepsShape(d, a);
      case DoSpawn(_, _) => StartKeepsShape(d, a);
      case DoDrain(_) => StartKeepsShape(d, a);
      case DoMonitor => MonitorKeepsShape(d);
      case DoStop(force, gone) => StopKeepsShape(d, force, gone);
      case StopResumes(_) => StopCallKeepsShape(d, a);
      case StopTimeout(_) => StopCallKeepsShape(d, a);
      case StopCancel(_) => StopCallKeepsShape(d, a);
      case StopCallback(_) => StopCallKeepsShape(d, a);
      case TimerFires(j) => TimerKeepsShape(d, j);
      case _ =>
    }
  }
}
