/** What every interleaving of one drone's actors keeps. */
module DroneGuarantees {
  import opened Options
  import opened Statuses
  import opened DroneMachine

  // ---------- what a single step can do to the traces ----------

  predicate FailsafeKill(op: Op, j: nat) {
    op.Kill? && op.cause == Failsafe(j)
  }

  /** The attempts each actor may make. */
  predicate Allowed(d: State, at: Attempt) {
    match at.actor
    case Stdout => true
    case Watcher => d.rc.Some? && !IsTerminal(d.life.status) && at.status == Verdict(d.rc.value, d.stopping)
    case _ => at.status == Aborted
  }

  ghost predicate AttemptStep(d: State, e: State) {
    || e.life == d.life
    || exists at :: Allowed(d, at) && e.life == Attempted(d.life, at) && (at.actor.Watcher? ==> Cleaned(e.monitor))
  }

  lemma ConcludeAttempts(d: State, i: nat)
    requires i < |d.stops|
    ensures AttemptStep(d, ConcludeStop(d, i))
  {
    if !IsTerminal(d.life.status) {
      assert ConcludeStop(d, i).life == Attempted(d.life, Attempt(Stopper, Aborted));
    }
  }

  lemma MonitorAttempts(d: State)
    requires MonitorReady(d)
    ensures AttemptStep(d, MonitorWakes(d))
  {
    var e := MonitorWakes(d);
    if e.life != d.life {
      assert e.life == Attempted(d.life, Attempt(Watcher, Verdict(d.rc.value, d.stopping)));
    }
  }

  lemma EnterAttempts(d: State, force: bool, gone: bool)
    ensures AttemptStep(d, EnterStop(d, force, gone))
  {
    var e := EnterStop(d, force, gone);
    if e.life != d.life {
      assert e.life == Attempted(d.life, Attempt(Stopper, Aborted));
    }
  }

  lemma StopCallAttempts(d: State, a: Action)
    requires Enabled(d, a)
    requires a.StopResumes? || a.StopTimeout? || a.StopCancel? || a.StopCallback?
    ensures AttemptStep(d, Apply(d, a))
  {
    match a
    case StopResumes(i) => if !d.monitor.Crashed? && !d.stops[i].CoopWait? { ConcludeAttempts(d, i); }
    case StopTimeout(i) => if !d.stops[i].ForceWait? { ConcludeAttempts(d, i); }
    case StopCancel(i) => if d.stops[i].LateWait? { ConcludeAttempts(d, i); }
    case StopCallback(i) =>
  }

  lemma EveryStepAttempts(d: State, a: Action)
    ensures AttemptStep(d, Step(d, a))
  {
    var e := Step(d, a);
    if Enabled(d, a) {
      match a
      case DoMonitor => MonitorAttempts(d);
      case DoStop(force, gone) => EnterAttempts(d, force, gone);
      case StopResumes(_) => StopCallAttempts(d, a);
      case StopTimeout(_) => StopCallAttempts(d, a);
      case StopCancel(_) => StopCallAttempts(d, a);
      case StopCallback(_) => StopCallAttempts(d, a);
      case StatusLine(s) => assert e.life == Attempted(d.life, Attempt(Stdout, s));
      case DoEscalate => assert e.life == Attempted(d.life, Attempt(Escalation, Aborted));
      case _ => assert e.life == d.life;
    }
  }

  /** Where a new kill that is not the monitor's comes from. */
  predicate NewKill(d: State, a: Action, e: State, op: Op) {
    && op.Kill? && op.at == d.now && !op.exited && d.rc.None? && e.rc.None?
    && match op.cause
       case Forced => a.DoStop? && a.force
       case Failsafe(j) =>
         && a == TimerFires(j) && j < |d.timers| && d.timers[j].state.Pending? && d.timers[j].due <= d.now
         && e.escalations == d.escalations + 1 && e.life == d.life
       case Teardown => false
  }

  /** The clock moves only while no pending timer would be more than lag overdue. */
  ghost predicate ClockStep(d: State, e: State) {
    && d.now <= e.now
    && (e.now == d.now || forall t | t in d.timers && t.state.Pending? :: e.now <= t.due + d.lag)
  }

  /** Time, return code and operation trace only grow; escalation tasks leave only by aborting. */
  ghost predicate Grows(d: State, a: Action, e: State) {
    && e.grace == d.grace && e.lag == d.lag && ClockStep(d, e)
    && (d.rc.Some? ==> e.rc == d.rc) && (Cleaned(d.monitor) ==> Cleaned(e.monitor))
    && (d.stopping ==> e.stopping) && (d.spawned ==> e.spawned)
    && d.ops <= e.ops
    && (forall k | |d.ops| <= k < |e.ops| && e.ops[k].Kill? && !e.ops[k].cause.Teardown? :: NewKill(d, a, e, e.ops[k]))
    && (e.escalations < d.escalations ==> e.life.status == Aborted)
  }

  lemma EnterGrows(d: State, force: bool, gone: bool)
    ensures Grows(d, DoStop(force, gone), EnterStop(d, force, gone))
  {
  }

  lemma TearDownGrows(d: State)
    requires d.rc.Some?
    ensures Grows(d, DoMonitor, TearDown(d))
  {
  }

  lemma MonitorGrows(d: State)
    requires MonitorReady(d)
    ensures Grows(d, DoMonitor, MonitorWakes(d))
  {
    TearDownGrows(d);
    match d.monitor
    case AwaitExit => JoinGrows(d);
    case AwaitStdout => JoinGrows(d);
    case _ =>
  }

  lemma JoinGrows(d: State)
    requires d.rc.Some? && !Cleaned(d.monitor)
    ensures Grows(d, DoMonitor, JoinStderr(d)) && Grows(d, DoMonitor, JoinStdout(d))
  {
    TearDownGrows(d);
  }

  lemma FireGrows(d: State, j: nat)
    requires Shape(d) && Enabled(d, TimerFires(j))
    ensures Grows(d, TimerFires(j), FireTimer(d, j))
  {
  }

  lemma EveryStepGrows(d: State, a: Action)
    requires Shape(d)
    ensures Grows(d, a, Step(d, a))
  {
    if Enabled(d, a) {
      match a
      case DoMonitor => MonitorGrows(d);
      case DoStop(force, gone) => EnterGrows(d, force, gone);
      case TimerFires(j) => FireGrows(d, j);
      case StopResumes(_) => StopCallIsLocal(d, a);
      case StopTimeout(_) => StopCallIsLocal(d, a);
      case StopCancel(_) => StopCallIsLocal(d, a);
      case StopCallback(_) => StopCallIsLocal(d, a);
      case DoEscalate => assert forall s :: Ratchet(s, Aborted) == Aborted;
      case _ =>
    }
  }

  // ---------- status ----------

  function StatusesOf(attempts: seq<Attempt>): seq<ScanStatus> {
    seq(|attempts|, i requires 0 <= i < |attempts| => attempts[i].status)
  }

  ghost predicate Escalated(d: State) {
    exists k, j :: 0 <= k < |d.ops| && FailsafeKill(d.ops[k], j)
  }

  ghost predicate TraceInv(life: Life) {
    && life.status == Final(StatusesOf(life.attempts))
    && life.announced == Announced(StatusesOf(life.attempts))
  }

  predicate Attributable(at: Attempt, rc: Option<int>, escalated: bool, cleaned: bool) {
    match at.actor
    case Stdout => true
    case Watcher =>
      && rc.Some? && cleaned
      && (at.status == Verdict(rc.value, true) || (at.status == Verdict(rc.value, false) && !escalated))
    case _ => at.status == Aborted
  }

  ghost predicate StatusInv(d: State) {
    && TraceInv(d.life)
    && (forall at | at in d.life.attempts :: Attributable(at, d.rc, Escalated(d), Cleaned(d.monitor)))
    && (Escalated(d) ==> d.stopping && (d.escalations > 0 || d.life.status == Aborted))
    && (d.timers != [] ==> d.stopping)
  }

  /** How a step may change the failsafe timers. */
  ghost predicate TimersStep(d: State, a: Action, e: State) {
    || (e.timers == d.timers && (a.TimerFires? ==> e == d))
    || (&& a.DoStop? && e.stopping && e.spawned && e.rc == d.rc && d.rc.None? && e.monitor == d.monitor
        && e.timers == d.timers + [Timer(d.now, d.now + d.grace, !d.monitor.Absent?,
                                         if d.monitor.Absent? then Cancelled else Pending)])
    || (a.StopResumes? && e.rc.Some? && exists j :: e == CancelTimer(e.(timers := d.timers), j))
    || (&& a.TimerFires? && a.j < |d.timers| && d.timers[a.j].state.Pending? && d.timers[a.j].due <= d.now
        && e.timers == d.timers[a.j := d.timers[a.j].(state := Fired)]
        && (d.rc.None? && d.spawned ==> e.ops == d.ops + [Kill(Failsafe(a.j), d.now, false)]))
  }

  lemma EnterTimers(d: State, force: bool, gone: bool)
    requires Shape(d)
    ensures TimersStep(d, DoStop(force, gone), EnterStop(d, force, gone))
  {
  }

  lemma ResumeTimers(d: State, i: nat)
    requires Shape(d) && Enabled(d, StopResumes(i))
    ensures TimersStep(d, StopResumes(i), StopWakes(d, i))
  {
    if !d.monitor.Crashed? {
      match d.stops[i]
      case CoopWait(j, _) =>
        var e := StopWakes(d, i);
        assert e.(timers := d.timers) == d.(stops := d.stops[i := Over]);
      case _ => ConcludeIsLocal(d, i);
    }
  }

  lemma OtherStopTimers(d: State, a: Action)
    requires Enabled(d, a)
    requires a.StopTimeout? || a.StopCancel? || a.StopCallback?
    ensures Apply(d, a).timers == d.timers
  {
    match a
    case StopTimeout(i) => if !d.stops[i].ForceWait? { ConcludeIsLocal(d, i); }
    case StopCancel(i) => if d.stops[i].LateWait? { ConcludeIsLocal(d, i); }
    case _ =>
  }

  lemma MonitorTimers(d: State)
    requires MonitorReady(d)
    ensures MonitorWakes(d).timers == d.timers && MonitorWakes(d).now == d.now
  {
  }

  lemma EveryStepTimers(d: State, a: Action)
    requires Shape(d)
    ensures TimersStep(d, a, Step(d, a))
  {
    if Enabled(d, a) {
      match a
      case DoMonitor => MonitorTimers(d);
      case DoStop(force, gone) => EnterTimers(d, force, gone);
      case StopResumes(i) => ResumeTimers(d, i);
      case StopTimeout(_) => OtherStopTimers(d, a);
      case StopCancel(_) => OtherStopTimers(d, a);
      case StopCallback(_) => OtherStopTimers(d, a);
      case _ =>
    }
  }

  /** Only a timer that finds the process not known to have exited makes a drone escalated. */
  lemma EscalatedStep(d: State, a: Action, e: State)
    requires Grows(d, a, e)
    ensures Escalated(d) ==> Escalated(e)
    ensures Escalated(e) && !Escalated(d) ==>
              d.rc.None? && d.timers != [] && e.escalations > 0 && e.life == d.life
  {
    if Escalated(d) {
      var k, j :| 0 <= k < |d.ops| && FailsafeKill(d.ops[k], j);
      assert FailsafeKill(e.ops[k], j);
    } else if Escalated(e) {
      var k, j :| 0 <= k < |e.ops| && FailsafeKill(e.ops[k], j);
      if k >= |d.ops| {
        assert NewKill(d, a, e, e.ops[k]);
      }
    }
  }

  lemma TraceKept(life: Life, at: Attempt)
    requires TraceInv(life)
    ensures TraceInv(Attempted(life, at))
  {
    assert StatusesOf(life.attempts + [at]) == StatusesOf(life.attempts) + [at.status];
    FinalAppend(StatusesOf(life.attempts), at.status);
  }

  lemma AttemptsKept(d: State, a: Action, e: State)
    requires StatusInv(d) && AttemptStep(d, e) && Grows(d, a, e)
    ensures TraceInv(e.life)
    ensures forall at | at in e.life.attempts :: Attributable(at, e.rc, Escalated(e), Cleaned(e.monitor))
    ensures d.life.status == Aborted ==> e.life.status == Aborted
  {
    EscalatedStep(d, a, e);
    if e.life != d.life {
      var at :| Allowed(d, at) && e.life == Attempted(d.life, at);
      TraceKept(d.life, at);
    }
  }

  lemma StatusKept(d: State, a: Action, e: State)
    requires StatusInv(d) && AttemptStep(d, e) && Grows(d, a, e) && TimersStep(d, a, e)
    ensures StatusInv(e)
  {
    EscalatedStep(d, a, e);
    AttemptsKept(d, a, e);
  }

  // ---------- the failsafe timers ----------

  /** Timer j issued cgroup.kill in the given time window, the process not being known to have exited. */
  ghost predicate KilledIn(ops: seq<Op>, j: nat, lo: nat, hi: nat) {
    exists k :: 0 <= k < |ops| && FailsafeKill(ops[k], j) && !ops[k].exited && lo <= ops[k].at <= hi
  }

  ghost predicate TimerOk(d: State, j: nat)
    requires j < |d.timers|
  {
    var t := d.timers[j];
    && t.due == t.armedAt + d.grace && t.armedAt <= d.now
    && match t.state
       case Pending => t.guarded && d.now <= t.due + d.lag
       case Fired => t.guarded && (d.rc.Some? || KilledIn(d.ops, j, t.due, t.due + d.lag))
       case Cancelled => !t.guarded || d.rc.Some?
  }

  /** A failsafe kill on the trace was issued by a timer that has fired, once it was due. */
  predicate KillOk(d: State, op: Op) {
    op.Kill? && op.cause.Failsafe? ==>
      && op.cause.timer < |d.timers|
      && d.timers[op.cause.timer].state.Fired?
      && d.timers[op.cause.timer].due <= op.at
  }

  ghost predicate TimerInv(d: State) {
    && (d.timers != [] ==> d.spawned)
    && (forall j: nat | j < |d.timers| :: TimerOk(d, j))
    && (forall k | 0 <= k < |d.ops| :: KillOk(d, d.ops[k]))
  }

  lemma KilledStays(d: State, e: State, j: nat, lo: nat, hi: nat)
    requires d.ops <= e.ops && KilledIn(d.ops, j, lo, hi)
    ensures KilledIn(e.ops, j, lo, hi)
  {
    var k :| 0 <= k < |d.ops| && FailsafeKill(d.ops[k], j) && !d.ops[k].exited && lo <= d.ops[k].at <= hi;
    assert e.ops[k] == d.ops[k];
  }

  /** A timer the step does not touch stays in order. */
  lemma TimerUntouched(d: State, a: Action, e: State, j: nat)
    requires Grows(d, a, e) && j < |d.timers| && j < |e.timers| && e.timers[j] == d.timers[j]
    requires TimerOk(d, j)
    ensures TimerOk(e, j)
  {
    var t := d.timers[j];
    if t.state.Fired? && d.rc.None? {
      KilledStays(d, e, j, t.due, t.due + d.lag);
    }
  }

  lemma TimerTouched(d: State, a: Action, e: State, j: nat)
    requires Shape(d) && Shape(e) && Grows(d, a, e) && TimersStep(d, a, e) && d.now == e.now
    requires d.timers != [] ==> d.spawned
    requires j < |e.timers| && !(j < |d.timers| && e.timers[j] == d.timers[j])
    requires forall i: nat | i < |d.timers| :: TimerOk(d, i)
    ensures TimerOk(e, j)
  {
    if j < |d.timers| {
      assert TimerOk(d, j);
      if a.TimerFires? && e.rc.None? {
        assert FailsafeKill(e.ops[|d.ops|], j);
      }
    }
  }

  lemma FiredStaysFired(d: State, a: Action, e: State)
    requires TimersStep(d, a, e)
    ensures |d.timers| <= |e.timers|
    ensures forall j | 0 <= j < |d.timers| && d.timers[j].state.Fired? :: e.timers[j] == d.timers[j]
  {
    if e.timers != d.timers && a.StopResumes? {
      var j :| e == CancelTimer(e.(timers := d.timers), j);
    }
  }

  lemma KillsKept(d: State, a: Action, e: State, k: nat)
    requires Grows(d, a, e) && TimersStep(d, a, e) && k < |e.ops|
    requires forall k | 0 <= k < |d.ops| :: KillOk(d, d.ops[k])
    ensures KillOk(e, e.ops[k])
  {
    if k < |d.ops| {
      assert KillOk(d, d.ops[k]) && e.ops[k] == d.ops[k];
      FiredStaysFired(d, a, e);
    } else if e.ops[k].Kill? && e.ops[k].cause.Failsafe? {
      assert NewKill(d, a, e, e.ops[k]);
    }
  }

  lemma TimersKept(d: State, a: Action, e: State)
    requires Shape(d) && Shape(e) && TimerInv(d)
    requires Grows(d, a, e) && TimersStep(d, a, e)
    requires e.timers == d.timers || e.now == d.now
    ensures TimerInv(e)
  {
    forall j: nat | j < |e.timers|
      ensures TimerOk(e, j)
    {
      if j < |d.timers| && e.timers[j] == d.timers[j] {
        TimerUntouched(d, a, e, j);
      } else {
        TimerTouched(d, a, e, j);
      }
    }
    forall k | 0 <= k < |e.ops|
      ensures KillOk(e, e.ops[k])
    {
      KillsKept(d, a, e, k);
    }
  }

  // ---------- every run ----------

  ghost predicate Inv(d: State) {
    Shape(d) && StatusInv(d) && TimerInv(d)
  }

  ghost predicate StepFacts(d: State, a: Action, e: State) {
    && Shape(e) && AttemptStep(d, e) && Grows(d, a, e) && TimersStep(d, a, e)
    && (e.timers == d.timers || e.now == d.now)
  }

  lemma EveryStep(d: State, a: Action)
    requires Shape(d)
    ensures StepFacts(d, a, Step(d, a))
  {
    ShapeStep(d, a);
    EveryStepAttempts(d, a);
    EveryStepGrows(d, a);
    EveryStepTimers(d, a);
    if a.Tick? {
      assert Step(d, a).timers == d.timers;
    } else {
      OnlyTicksTakeTime(d, a);
    }
  }

  lemma OnlyTicksTakeTime(d: State, a: Action)
    requires !a.Tick?
    ensures Step(d, a).now == d.now
  {
    if Enabled(d, a) {
      match a
      case DoMonitor => MonitorTimers(d);
      case StopResumes(_) => StopCallIsLocal(d, a);
      case StopTimeout(_) => StopCallIsLocal(d, a);
      case StopCancel(_) => StopCallIsLocal(d, a);
      case StopCallback(_) => StopCallIsLocal(d, a);
      case _ =>
    }
  }

  lemma InvKept(d: State, a: Action, e: State)
    requires Inv(d) && StepFacts(d, a, e)
    ensures Inv(e)
  {
    StatusKept(d, a, e);
    TimersKept(d, a, e);
  }

  /** d is a state of some run: any actions, in any order. */
  ghost predicate Reachable(d: State) {
    exists grace, lag, acts :: d == Exec(Init(grace, lag), acts)
  }

  lemma {:induction false} InvRun(grace: nat, lag: nat, acts: seq<Action>)
    ensures Inv(Exec(Init(grace, lag), acts))
  {
    if acts == [] {
      assert StatusesOf([]) == [];
    } else {
      var before := Exec(Init(grace, lag), acts[..|acts| - 1]);
      InvRun(grace, lag, acts[..|acts| - 1]);
      EveryStep(before, acts[|acts| - 1]);
      InvKept(before, acts[|acts| - 1], Exec(Init(grace, lag), acts));
    }
  }

  lemma ReachableInv(d: State)
    requires Reachable(d)
    ensures Inv(d)
  {
    var grace, lag, acts :| d == Exec(Init(grace, lag), acts);
    InvRun(grace, lag, acts);
  }

  lemma ReachableShape(d: State)
    requires Reachable(d)
    ensures Shape(d)
  {
    ReachableInv(d);
  }

  lemma ExecAppend(d: State, acts: seq<Action>, a: Action)
    ensures Exec(d, acts + [a]) == Step(Exec(d, acts), a)
  {
    assert (acts + [a])[..|acts|] == acts;
  }
}
