/** What one call does to a drone, read off the actions of a run and the state: which stop calls kill, how
    long they wait, how they end, what start() has to get through, and how the monitor can crash. */
module DroneCalls {
  import opened Options
  import opened Statuses
  import opened DroneMachine
  import opened DroneGuarantees

  // ---------- forced stops ----------

  /** The stop call finds a process to stop. */
  predicate Finds(d: State, a: Action) {
    a.DoStop? && Enabled(d, a) && d.spawned && d.rc.None? && !IsTerminal(d.life.status) && !a.gone
  }

  /** A stop call writes cgroup.kill, once and now, if and only if it is forced and finds a process. */
  lemma ForcedStopKillsIff(d: State, force: bool, gone: bool)
    requires Enabled(d, DoStop(force, gone))
    ensures var e := Step(d, DoStop(force, gone));
            && (e.ops == d.ops + [Kill(Forced, d.now, false)] <==>
                  force && d.spawned && d.rc.None? && !IsTerminal(d.life.status) && !gone)
            && (e.ops == d.ops <==> !(force && d.spawned && d.rc.None? && !IsTerminal(d.life.status) && !gone))
  {
    assert |d.ops + [Kill(Forced, d.now, false)]| == |d.ops| + 1;
  }

  /** The number of kills on the trace that a forced stop issued. */
  function ForcedKills(ops: seq<Op>): nat {
    if ops == [] then 0
    else
      var last := ops[|ops| - 1];
      ForcedKills(ops[..|ops| - 1]) + if last.Kill? && last.cause.Forced? then 1 else 0
  }

  /** The number of forced stop calls in the run that found a process. */
  function ForcedStops(grace: nat, lag: nat, acts: seq<Action>): nat {
    if acts == [] then 0
    else
      var init, a := acts[..|acts| - 1], acts[|acts| - 1];
      ForcedStops(grace, lag, init) + if Finds(Exec(Init(grace, lag), init), a) && a.force then 1 else 0
  }

  lemma {:induction false} ForcedKillsAppend(ops: seq<Op>, more: seq<Op>)
    ensures ForcedKills(ops + more) == ForcedKills(ops) + ForcedKills(more)
  {
    if more == [] {
      assert ops + more == ops;
    } else {
      ForcedKillsAppend(ops, more[..|more| - 1]);
      assert (ops + more)[..|ops + more| - 1] == ops + more[..|more| - 1];
    }
  }

  lemma {:induction false} NoForcedKills(ops: seq<Op>)
    requires forall k | 0 <= k < |ops| && ops[k].Kill? :: !ops[k].cause.Forced?
    ensures ForcedKills(ops) == 0
  {
    if ops != [] {
      NoForcedKills(ops[..|ops| - 1]);
    }
  }

  lemma OneForcedKill(ops: seq<Op>, op: Op)
    requires op.Kill? && op.cause.Forced?
    ensures ForcedKills(ops + [op]) == ForcedKills(ops) + 1
  {
    assert (ops + [op])[..|ops|] == ops;
  }

  lemma ForcedKillStep(d: State, a: Action)
    requires Shape(d)
    ensures ForcedKills(Step(d, a).ops) == ForcedKills(d.ops) + if Finds(d, a) && a.force then 1 else 0
  {
    if a.DoStop? && Enabled(d, a) {
      ForcedStopKillsIff(d, a.force, a.gone);
      OneForcedKill(d.ops, Kill(Forced, d.now, false));
    } else if Enabled(d, a) {
      EveryStepGrows(d, a);
      OthersForceNothing(d, a, Step(d, a));
    }
  }

  lemma OthersForceNothing(d: State, a: Action, e: State)
    requires Grows(d, a, e) && !a.DoStop?
    ensures ForcedKills(e.ops) == ForcedKills(d.ops)
  {
    var more := e.ops[|d.ops|..];
    assert e.ops == d.ops + more;
    forall k | 0 <= k < |more| && more[k].Kill?
      ensures !more[k].cause.Forced?
    {
      assert more[k] == e.ops[|d.ops| + k];
      assert more[k].cause.Teardown? || NewKill(d, a, e, e.ops[|d.ops| + k]);
    }
    NoForcedKills(more);
    ForcedKillsAppend(d.ops, more);
  }

  /** Over every run: as many forced kills as forced stop calls that found a process. */
  lemma {:induction false} ForcedKillsAreForcedStops(grace: nat, lag: nat, acts: seq<Action>)
    ensures ForcedKills(Exec(Init(grace, lag), acts).ops) == ForcedStops(grace, lag, acts)
  {
    if acts != [] {
      ForcedKillsAreForcedStops(grace, lag, acts[..|acts| - 1]);
      InvRun(grace, lag, acts[..|acts| - 1]);
      ForcedKillStep(Exec(Init(grace, lag), acts[..|acts| - 1]), acts[|acts| - 1]);
    }
  }

  // ---------- how a stop call waits and ends ----------

  /** What a stop call is doing, given what it was asked and when. */
  predicate WaitOk(call: StopCall, force: bool, entered: nat, grace: nat, timer: nat) {
    match call
    case ForceWait(until) => force && until == entered + 5000
    case CoopWait(j, until) => !force && j == timer && until == entered + grace + 1000
    case LateWait(until) => !force && until >= entered + grace + 1000 + 10000
    case _ => true
  }

  lemma StopBegins(d: State, force: bool, gone: bool)
    requires Enabled(d, DoStop(force, gone))
    ensures var e, i := Step(d, DoStop(force, gone)), |d.stops|;
            && |e.stops| == i + 1 && e.grace == d.grace
            && WaitOk(e.stops[i], force, d.now, d.grace, |d.timers|)
            && (Finds(d, DoStop(force, gone)) && !NothingToAwait(d.monitor) ==>
                  if force then e.stops[i].ForceWait? else e.stops[i].CoopWait?)
            && (Finds(d, DoStop(force, gone)) && NothingToAwait(d.monitor) && force ==>
                  e.life.status == Aborted)
            && (!Finds(d, DoStop(force, gone)) ==> e.stops[i].Over? && e.life == d.life && e.timers == d.timers)
  {
  }

  lemma WaitStep(d: State, a: Action, i: nat, force: bool, entered: nat, timer: nat)
    requires i < |d.stops| && WaitOk(d.stops[i], force, entered, d.grace, timer)
    ensures var e := Step(d, a);
            i < |e.stops| && e.grace == d.grace && WaitOk(e.stops[i], force, entered, e.grace, timer)
  {
    if !Enabled(d, a) {
    } else if a.DoMonitor? {
      MonitorLeavesStops(d);
    } else if a.DoStop? {
      OtherStops(d, a.force, a.gone, i);
    } else if a.StopResumes? || a.StopTimeout? || a.StopCancel? || a.StopCallback? {
      StopCallIsLocal(d, a);
      StopCallWaits(d, a, i, force, entered, timer);
    }
  }

  lemma StopCallWaits(d: State, a: Action, i: nat, force: bool, entered: nat, timer: nat)
    requires i < |d.stops| && WaitOk(d.stops[i], force, entered, d.grace, timer) && Enabled(d, a)
    requires a.StopResumes? || a.StopTimeout? || a.StopCancel? || a.StopCallback?
    ensures var e := Step(d, a); i < |e.stops| && WaitOk(e.stops[i], force, entered, d.grace, timer)
  {
    match a
    case StopResumes(j) => ResumedStops(d, j);
    case StopTimeout(j) => TimedOutStops(d, j);
    case StopCancel(j) => CancelledStops(d, j);
    case StopCallback(j) =>
  }

  predicate Ends(call: StopCall) {
    call.Over? || call.CallbackWait?
  }

  lemma ConcludedStops(d: State, j: nat)
    requires j < |d.stops|
    ensures var e := ConcludeStop(d, j); e.stops == d.stops[j := e.stops[j]] && Ends(e.stops[j])
  {
  }

  lemma ResumedStops(d: State, j: nat)
    requires StopAwaitsMonitor(d, j)
    ensures var e := StopWakes(d, j); j < |e.stops| && e.stops == d.stops[j := e.stops[j]] && Ends(e.stops[j])
  {
    ConcludedStops(d, j);
  }

  lemma TimedOutStops(d: State, j: nat)
    requires StopAwaitsMonitor(d, j)
    ensures var e := StopTimesOut(d, j);
            && j < |e.stops| && e.stops == d.stops[j := e.stops[j]]
            && (Ends(e.stops[j]) || (d.stops[j].CoopWait? && e.stops[j] == LateWait(d.now + 10000)))
  {
    ConcludedStops(d, j);
  }

  lemma CancelledStops(d: State, j: nat)
    requires j < |d.stops|
    ensures var e := StopIsCancelled(d, j); j < |e.stops| && e.stops == d.stops[j := e.stops[j]] && Ends(e.stops[j])
  {
    ConcludedStops(d, j);
  }

  lemma MonitorLeavesStops(d: State)
    requires MonitorReady(d)
    ensures MonitorWakes(d).stops == d.stops && MonitorWakes(d).grace == d.grace
  {
  }

  lemma OtherStops(d: State, force: bool, gone: bool, i: nat)
    requires Enabled(d, DoStop(force, gone)) && i < |d.stops|
    ensures i < |Step(d, DoStop(force, gone)).stops| && Step(d, DoStop(force, gone)).stops[i] == d.stops[i]
  {
  }

  lemma {:induction false} WaitRun(d: State, rest: seq<Action>, i: nat, force: bool, entered: nat, timer: nat)
    requires i < |d.stops| && WaitOk(d.stops[i], force, entered, d.grace, timer)
    ensures var e := Exec(d, rest);
            i < |e.stops| && e.grace == d.grace && WaitOk(e.stops[i], force, entered, e.grace, timer)
  {
    if rest != [] {
      WaitRun(d, rest[..|rest| - 1], i, force, entered, timer);
      WaitStep(Exec(d, rest[..|rest| - 1]), rest[|rest| - 1], i, force, entered, timer);
    }
  }

  /** At every moment after it was made, a forced call that waits has five seconds from its start, a
      cooperative one the graceful window plus one second, and then ten more. */
  lemma StopDeadlines(d: State, force: bool, gone: bool, rest: seq<Action>)
    requires Enabled(d, DoStop(force, gone))
    ensures var e, i := Exec(Step(d, DoStop(force, gone)), rest), |d.stops|;
            && i < |e.stops|
            && (e.stops[i].ForceWait? ==> force && e.stops[i].until == d.now + 5000)
            && (e.stops[i].CoopWait? ==>
                  !force && e.stops[i].timer == |d.timers| && e.stops[i].until == d.now + d.grace + 1000)
            && (e.stops[i].LateWait? ==> !force && e.stops[i].until >= d.now + d.grace + 11000)
  {
    StopBegins(d, force, gone);
    WaitRun(Step(d, DoStop(force, gone)), rest, |d.stops|, force, d.now, |d.timers|);
  }

  /** The action makes call i raise: the crashed monitor's exception, the timeout of a forced call, or the
      cancellation of its caller, which only the late wait suppresses. */
  predicate Raises(d: State, a: Action, i: nat)
    requires i < |d.stops|
  {
    || (a.StopResumes? && d.monitor.Crashed?)
    || (a.StopTimeout? && d.stops[i].ForceWait?)
    || (a.StopCancel? && !d.stops[i].LateWait?)
  }

  /** The action makes call i wait once more. */
  predicate WaitsOn(d: State, a: Action, i: nat)
    requires i < |d.stops|
  {
    a.StopTimeout? && d.stops[i].CoopWait? && !MonitorDone(d.monitor)
  }

  /** A stop call that ends, and does not raise, leaves the drone terminal, ABORTED if it was not; a
      cooperative one that saw the exit leaves its failsafe not pending.  One that raises changes
      nothing, and one that goes on waiting does so for ten seconds. */
  lemma StopCallEnds(d: State, a: Action, i: nat)
    requires Reachable(d) && i < |d.stops| && Enabled(d, a)
    requires a == StopResumes(i) || a == StopTimeout(i) || a == StopCancel(i)
    ensures var e, call := Step(d, a), d.stops[i];
            && |e.stops| == |d.stops| && e.ops == d.ops
            && (Raises(d, a, i) ==> e.stops[i].Over? && e.life == d.life && e.timers == d.timers)
            && (WaitsOn(d, a, i) ==> e.stops[i] == LateWait(d.now + 10000) && e.life == d.life && e.timers == d.timers)
            && (!Raises(d, a, i) && !WaitsOn(d, a, i) ==>
                  && (e.stops[i].Over? || e.stops[i].CallbackWait?)
                  && IsTerminal(e.life.status)
                  && (e.life.status == if IsTerminal(d.life.status) then d.life.status else Aborted)
                  && (a.StopResumes? && call.CoopWait? && call.timer < |e.timers| ==>
                        !e.timers[call.timer].state.Pending?))
  {
    ReachableShape(d);
    StopCallIsLocal(d, a);
  }

  // ---------- what start() has to get through ----------

  /** The action was taken, enabled, at some point of the run. */
  ghost predicate Taken(grace: nat, lag: nat, acts: seq<Action>, a: Action) {
    acts != [] &&
    var init, last := acts[..|acts| - 1], acts[|acts| - 1];
    Taken(grace, lag, init, a) || (last == a && Enabled(Exec(Init(grace, lag), init), last))
  }

  /** Some step of start() has raised. */
  ghost predicate StartFailed(grace: nat, lag: nat, acts: seq<Action>) {
    acts != [] &&
    var init, last := acts[..|acts| - 1], acts[|acts| - 1];
    StartFailed(grace, lag, init) || (Fails(last) && Enabled(Exec(Init(grace, lag), init), last))
  }

  /** How far start() got is how many of its steps succeeded. */
  ghost predicate StartMatches(
    d: State, created: bool, spawnedOnly: bool, populated: bool, drained: bool, failed: bool) {
    && (d.phase.Broken? <==> failed) && (failed ==> !drained)
    && (d.phase.Started? <==> drained)
    && (d.phase.Draining? ==> populated && !drained)
    && (d.phase.Spawning? ==> created && !d.spawned)
    && (d.phase.Fresh? ==> !created && !populated && !spawnedOnly)
    && (d.spawned <==> populated || spawnedOnly)
    && (populated || spawnedOnly ==> created) && (drained ==> populated)
  }

  /** A step of start() that raises. */
  predicate Fails(a: Action) {
    || a == DoCreate(false) || a == DoDrain(false)
    || (a.DoSpawn? && !(a.ok && a.populated))
  }

  lemma StartStep(d: State, a: Action, created: bool, spawnedOnly: bool, populated: bool, drained: bool, failed: bool)
    requires StartMatches(d, created, spawnedOnly, populated, drained, failed)
    ensures StartMatches(Step(d, a),
                         created || (Enabled(d, a) && a == DoCreate(true)),
                         spawnedOnly || (Enabled(d, a) && a == DoSpawn(true, false)),
                         populated || (Enabled(d, a) && a == DoSpawn(true, true)),
                         drained || (Enabled(d, a) && a == DoDrain(true)),
                         failed || (Enabled(d, a) && Fails(a)))
  {
    if Enabled(d, a) {
      match a
      case StopResumes(_) => StopCallIsLocal(d, a);
      case StopTimeout(_) => StopCallIsLocal(d, a);
      case StopCancel(_) => StopCallIsLocal(d, a);
      case StopCallback(_) => StopCallIsLocal(d, a);
      case DoMonitor => MonitorIsLocal(d);
      case DoStop(force, gone) => EnterStopIsLocal(d, force, gone);
      case _ =>
    }
  }

  lemma {:induction false} StartRun(grace: nat, lag: nat, acts: seq<Action>)
    ensures StartMatches(Exec(Init(grace, lag), acts),
                         Taken(grace, lag, acts, DoCreate(true)), Taken(grace, lag, acts, DoSpawn(true, false)),
                         Taken(grace, lag, acts, DoSpawn(true, true)), Taken(grace, lag, acts, DoDrain(true)),
                         StartFailed(grace, lag, acts))
  {
    if acts != [] {
      var init := acts[..|acts| - 1];
      StartRun(grace, lag, init);
      StartStep(Exec(Init(grace, lag), init), acts[|acts| - 1],
                Taken(grace, lag, init, DoCreate(true)), Taken(grace, lag, init, DoSpawn(true, false)),
                Taken(grace, lag, init, DoSpawn(true, true)), Taken(grace, lag, init, DoDrain(true)),
                StartFailed(grace, lag, init));
    }
  }

  /** A drone has a process if and only if the spawn succeeded, which needs the cgroup's creation to; and
      readers and a monitor if and only if creation, spawn, populate and the first drain all did.  Once a
      step has raised, none of the others is ever taken. */
  lemma StartIff(grace: nat, lag: nat, acts: seq<Action>)
    ensures var d := Exec(Init(grace, lag), acts);
            && (d.spawned <==> && Taken(grace, lag, acts, DoCreate(true))
                               && (|| Taken(grace, lag, acts, DoSpawn(true, true))
                                   || Taken(grace, lag, acts, DoSpawn(true, false))))
            && (!d.monitor.Absent? <==> && Taken(grace, lag, acts, DoCreate(true))
                                        && Taken(grace, lag, acts, DoSpawn(true, true))
                                        && Taken(grace, lag, acts, DoDrain(true)))
            && (d.stdout.NotMade? <==> d.monitor.Absent?) && (d.stderr.NotMade? <==> d.monitor.Absent?)
            && (StartFailed(grace, lag, acts) ==>
                  forall a: Action | a.DoCreate? || a.DoSpawn? || a.DoDrain? :: !Enabled(d, a))
  {
    StartRun(grace, lag, acts);
    InvRun(grace, lag, acts);
  }

  // ---------- how the monitor can crash ----------

  /** The monitor, woken, crashes if and only if the reader it awaited raised; otherwise it waits for a
      reader that still runs, or sweeps the cgroup. */
  lemma MonitorWakesIff(d: State)
    requires Enabled(d, DoMonitor)
    ensures var e := Step(d, DoMonitor);
            && (e.monitor == Crashed(false) <==>
                  (d.monitor.AwaitStdout? && d.stdout.Raised?) || (d.monitor.AwaitStderr? && d.stderr.Raised?))
            && (e.monitor.AwaitStdout? <==> d.monitor.AwaitExit? && d.stdout.Reading?)
            && (e.monitor.AwaitStderr? <==>
                  && d.stderr.Reading? && !d.monitor.AwaitStderr?
                  && (if d.monitor.AwaitExit? then !d.stdout.Reading? else !d.stdout.Raised?))
            && (e.ops != d.ops <==> !e.monitor.Crashed? && !e.monitor.AwaitStdout? && !e.monitor.AwaitStderr?)
            && (e.ops != d.ops ==> e.ops == d.ops + [Kill(Teardown, d.now, true), WaitEmpty, Cleanup])
  {
    SweepDone(d);
    match d.monitor
    case AwaitExit => JoinsDone(d);
    case AwaitStdout => JoinsDone(d);
    case _ =>
  }

  lemma SweepDone(d: State)
    requires d.rc.Some?
    ensures var e := TearDown(d);
            && (e.monitor.Returned? || e.monitor.AwaitCallback?)
            && e.ops == d.ops + [Kill(Teardown, d.now, true), WaitEmpty, Cleanup] && |e.ops| == |d.ops| + 3
  {
  }

  lemma JoinsDone(d: State)
    requires d.rc.Some?
    ensures JoinStderr(d) == if d.stderr.Reading? then d.(monitor := AwaitStderr) else TearDown(d)
    ensures JoinStdout(d) == if d.stdout.Reading? then d.(monitor := AwaitStdout) else JoinStderr(d)
  {
  }

  /** The monitor's status callback over every run: it returned normally only if its callback did, and the
      late crash is the callback's. */
  lemma {:induction false} CallbackIff(grace: nat, lag: nat, acts: seq<Action>)
    ensures var d := Exec(Init(grace, lag), acts);
            && (d.monitor == Crashed(true) <==> Taken(grace, lag, acts, MonitorCallback(false)))
            && (Taken(grace, lag, acts, MonitorCallback(true)) ==> d.monitor.Returned?)
  {
    if acts != [] {
      var d, a := Exec(Init(grace, lag), acts[..|acts| - 1]), acts[|acts| - 1];
      CallbackIff(grace, lag, acts[..|acts| - 1]);
      InvRun(grace, lag, acts[..|acts| - 1]);
      CallbackStep(d, a);
    }
  }

  lemma CallbackStep(d: State, a: Action)
    requires Shape(d)
    ensures var e := Step(d, a);
            && (e.monitor == Crashed(true) <==>
                  d.monitor == Crashed(true) || (a == MonitorCallback(false) && Enabled(d, a)))
            && (d.monitor.Returned? || (a == MonitorCallback(true) && Enabled(d, a)) ==> e.monitor.Returned?)
  {
    if Enabled(d, a) {
      match a
      case StopResumes(_) => StopCallIsLocal(d, a);
      case StopTimeout(_) => StopCallIsLocal(d, a);
      case StopCancel(_) => StopCallIsLocal(d, a);
      case StopCallback(_) => StopCallIsLocal(d, a);
      case DoMonitor => MonitorWakesIff(d);
      case DoStop(force, gone) => StopLeavesMonitor(d, force, gone);
      case _ =>
    }
  }

  ghost predicate CrashOk(d: State) {
    d.monitor == Crashed(false) ==> d.stdout.Raised? || d.stderr.Raised?
  }

  lemma CrashStep(d: State, a: Action)
    requires CrashOk(d) && Shape(d)
    ensures CrashOk(Step(d, a))
  {
    if Enabled(d, a) {
      match a
      case StopResumes(_) => StopCallIsLocal(d, a);
      case StopTimeout(_) => StopCallIsLocal(d, a);
      case StopCancel(_) => StopCallIsLocal(d, a);
      case StopCallback(_) => StopCallIsLocal(d, a);
      case DoMonitor =>
        MonitorIsLocal(d);
        MonitorWakesIff(d);
      case DoStop(force, gone) =>
        EnterStopIsLocal(d, force, gone);
        StopLeavesMonitor(d, force, gone);
      case _ =>
    }
  }

  lemma StopLeavesMonitor(d: State, force: bool, gone: bool)
    ensures EnterStop(d, force, gone).monitor == d.monitor
  {
  }

  lemma {:induction false} CrashRun(grace: nat, lag: nat, acts: seq<Action>)
    ensures CrashOk(Exec(Init(grace, lag), acts))
  {
    if acts != [] {
      CrashRun(grace, lag, acts[..|acts| - 1]);
      InvRun(grace, lag, acts[..|acts| - 1]);
      CrashStep(Exec(Init(grace, lag), acts[..|acts| - 1]), acts[|acts| - 1]);
    }
  }

  /** A monitor that crashed before its sweep did so because a reader raised, and has left the cgroup
      behind: nothing was cleaned up. */
  lemma CrashLeavesCgroup(grace: nat, lag: nat, acts: seq<Action>)
    requires Exec(Init(grace, lag), acts).monitor == Crashed(false)
    ensures var d := Exec(Init(grace, lag), acts);
            && (d.stdout.Raised? || d.stderr.Raised?)
            && Cleanup !in d.ops && WaitEmpty !in d.ops
  {
    CrashRun(grace, lag, acts);
    InvRun(grace, lag, acts);
    NotCleaned(Exec(Init(grace, lag), acts).ops, Exec(Init(grace, lag), acts).spawned);
  }

  lemma NotCleaned(ops: seq<Op>, spawned: bool)
    requires OpsShape(ops, spawned, false)
    ensures Cleanup !in ops && WaitEmpty !in ops
  {
    forall k | 0 <= k < |ops|
      ensures ops[k] != Cleanup && ops[k] != WaitEmpty
    {
      assert spawned && k >= 2 ==> EarlyKill(ops[k]);
    }
  }
}
