/** The promises of drone.py, over every run of the drone's step system. */
module DroneTheorems {
  import opened Statuses
  import opened DroneMachine
  import opened DroneGuarantees

  // ---------- the order of cgroup operations ----------

  /** ops is a prefix of create, populate, early kills, final kill, wait_empty, cleanup. */
  ghost predicate FollowsLifecycle(ops: seq<Op>) {
    exists early: seq<Op>, last: Op ::
      && (forall op | op in early :: EarlyKill(op))
      && last.Kill? && last.cause.Teardown?
      && ops <= [Create, Populate] + early + [last, WaitEmpty, Cleanup]
  }

  /** Over all interleavings of start, stops, failsafe callbacks and the monitor, the cgroup sees
      its operations in order, every kill but the last while the process is not known to have
      exited, and nothing after cleanup. */
  lemma CgroupOperationOrder(d: State)
    requires Reachable(d)
    ensures FollowsLifecycle(d.ops)
  {
    ReachableShape(d);
    ShapeFollows(d.ops, d.spawned, Cleaned(d.monitor));
  }

  lemma ShapeFollows(ops: seq<Op>, spawned: bool, cleaned: bool)
    requires OpsShape(ops, spawned, cleaned)
    ensures FollowsLifecycle(ops)
  {
    var none := Kill(Teardown, 0, true);
    if !spawned {
      Lifecycle([Create, Populate], [], none);
      Shorter(ops, [Create, Populate]);
    } else if cleaned {
      var n := |ops| - 3;
      assert ops[n..] == [ops[n], WaitEmpty, Cleanup];
      assert ops[2..] == ops[2..n] + ops[n..];
      Lifecycle(ops, ops[2..n], ops[n]);
    } else {
      Lifecycle(ops, ops[2..], none);
    }
  }

  lemma Shorter(ops: seq<Op>, longer: seq<Op>)
    requires ops <= longer && FollowsLifecycle(longer)
    ensures FollowsLifecycle(ops)
  {
  }

  lemma Lifecycle(ops: seq<Op>, early: seq<Op>, last: Op)
    requires last.Kill? && last.cause.Teardown? && (forall op | op in early :: EarlyKill(op))
    requires |ops| >= 2 && ops[..2] == [Create, Populate]
    requires ops[2..] == early || ops[2..] == early + [last, WaitEmpty, Cleanup]
    ensures FollowsLifecycle(ops)
  {
    assert ops == [Create, Populate] + ops[2..];
    var whole := [Create, Populate] + early + [last, WaitEmpty, Cleanup];
    assert whole == [Create, Populate] + (early + [last, WaitEmpty, Cleanup]);
    assert ops <= whole;
  }

  // ---------- the failsafe ----------

  /** The failsafe of stop j has done its duty or still will: the process is known to have exited,
      or the timer is pending, or it issued cgroup.kill once due and at most lag late. */
  ghost predicate Protected(d: State, j: nat)
    requires j < |d.timers|
  {
    || d.rc.Some?
    || d.timers[j].state.Pending?
    || KilledIn(d.ops, j, d.timers[j].due, d.timers[j].due + d.lag)
  }

  /** Whatever is cancelled whenever, a cooperative stop is covered by its failsafe exactly when
      the monitor existed as it armed the timer, that is, when start() had completed. */
  lemma FailsafeGuarantee(d: State, j: nat)
    requires Reachable(d) && j < |d.timers|
    ensures Protected(d, j) <==> (d.timers[j].guarded || d.rc.Some?)
  {
    ReachableInv(d);
    assert TimerOk(d, j);
    if KilledIn(d.ops, j, d.timers[j].due, d.timers[j].due + d.lag) {
      var k :| 0 <= k < |d.ops| && FailsafeKill(d.ops[k], j);
      assert KillOk(d, d.ops[k]);
    }
  }

  /** The process runs no more, or the failsafe of timer j covers it. */
  ghost predicate Covered(d: State, j: nat) {
    !d.alive || (j < |d.timers| && Protected(d, j))
  }

  lemma GuardedStep(d: State, a: Action, e: State, j: nat)
    requires TimersStep(d, a, e) && j < |d.timers| && d.timers[j].guarded
    ensures j < |e.timers| && e.timers[j].guarded
  {
    if a.StopResumes? && e.timers != d.timers {
      var i :| e == CancelTimer(e.(timers := d.timers), i);
    }
  }

  /** No process starts any more. */
  predicate NoMoreStarts(d: State) {
    !d.alive && !d.phase.Fresh? && !d.phase.Spawning?
  }

  lemma NoMoreStartsStep(d: State, a: Action)
    requires NoMoreStarts(d)
    ensures NoMoreStarts(Step(d, a))
  {
    if Enabled(d, a) {
      match a
      case StopResumes(_) => StopCallIsLocal(d, a);
      case StopTimeout(_) => StopCallIsLocal(d, a);
      case StopCancel(_) => StopCallIsLocal(d, a);
      case StopCallback(_) => StopCallIsLocal(d, a);
      case DoMonitor => MonitorIsLocal(d);
      case DoStop(force, gone) => EnterStopIsLocal(d, force, gone);
      case _ =>
    }
  }

  lemma {:induction false} CoveredForever(d: State, rest: seq<Action>, j: nat)
    requires Inv(d) && (NoMoreStarts(d) || (j < |d.timers| && d.timers[j].guarded))
    ensures Inv(Exec(d, rest)) && Covered(Exec(d, rest), j)
    ensures NoMoreStarts(Exec(d, rest)) || (j < |Exec(d, rest).timers| && Exec(d, rest).timers[j].guarded)
  {
    if rest != [] {
      var before, a := Exec(d, rest[..|rest| - 1]), rest[|rest| - 1];
      CoveredForever(d, rest[..|rest| - 1], j);
      EveryStep(before, a);
      InvKept(before, a, Step(before, a));
      if NoMoreStarts(before) {
        NoMoreStartsStep(before, a);
      } else {
        GuardedStep(before, a, Step(before, a), j);
      }
    }
    var e := Exec(d, rest);
    if j < |e.timers| && e.timers[j].guarded {
      assert TimerOk(e, j);
    }
  }

  lemma StopArms(d: State, gone: bool)
    requires Inv(d) && Enabled(d, DoStop(false, gone)) && d.alive && !IsTerminal(d.life.status) && !d.monitor.Absent?
    ensures var e := Step(d, DoStop(false, gone));
            |e.timers| == |d.timers| + 1 && e.timers[|d.timers|].guarded
  {
  }

  /** The call is lost on a process that runs, or may still be spawned. */
  lemma StopLost(d: State, gone: bool) returns (rest: seq<Action>)
    requires Inv(d) && Enabled(d, DoStop(false, gone))
    requires if d.alive then IsTerminal(d.life.status) || d.monitor.Absent? else d.phase.Fresh? || d.phase.Spawning?
    ensures !Covered(Exec(Step(d, DoStop(false, gone)), rest), |d.timers|)
  {
    var e := Step(d, DoStop(false, gone));
    EnterStopIsLocal(d, false, gone);
    EveryStep(d, DoStop(false, gone));
    InvKept(d, DoStop(false, gone), e);
    if d.alive {
      rest := [];
      if |d.timers| < |e.timers| {
        assert TimerOk(e, |d.timers|);
        NotKilledYet(d, e, |d.timers|, e.timers[|d.timers|].due, e.timers[|d.timers|].due + e.lag);
      }
    } else {
      assert e.timers == d.timers == [];
      rest := SpawnsYet(e);
    }
  }

  /** The stop call itself kills nobody, and no failsafe had this number before. */
  lemma NotKilledYet(d: State, e: State, j: nat, lo: nat, hi: nat)
    requires TimerInv(d) && j == |d.timers| && e.ops == d.ops
    ensures !KilledIn(e.ops, j, lo, hi)
  {
    forall k | 0 <= k < |d.ops|
      ensures !FailsafeKill(d.ops[k], j)
    {
      assert KillOk(d, d.ops[k]);
    }
  }

  lemma SpawnsYet(d: State) returns (rest: seq<Action>)
    requires !d.alive && (d.phase.Fresh? || d.phase.Spawning?) && d.timers == []
    ensures Exec(d, rest).alive && Exec(d, rest).timers == []
  {
    var first := if d.phase.Fresh? then [DoCreate(true)] else [];
    var spawning := if d.phase.Fresh? then Step(d, DoCreate(true)) else d;
    assert Exec(d, first) == spawning by {
      ExecAppend(d, [], DoCreate(true));
      assert [] + [DoCreate(true)] == [DoCreate(true)];
    }
    rest := first + [DoSpawn(true, true)];
    ExecAppend(d, first, DoSpawn(true, true));
  }

  /** Stop call by stop call: whatever happens afterwards, the call's own failsafe covers the process, if
      and only if, when it was made, the process ran, the drone was not terminal and the monitor
      existed; or the process did not run and none could be spawned any more. */
  lemma StopCoversIff(grace: nat, lag: nat, acts: seq<Action>, gone: bool)
    requires Enabled(Exec(Init(grace, lag), acts), DoStop(false, gone))
    ensures var d := Exec(Init(grace, lag), acts);
            (forall rest :: Covered(Exec(Step(d, DoStop(false, gone)), rest), |d.timers|)) <==>
            if d.alive then !IsTerminal(d.life.status) && !d.monitor.Absent? else !d.phase.Fresh? && !d.phase.Spawning?
  {
    var d := Exec(Init(grace, lag), acts);
    InvRun(grace, lag, acts);
    if if d.alive then !IsTerminal(d.life.status) && !d.monitor.Absent? else !d.phase.Fresh? && !d.phase.Spawning? {
      var e := Step(d, DoStop(false, gone));
      EveryStep(d, DoStop(false, gone));
      InvKept(d, DoStop(false, gone), e);
      if d.alive {
        StopArms(d, gone);
      } else {
        NoMoreStartsStep(d, DoStop(false, gone));
      }
      forall rest
        ensures Covered(Exec(e, rest), |d.timers|)
      {
        CoveredForever(e, rest, |d.timers|);
      }
    } else {
      var rest := StopLost(d, gone);
    }
  }

  /** No process outlives the graceful window, plus the loop's own delay, unkilled. */
  lemma NoSurvivorPastDeadline(d: State, j: nat)
    requires Reachable(d) && j < |d.timers| && d.timers[j].guarded
    requires d.alive && d.now > d.timers[j].armedAt + d.grace + d.lag
    ensures KilledIn(d.ops, j, d.timers[j].armedAt + d.grace, d.timers[j].armedAt + d.grace + d.lag)
  {
    ReachableInv(d);
    assert TimerOk(d, j);
  }

  /** A stop issued while start() still awaits its first drain loses the failsafe: the process
      then outlives any deadline without a single kill. */
  lemma StopDuringStartHasNoFailsafe(grace: nat, lag: nat) returns (acts: seq<Action>, d: State)
    ensures d == Exec(Init(grace, lag), acts)
    ensures |d.timers| == 1 && !d.timers[0].guarded
    ensures d.alive && d.now > d.timers[0].due + d.lag && d.phase.Started?
    ensures forall op | op in d.ops :: !op.Kill?
  {
    var d0 := Init(grace, lag);
    var d2 := SpawnsIntoDrain(grace, lag);
    var spawn := [DoCreate(true), DoSpawn(true, true)];
    ExecAppend(d0, spawn, DoStop(false, false));
    var d3 := StopsWhileDraining(d2);
    ExecAppend(d0, spawn + [DoStop(false, false)], DoDrain(true));
    var d4 := StartCompletes(d3);
    acts := spawn + [DoStop(false, false)] + [DoDrain(true)] + [Tick(grace + lag + 1)];
    ExecAppend(d0, spawn + [DoStop(false, false)] + [DoDrain(true)], Tick(grace + lag + 1));
    d := Waits(d4, grace + lag + 1);
  }

  lemma SpawnsIntoDrain(grace: nat, lag: nat) returns (d: State)
    ensures d == Exec(Init(grace, lag), [DoCreate(true), DoSpawn(true, true)])
    ensures d == Init(grace, lag).(phase := Draining, spawned := true, alive := true, ops := [Create, Populate])
  {
    d := Init(grace, lag).(phase := Draining, spawned := true, alive := true, ops := [Create, Populate]);
    ExecAppend(Init(grace, lag), [], DoCreate(true));
    ExecAppend(Init(grace, lag), [DoCreate(true)], DoSpawn(true, true));
    assert [] + [DoCreate(true)] == [DoCreate(true)];
    assert [DoCreate(true)] + [DoSpawn(true, true)] == [DoCreate(true), DoSpawn(true, true)];
  }

  lemma StopsWhileDraining(d: State) returns (e: State)
    requires d.phase.Draining? && d.spawned && d.rc.None? && d.monitor.Absent? && !IsTerminal(d.life.status)
    requires d.stops == [] && d.timers == []
    ensures e == Step(d, DoStop(false, false))
    ensures e == d.(stopping := true, stops := [Over], timers := [Timer(d.now, d.now + d.grace, false, Cancelled)])
  {
    e := Step(d, DoStop(false, false));
  }

  lemma StartCompletes(d: State) returns (e: State)
    requires d.phase.Draining?
    ensures e == Step(d, DoDrain(true))
    ensures e == d.(phase := Started, stdout := Reading, stderr := Reading, monitor := AwaitExit)
  {
    e := Step(d, DoDrain(true));
  }

  lemma Waits(d: State, ms: nat) returns (e: State)
    requires |d.timers| == 1 && d.timers[0].state.Cancelled?
    ensures e == Step(d, Tick(ms))
    ensures e == d.(now := d.now + ms)
  {
    e := Step(d, Tick(ms));
  }

  /** Every kill that may hit a live process was forced by a caller, or came from the failsafe of
      some cooperative stop no earlier than its graceful window allows. */
  lemma NoKillBeforeDeadline(d: State, k: nat)
    requires Reachable(d) && k < |d.ops| && d.ops[k].Kill? && !d.ops[k].exited
    ensures d.ops[k].cause.Forced? ||
            exists j :: 0 <= j < |d.timers| && FailsafeKill(d.ops[k], j)
                        && d.timers[j].armedAt + d.grace <= d.ops[k].at
  {
    ReachableInv(d);
    assert KillOk(d, d.ops[k]);
    if d.ops[k].cause.Failsafe? {
      assert TimerOk(d, d.ops[k].cause.timer);
      assert FailsafeKill(d.ops[k], d.ops[k].cause.timer);
    }
  }

  lemma {:induction false} NoForceNoForcedKill(grace: nat, lag: nat, acts: seq<Action>)
    requires forall a | a in acts :: !(a.DoStop? && a.force)
    ensures forall op | op in Exec(Init(grace, lag), acts).ops && op.Kill? :: !op.cause.Forced?
  {
    if acts != [] {
      var before := Exec(Init(grace, lag), acts[..|acts| - 1]);
      var last := acts[|acts| - 1];
      NoForceNoForcedKill(grace, lag, acts[..|acts| - 1]);
      InvRun(grace, lag, acts[..|acts| - 1]);
      EveryStep(before, last);
      NoForcedStep(before, last, Exec(Init(grace, lag), acts));
    }
  }

  lemma NoForcedStep(d: State, a: Action, e: State)
    requires Grows(d, a, e) && !(a.DoStop? && a.force)
    requires forall op | op in d.ops && op.Kill? :: !op.cause.Forced?
    ensures forall op | op in e.ops && op.Kill? :: !op.cause.Forced?
  {
    forall op | op in e.ops && op.Kill?
      ensures !op.cause.Forced?
    {
      var k :| 0 <= k < |e.ops| && e.ops[k] == op;
      if k < |d.ops| {
        assert d.ops[k] in d.ops;
      } else {
        assert op.cause.Teardown? || NewKill(d, a, e, e.ops[k]);
      }
    }
  }

  /** Without a forced stop, nothing kills a live process before some graceful window has passed. */
  lemma NoForceNoEarlyKill(grace: nat, lag: nat, acts: seq<Action>, k: nat)
    requires forall a | a in acts :: !(a.DoStop? && a.force)
    requires k < |Exec(Init(grace, lag), acts).ops|
    requires var op := Exec(Init(grace, lag), acts).ops[k]; op.Kill? && !op.exited
    ensures var d := Exec(Init(grace, lag), acts);
            exists j :: 0 <= j < |d.timers| && FailsafeKill(d.ops[k], j)
                        && d.timers[j].armedAt + d.grace <= d.ops[k].at
  {
    var d := Exec(Init(grace, lag), acts);
    NoForceNoForcedKill(grace, lag, acts);
    assert d.ops[k] in d.ops;
    NoKillBeforeDeadline(d, k);
  }

  // ---------- the status a run ends in ----------

  /** The drone's status is the join of everything its actors attempted, in whatever order, and
      its callbacks are the attempts that beat all earlier ones. */
  lemma StatusIsJoinOfAttempts(d: State) returns (positions: seq<nat>)
    requires Reachable(d)
    ensures IsJoin(d.life.status, multiset(StatusesOf(d.life.attempts)))
    ensures ListsMaxima(StatusesOf(d.life.attempts), positions)
    ensures |positions| == |d.life.announced|
    ensures forall k | 0 <= k < |positions| :: d.life.announced[k] == d.life.attempts[positions[k]].status
    ensures |Terminals(d.life.announced)| <= 3
  {
    ReachableInv(d);
    FinalIsJoin(StatusesOf(d.life.attempts));
    positions := AnnouncedAreMaxima(StatusesOf(d.life.attempts));
    AnnouncedOnce(StatusesOf(d.life.attempts));
  }

  /** Once the failsafe has killed, a run whose escalation tasks have run ends in ABORTED,
      whichever of monitor and escalation ran first. */
  lemma EscalationEndsAborted(d: State)
    requires Reachable(d) && Escalated(d) && d.escalations == 0
    ensures d.life.status == Aborted
  {
    ReachableInv(d);
  }

  /** If the killed process reports no FAILED itself and is reaped as signal-killed, FAILED is never
      announced, not even on the way to ABORTED. */
  lemma EscalationNeverAnnouncesFailed(d: State)
    requires Reachable(d) && Escalated(d)
    requires d.rc.Some? ==> d.rc.value < 0
    requires forall at | at in d.life.attempts && at.actor.Stdout? :: !at.status.Failed?
    ensures Failed !in d.life.announced
  {
    ReachableInv(d);
    var positions := AnnouncedAreMaxima(StatusesOf(d.life.attempts));
    forall k | 0 <= k < |d.life.announced|
      ensures d.life.announced[k] != Failed
    {
      var at := d.life.attempts[positions[k]];
      assert Attributable(at, d.rc, Escalated(d), Cleaned(d.monitor));
    }
  }

  /** Whenever the monitor returns normally the drone is terminal and its cgroup was torn down. */
  lemma MonitorReturnsTerminal(d: State)
    requires Reachable(d) && d.monitor.Returned?
    ensures IsTerminal(d.life.status)
    ensures |d.ops| >= 5 && d.ops[|d.ops| - 1] == Cleanup && d.ops[|d.ops| - 2] == WaitEmpty
  {
    ReachableShape(d);
    CleanedOps(d.ops, d.spawned);
  }

  lemma CleanedOps(ops: seq<Op>, spawned: bool)
    requires spawned && OpsShape(ops, spawned, true)
    ensures |ops| >= 5 && ops[|ops| - 1] == Cleanup && ops[|ops| - 2] == WaitEmpty
  {
    assert SweptAt(ops, |ops| - 3);
  }

  /** A stop call was made in the run. */
  ghost predicate StopCalled(grace: nat, lag: nat, acts: seq<Action>) {
    acts != [] &&
    var init, a := acts[..|acts| - 1], acts[|acts| - 1];
    StopCalled(grace, lag, init) || (a.DoStop? && Enabled(Exec(Init(grace, lag), init), a))
  }

  lemma StoppingStep(d: State, a: Action)
    ensures Step(d, a).stopping <==> d.stopping || (a.DoStop? && Enabled(d, a))
  {
    if Enabled(d, a) && (a.StopResumes? || a.StopTimeout? || a.StopCancel? || a.StopCallback?) {
      StopCallIsLocal(d, a);
    }
  }

  lemma {:induction false} StoppingIffCalled(grace: nat, lag: nat, acts: seq<Action>)
    ensures Exec(Init(grace, lag), acts).stopping <==> StopCalled(grace, lag, acts)
  {
    if acts != [] {
      StoppingIffCalled(grace, lag, acts[..|acts| - 1]);
      StoppingStep(Exec(Init(grace, lag), acts[..|acts| - 1]), acts[|acts| - 1]);
    }
  }

  /** The step of the run that made the n-th attempt. */
  lemma {:induction false} MadeAt(grace: nat, lag: nat, acts: seq<Action>, n: nat) returns (k: nat)
    requires n < |Exec(Init(grace, lag), acts).life.attempts|
    ensures k < |acts|
    ensures var d, at := Exec(Init(grace, lag), acts[..k]), Exec(Init(grace, lag), acts).life.attempts[n];
            Allowed(d, at) && Step(d, acts[k]).life == Attempted(d.life, at) && |d.life.attempts| == n
    ensures var d := Exec(Init(grace, lag), acts[..k]); d.rc.Some? ==> Exec(Init(grace, lag), acts).rc == d.rc
  {
    var last := |acts| - 1;
    var d, e := Exec(Init(grace, lag), acts[..last]), Exec(Init(grace, lag), acts);
    InvRun(grace, lag, acts[..last]);
    EveryStep(d, acts[last]);
    if n < |d.life.attempts| {
      k := MadeAt(grace, lag, acts[..last], n);
      assert acts[..last][..k] == acts[..k] && d.life.attempts[n] == e.life.attempts[n];
    } else {
      k := last;
      var at :| Allowed(d, at) && e.life == Attempted(d.life, at);
    }
  }

  /** When only the monitor attempted terminal statuses, the drone's status is FINISHED exactly for the
      return code 0; ABORTED exactly for 2, and for a signal's negative code if a stop was called before
      the step, the k-th, in which the monitor decided; and FAILED for everything else. */
  lemma MonitorDecides(grace: nat, lag: nat, acts: seq<Action>) returns (k: nat)
    requires Exec(Init(grace, lag), acts).monitor.Returned?
    requires forall at | at in Exec(Init(grace, lag), acts).life.attempts && IsTerminal(at.status) :: at.actor.Watcher?
    ensures var d := Exec(Init(grace, lag), acts);
            && d.rc.Some? && k < |acts|
            && (d.life.status == Finished <==> d.rc.value == 0)
            && (d.life.status == Aborted <==>
                  d.rc.value == 2 || (d.rc.value < 0 && StopCalled(grace, lag, acts[..k])))
            && (d.life.status == Failed <==>
                  d.rc.value != 0 && d.rc.value != 2 && !(d.rc.value < 0 && StopCalled(grace, lag, acts[..k])))
            && Step(Exec(Init(grace, lag), acts[..k]), acts[k]).life
               == Attempted(Exec(Init(grace, lag), acts[..k]).life, Attempt(Watcher, d.life.status))
  {
    var d := Exec(Init(grace, lag), acts);
    InvRun(grace, lag, acts);
    var statuses := StatusesOf(d.life.attempts);
    FinalIsJoin(statuses);
    var n :| 0 <= n < |statuses| && statuses[n] == d.life.status;
    k := MadeAt(grace, lag, acts, n);
    StoppingIffCalled(grace, lag, acts[..k]);
    assert d.life.attempts[n] == Attempt(Watcher, d.life.status);
  }

  /** From the moment the monitor announces a verdict, both readers have finished. */
  lemma VerdictAfterReaders(d: State, at: Attempt)
    requires Reachable(d) && at in d.life.attempts && at.actor.Watcher?
    ensures !d.stdout.Reading? && !d.stderr.Reading?
    ensures d.rc.Some?
  {
    ReachableInv(d);
    assert Attributable(at, d.rc, Escalated(d), Cleaned(d.monitor));
  }
}
