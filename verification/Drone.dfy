/** The drone object itself: each method is one atomic region of drone.py, updating the fields
    in place and proved to be exactly one step of the drone's step system. */
module DroneObject {
  import opened Options
  import opened Statuses
  import opened DroneMachine
  import DroneGuarantees

  class Drone {
    const grace: nat
    ghost const lag: nat
    var now: nat                       // the loop's clock
    ghost var phase: Phase
    var spawned: bool                  // _process is not None
    ghost var alive: bool
    var returncode: Option<int>
    var stopping: bool
    var status: ScanStatus
    ghost var attempts: seq<Attempt>
    ghost var announced: seq<ScanStatus>
    var stdoutTask: Reader
    var stderrTask: Reader
    var waitTask: Monitor
    var timers: seq<Timer>
    var stops: seq<StopCall>
    var escalations: nat
    ghost var ops: seq<Op>

    ghost function View(): State
      reads this
    {
      State(grace, lag, now, phase, spawned, alive, returncode, stopping,
            Life(status, attempts, announced), stdoutTask, stderrTask, waitTask,
            timers, stops, escalations, ops)
    }

    ghost predicate Valid()
      reads this
    {
      DroneGuarantees.Inv(View())
    }

    constructor (graceMs: nat, ghost lagMs: nat)
      ensures View() == Init(graceMs, lagMs) && Valid()
    {
      grace, lag, now := graceMs, lagMs, 0;
      phase, spawned, alive, returncode, stopping := Fresh, false, false, None, false;
      status, attempts, announced := NotStarted, [], [];
      stdoutTask, stderrTask, waitTask := NotMade, NotMade, Absent;
      timers, stops, escalations, ops := [], [], 0, [];
      new;
      DroneGuarantees.InvRun(graceMs, lagMs, []);
    }

    /** A method that is one enabled step of the machine keeps the invariant. */
    lemma StepKeepsValid(before: State, a: Action)
      requires DroneGuarantees.Inv(before) && View() == Step(before, a)
      ensures Valid()
    {
      DroneGuarantees.EveryStep(before, a);
      DroneGuarantees.InvKept(before, a, View());
    }

    /** _set_status up to the await of its callback. */
    method SetStatus(ghost actor: Actor, s: ScanStatus)
      modifies this`status, this`attempts, this`announced
      ensures View() == DroneMachine.SetStatus(old(View()), actor, s)
    {
      attempts := attempts + [Attempt(actor, s)];
      if Code(s) <= Code(status) {
        return;
      }
      status := s;
      announced := announced + [s];
    }

    /** The cgroup kill: only its place in the trace matters here. */
    ghost method KillCgroup(cause: Cause)
      modifies this`ops
      ensures View() == DroneMachine.KillCgroup(old(View()), cause)
    {
      ops := ops + [Kill(cause, now, returncode.Some?)];
    }

    /** `if not self.is_terminal: await self._set_status(ABORTED)` at the end of a stop call. */
    method ConcludeStop(i: nat)
      requires i < |stops|
      modifies this`status, this`attempts, this`announced, this`stops
      ensures View() == DroneMachine.ConcludeStop(old(View()), i)
    {
      if IsTerminal(status) {
        stops := stops[i := Over];
      } else {
        SetStatus(Stopper, Aborted);
        stops := stops[i := CallbackWait];
      }
    }

    /** A forced stop once the process is known to be there. */
    method StopForced(i: nat)
      requires i < |stops|
      modifies this`status, this`attempts, this`announced, this`stops, this`ops
      ensures var killed := DroneMachine.KillCgroup(old(View()), Forced);
              View() == if NothingToAwait(waitTask) then DroneMachine.ConcludeStop(killed, i)
                        else killed.(stops := killed.stops[i := ForceWait(now + 5000)])
    {
      KillCgroup(Forced);
      if NothingToAwait(waitTask) {
        ConcludeStop(i);
      } else {
        stops := stops[i := ForceWait(now + 5000)];
      }
    }

    /** A cooperative stop after its SIGTERM: arm the failsafe, then wait for the monitor. */
    method StopCooperative(i: nat)
      requires i < |stops|
      modifies this`timers, this`stops
      ensures timers == old(timers) + [Timer(now, now + grace, !waitTask.Absent?,
                                             if NothingToAwait(waitTask) then Cancelled else Pending)]
      ensures stops == if NothingToAwait(waitTask) then old(stops)
                       else old(stops)[i := CoopWait(|old(timers)|, now + grace + 1000)]
    {
      var handle := |timers|;
      timers := timers + [Timer(now, now + grace, !waitTask.Absent?, Pending)];
      if NothingToAwait(waitTask) {
        CancelHandle(handle);
      } else {
        stops := stops[i := CoopWait(handle, now + grace + 1000)];
      }
    }

    /** TimerHandle.cancel: a no-op on a timer that has fired. */
    method CancelHandle(j: nat)
      modifies this`timers
      ensures View() == CancelTimer(old(View()), j)
    {
      if j < |timers| && timers[j].state.Pending? {
        timers := timers[j := timers[j].(state := Cancelled)];
      }
    }

    /** stop() from its entry to its first suspension. */
    method EnterStop(force: bool, gone: bool)
      modifies this
      ensures View() == DroneMachine.EnterStop(old(View()), force, gone)
    {
      var i := |stops|;
      stopping := true;
      stops := stops + [Over];
      if IsTerminal(status) || !spawned || returncode.Some? || gone {
        return;
      }
      if force {
        StopForced(i);
      } else {
        StopCooperative(i);
      }
    }

    method Stop(force: bool, gone: bool)
      requires Valid() && (gone ==> !alive)
      modifies this
      ensures View() == Step(old(View()), DoStop(force, gone)) && Valid()
    {
      ghost var before := View();
      EnterStop(force, gone);
      StepKeepsValid(before, DoStop(force, gone));
    }

    /** The monitor task a stop call awaits is done. */
    method StopResumes(i: nat)
      requires Valid() && Enabled(View(), DroneMachine.StopResumes(i))
      modifies this
      ensures View() == Step(old(View()), DroneMachine.StopResumes(i)) && Valid()
    {
      ghost var before := View();
      if waitTask.Crashed? {
        stops := stops[i := Over];
      } else if stops[i].CoopWait? {
        var handle := stops[i].timer;
        stops := stops[i := Over];
        CancelHandle(handle);
      } else {
        ConcludeStop(i);
      }
      StepKeepsValid(before, DroneMachine.StopResumes(i));
    }

    method StopTimesOut(i: nat)
      requires Valid() && Enabled(View(), StopTimeout(i))
      modifies this
      ensures View() == Step(old(View()), StopTimeout(i)) && Valid()
    {
      ghost var before := View();
      if stops[i].ForceWait? {
        stops := stops[i := Over];
      } else if stops[i].CoopWait? && !MonitorDone(waitTask) {
        stops := stops[i := LateWait(now + 10000)];
      } else {
        ConcludeStop(i);
      }
      StepKeepsValid(before, StopTimeout(i));
    }

    /** The failsafe's callback: kill, and spawn the task that will set ABORTED, unless the process is known
        to have exited. */
    method Fire(j: nat)
      requires j < |timers|
      modifies this`timers, this`ops, this`escalations
      ensures View() == FireTimer(old(View()), j)
    {
      timers := timers[j := timers[j].(state := Fired)];
      if spawned && returncode.None? {
        KillCgroup(Failsafe(j));
        escalations := escalations + 1;
      }
    }

    /** _force_kill_runaway, called back by the event loop. */
    method ForceKillRunaway(j: nat)
      requires Valid() && Enabled(View(), TimerFires(j))
      modifies this
      ensures View() == Step(old(View()), TimerFires(j)) && Valid()
    {
      ghost var before := View();
      Fire(j);
      StepKeepsValid(before, TimerFires(j));
    }

    /** The task spawned by the failsafe. */
    method RunEscalation()
      requires Valid() && escalations > 0
      modifies this
      ensures View() == Step(old(View()), DoEscalate) && Valid()
    {
      ghost var before := View();
      escalations := escalations - 1;
      SetStatus(Escalation, Aborted);
      StepKeepsValid(before, DoEscalate);
    }

    /** The monitor's tail: sweep the cgroup, then decide the status nobody reported. */
    method TearDown()
      requires returncode.Some?
      modifies this`ops, this`status, this`attempts, this`announced, this`waitTask
      ensures View() == DroneMachine.TearDown(old(View()))
    {
      KillCgroup(Teardown);
      ops := ops + [WaitEmpty, Cleanup];
      if IsTerminal(status) {
        waitTask := Returned;
        return;
      }
      var rc := returncode.value;
      if rc == 0 {
        SetStatus(Watcher, Finished);
      } else if rc == 2 {
        SetStatus(Watcher, Aborted);
      } else if stopping && rc < 0 {
        SetStatus(Watcher, Aborted);
      } else {
        SetStatus(Watcher, Failed);
      }
      waitTask := AwaitCallback;
    }

    /** The monitor from any of its awaits to the next, or to its end: it joins the stdout reader,
        then the stderr reader, each only if still running, and re-raises what they raise. */
    method ResumeMonitor()
      requires Valid() && Enabled(View(), DoMonitor)
      modifies this
      ensures View() == Step(old(View()), DoMonitor) && Valid()
    {
      ghost var before := View();
      if (waitTask.AwaitStdout? && stdoutTask.Raised?) || (waitTask.AwaitStderr? && stderrTask.Raised?) {
        waitTask := Crashed(false);
      } else if waitTask.AwaitExit? && stdoutTask.Reading? {
        waitTask := AwaitStdout;
      } else if !waitTask.AwaitStderr? && stderrTask.Reading? {
        waitTask := AwaitStderr;
      } else {
        TearDown();
      }
      StepKeepsValid(before, DoMonitor);
    }

    /** start() up to its first await: the cgroup exists before the process does. */
    method StartCreate(ok: bool)
      requires Valid() && phase.Fresh?
      modifies this
      ensures View() == Step(old(View()), DoCreate(ok)) && Valid()
    {
      ghost var before := View();
      ops := ops + [Create];
      phase := if ok then Spawning else Broken;
      StepKeepsValid(before, DoCreate(ok));
    }

    /** start() from the spawn to the await of the first drain. */
    method StartSpawned(ok: bool, populated: bool)
      requires Valid() && phase.Spawning?
      modifies this
      ensures View() == Step(old(View()), DoSpawn(ok, populated)) && Valid()
    {
      ghost var before := View();
      if !ok {
        phase := Broken;
      } else {
        spawned, alive := true, true;
        ops := ops + [Populate];
        phase := if populated then Draining else Broken;
      }
      StepKeepsValid(before, DoSpawn(ok, populated));
    }

    /** start() from the drain to its end: only now do the readers and the monitor exist. */
    method StartDrained(ok: bool)
      requires Valid() && phase.Draining?
      modifies this
      ensures View() == Step(old(View()), DoDrain(ok)) && Valid()
    {
      ghost var before := View();
      if !ok {
        phase := Broken;
      } else {
        phase := Started;
        stdoutTask, stderrTask := Reading, Reading;
        waitTask := AwaitExit;
      }
      StepKeepsValid(before, DoDrain(ok));
    }
  }
}
