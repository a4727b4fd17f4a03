/** Which commands are never answered, exactly: over every run, and with a run from the start for each way. */
module CommandAnswers {
  import opened ScanProcess
  import D = DroneMachine
  import Guarantees = DroneGuarantees
  import Q = QueenMachine
  import Bee
  import BeeTheorems
  import opened Commands

  /** Whatever is in the drone's pipes can still get to the queen: somebody consumes what is on stdin, and
      somebody reads, or will read, what comes out. */
  predicate LiveDesk(k: Desk, drone: D.State) {
    && (k.stdin != [] ==> k.open && drone.alive)
    && (k.stdin != [] || k.stdout != [] ==> drone.stdout.Reading? || drone.phase.Draining?)
  }

  predicate AllLive(s: State) {
    forall d | 0 <= d < |s.desks| && d < |s.bee.drones| :: LiveDesk(s.desks[d], s.bee.drones[d])
  }

  // ---------- what is stranded stays so ----------

  /** Only a process that was spawned has commands or replies in its pipes. */
  predicate DesksOk(s: State) {
    && |s.desks| == |s.bee.drones| == |s.bee.queen.pool|
    && forall d | 0 <= d < |s.desks| :: s.desks[d].stdin != [] || s.desks[d].stdout != [] ==> s.bee.drones[d].spawned
  }

  /** A spawned process that is gone stays gone, and no reader starts but at the end of start(). */
  lemma SpawnedStep(d: D.State, a: D.Action)
    requires D.Shape(d) && d.spawned
    ensures var e := D.Step(d, a);
            && e.spawned && (e.alive ==> d.alive)
            && (e.stdout.Reading? || e.phase.Draining? ==> d.stdout.Reading? || d.phase.Draining?)
  {
    if D.Enabled(d, a) {
      match a
      case StopResumes(_) => D.StopCallIsLocal(d, a);
      case StopTimeout(_) => D.StopCallIsLocal(d, a);
      case StopCancel(_) => D.StopCallIsLocal(d, a);
      case StopCallback(_) => D.StopCallIsLocal(d, a);
      case DoMonitor => D.MonitorIsLocal(d);
      case DoStop(force, gone) => D.EnterStopIsLocal(d, force, gone);
      case _ =>
    }
  }

  /** A drone inside the bee, over one step of it. */
  lemma DroneStep(b: Bee.State, act: Bee.Action, d: nat)
    requires Bee.Inv(b) && d < |b.drones| && b.drones[d].spawned
    ensures d < |Bee.Step(b, act).drones|
    ensures var now, e := b.drones[d], Bee.Step(b, act).drones[d];
            && e.spawned && (e.alive ==> now.alive)
            && (e.stdout.Reading? || e.phase.Draining? ==> now.stdout.Reading? || now.phase.Draining?)
  {
    if act.ByDrone? && act.d == d {
      Guarantees.ReachableShape(b.drones[d]);
      SpawnedStep(b.drones[d], act.a);
    }
  }

  /** What a step does to one desk, as far as emptiness goes. */
  lemma DeskStep(scanners: Scanners, s: State, a: Action, d: nat)
    requires Bee.Inv(s.bee) && DesksOk(s) && d < |s.desks|
    ensures var k, e := s.desks[d], Step(scanners, s, a);
            && d < |e.desks| && d < |e.bee.drones|
            && (!LiveDesk(k, s.bee.drones[d]) ==> !LiveDesk(e.desks[d], e.bee.drones[d]))
            && (e.desks[d].stdin != [] || e.desks[d].stdout != [] ==> e.bee.drones[d].spawned)
  {
    BeePart(scanners, s, a);
    if a.Elsewhere? && Enabled(s, a) {
      if s.bee.drones[d].spawned {
        DroneStep(s.bee, a.act, d);
      } else {
        Bee.DronesGrow(s.bee, a.act);
      }
    }
  }

  lemma DesksOkStep(scanners: Scanners, s: State, a: Action)
    requires Bee.Inv(s.bee) && DesksOk(s) && Bee.Inv(Step(scanners, s, a).bee)
    requires |Step(scanners, s, a).desks| == |Step(scanners, s, a).bee.drones|
    ensures DesksOk(Step(scanners, s, a))
  {
    var e := Step(scanners, s, a);
    forall d | 0 <= d < |e.desks|
      ensures e.desks[d].stdin != [] || e.desks[d].stdout != [] ==> e.bee.drones[d].spawned
    {
      if d < |s.desks| {
        DeskStep(scanners, s, a, d);
      } else {
        NewDeskIsEmpty(scanners, s, a);
      }
    }
  }

  lemma NewDeskIsEmpty(scanners: Scanners, s: State, a: Action)
    ensures forall d | |s.desks| <= d < |Step(scanners, s, a).desks| :: Step(scanners, s, a).desks[d] == EMPTY_DESK
  {
  }

  lemma {:induction false} DesksRun(scanners: Scanners, config: Bee.Config, acts: seq<Action>)
    ensures DesksOk(Exec(scanners, Init(config), acts)) && Bee.Inv(Exec(scanners, Init(config), acts).bee)
  {
    BeeInside(scanners, config, acts);
    if acts != [] {
      DesksRun(scanners, config, acts[..|acts| - 1]);
      DesksOkStep(scanners, Exec(scanners, Init(config), acts[..|acts| - 1]), acts[|acts| - 1]);
    }
  }

  ghost predicate Stranded(s: State, d: nat) {
    d < |s.desks| && d < |s.bee.drones| && !LiveDesk(s.desks[d], s.bee.drones[d])
  }

  lemma {:induction false} StaysStranded(
    scanners: Scanners, config: Bee.Config, acts: seq<Action>, more: seq<Action>, d: nat)
    requires Stranded(Exec(scanners, Init(config), acts), d)
    ensures Stranded(Exec(scanners, Init(config), acts + more), d)
  {
    if more == [] {
      assert acts + more == acts;
    } else {
      var init, a := more[..|more| - 1], more[|more| - 1];
      StaysStranded(scanners, config, acts, init, d);
      DesksRun(scanners, config, acts + init);
      assert acts + more == (acts + init) + [a];
      ExecAppend(scanners, Init(config), acts + init, a);
      DeskStep(scanners, Exec(scanners, Init(config), acts + init), a, d);
    }
  }

  /** A command or reply in a pipe nobody will empty is there for good, whatever happens, and so the
      requests answered are never the requests made. */
  lemma StrandedForever(scanners: Scanners, config: Bee.Config, acts: seq<Action>, more: seq<Action>, d: nat)
    requires Stranded(Exec(scanners, Init(config), acts), d)
    ensures var e := Exec(scanners, Init(config), acts + more);
            Stranded(e, d) && (e.desks[d].stdin != [] || e.desks[d].stdout != [])
    ensures Answered(Exec(scanners, Init(config), acts + more).handled) != Asked(acts + more)
  {
    StaysStranded(scanners, config, acts, more, d);
    SomethingInFlight(Exec(scanners, Init(config), acts + more).desks, d);
    EveryCommandAnsweredIff(scanners, config, acts + more);
  }

  lemma {:induction false} SomethingInFlight(desks: seq<Desk>, d: nat)
    requires d < |desks| && (desks[d].stdin != [] || desks[d].stdout != [])
    ensures InFlight(desks) != multiset{}
  {
    if d == |desks| - 1 {
      SomethingOnDesk(desks[d]);
      assert |InFlight(desks)| >= |OnDesk(desks[d])|;
    } else {
      SomethingInFlight(desks[..|desks| - 1], d);
      assert |InFlight(desks)| >= |InFlight(desks[..|desks| - 1])|;
    }
  }

  lemma SomethingOnDesk(k: Desk)
    requires k.stdin != [] || k.stdout != []
    ensures |OnDesk(k)| > 0
  {
    assert |OnDesk(k)| == |k.stdin| + |k.stdout|;
  }

  lemma {:induction false} DroppedGrows(scanners: Scanners, config: Bee.Config, acts: seq<Action>, more: seq<Action>)
    ensures Dropped(scanners, config, acts) <= Dropped(scanners, config, acts + more)
    ensures NoForwards(more) ==> Dropped(scanners, config, acts + more) == Dropped(scanners, config, acts)
  {
    if more == [] {
      assert acts + more == acts;
    } else {
      var init, a := more[..|more| - 1], more[|more| - 1];
      DroppedGrows(scanners, config, acts, init);
      assert (acts + more)[..|acts + more| - 1] == acts + init && (acts + more)[|acts + more| - 1] == a;
    }
  }

  // ---------- what is not stranded can be answered ----------

  predicate NoForwards(acts: seq<Action>) {
    forall k | 0 <= k < |acts| :: !acts[k].Forward?
  }

  /** e differs from s at desk d and drone d only. */
  ghost predicate OnlyAt(s: State, e: State, d: nat) {
    && |e.desks| == |s.desks| && |e.bee.drones| == |s.bee.drones| && |e.bee.queen.pool| == |s.bee.queen.pool|
    && forall c | 0 <= c < |s.desks| && c < |s.bee.drones| && c != d ::
         e.desks[c] == s.desks[c] && e.bee.drones[c] == s.bee.drones[c]
  }

  predicate Sized(s: State) {
    |s.desks| == |s.bee.drones| == |s.bee.queen.pool|
  }

  lemma Prepend(scanners: Scanners, s: State, a: Action, more: seq<Action>, d: nat) returns (acts: seq<Action>)
    requires !a.Forward? && NoForwards(more) && Sized(s)
    requires OnlyAt(s, Step(scanners, s, a), d)
    requires OnlyAt(Step(scanners, s, a), Exec(scanners, Step(scanners, s, a), more), d)
    ensures NoForwards(acts) && Exec(scanners, s, acts) == Exec(scanners, Step(scanners, s, a), more)
    ensures OnlyAt(s, Exec(scanners, s, acts), d)
  {
    acts := [a] + more;
    ExecFront(scanners, s, a, more);
  }

  /** The process answers everything on its stdin. */
  lemma {:induction false} ConsumesAll(scanners: Scanners, s: State, d: nat) returns (acts: seq<Action>)
    requires Sized(s) && d < |s.desks| && (s.desks[d].stdin != [] ==> s.desks[d].open && s.bee.drones[d].alive)
    ensures NoForwards(acts) && OnlyAt(s, Exec(scanners, s, acts), d)
    ensures Exec(scanners, s, acts).bee == s.bee && Exec(scanners, s, acts).desks[d].stdin == []
    ensures s.desks[d].stdin == [] ==> Exec(scanners, s, acts) == s
    decreases |s.desks[d].stdin|
  {
    if s.desks[d].stdin == [] {
      acts := [];
    } else {
      var e := Step(scanners, s, Consume(d));
      assert e.desks[d] == ConsumeOne(scanners(d), s.desks[d]);
      var more := ConsumesAll(scanners, e, d);
      acts := Prepend(scanners, s, Consume(d), more, d);
    }
  }

  /** The drone's reader takes everything off stdout. */
  lemma {:induction false} ReadsAll(scanners: Scanners, s: State, d: nat) returns (acts: seq<Action>)
    requires Sized(s) && d < |s.desks| && s.desks[d].stdin == []
    requires s.desks[d].stdout != [] ==> s.bee.drones[d].stdout.Reading?
    ensures NoForwards(acts) && OnlyAt(s, Exec(scanners, s, acts), d)
    ensures var k := Exec(scanners, s, acts).desks[d]; k.stdin == [] && k.stdout == []
    decreases |s.desks[d].stdout|
  {
    if s.desks[d].stdout == [] {
      acts := [];
    } else {
      var e := Step(scanners, s, ReadResult(d));
      assert e == ReadFrom(s, d);
      var more := ReadsAll(scanners, e, d);
      acts := Prepend(scanners, s, ReadResult(d), more, d);
    }
  }

  /** start() goes on, if it is still waiting for its first drain. */
  lemma StartGoesOn(scanners: Scanners, s: State, d: nat) returns (acts: seq<Action>)
    requires Sized(s) && d < |s.desks|
    ensures NoForwards(acts) && OnlyAt(s, Exec(scanners, s, acts), d)
    ensures var e := Exec(scanners, s, acts);
            && e.desks == s.desks && e.bee.drones[d].alive == s.bee.drones[d].alive
            && (s.bee.drones[d].phase.Draining? || s.bee.drones[d].stdout.Reading? ==> e.bee.drones[d].stdout.Reading?)
  {
    if s.bee.drones[d].phase.Draining? {
      var a := Elsewhere(Bee.ByDrone(d, D.DoDrain(true)));
      acts := [a];
      ExecFront(scanners, s, a, []);
      assert [a] + [] == [a];
      DrainsAlone(s.bee, d);
      assert s.desks + [] == s.desks;
    } else {
      acts := [];
    }
  }

  lemma DrainsAlone(b: Bee.State, d: nat)
    requires d < |b.drones| == |b.queen.pool| && b.drones[d].phase.Draining?
    ensures Bee.Enabled(b, Bee.ByDrone(d, D.DoDrain(true)))
    ensures var e := Bee.Step(b, Bee.ByDrone(d, D.DoDrain(true)));
            && e.queen == b.queen && e.drones == b.drones[d := e.drones[d]]
            && e.drones[d].alive == b.drones[d].alive && e.drones[d].stdout.Reading?
  {
  }

  /** Everything in one live drone's pipes gets to the queen; the other drones and desks stay as they are. */
  lemma Serves(scanners: Scanners, s: State, d: nat) returns (acts: seq<Action>)
    requires Sized(s) && d < |s.desks| && LiveDesk(s.desks[d], s.bee.drones[d])
    ensures NoForwards(acts) && OnlyAt(s, Exec(scanners, s, acts), d)
    ensures var k := Exec(scanners, s, acts).desks[d]; k.stdin == [] && k.stdout == []
  {
    if s.desks[d].stdin == [] && s.desks[d].stdout == [] {
      acts := [];
    } else {
      var first := StartGoesOn(scanners, s, d);
      var s1 := Exec(scanners, s, first);
      var second := ConsumesAll(scanners, s1, d);
      var s2 := Exec(scanners, s1, second);
      var third := ReadsAll(scanners, s2, d);
      acts := first + (second + third);
      ExecConcat(scanners, s1, second, third);
      ExecConcat(scanners, s, first, second + third);
    }
  }

  lemma {:induction false} ServesAll(scanners: Scanners, s: State, n: nat) returns (acts: seq<Action>)
    requires Sized(s) && AllLive(s) && n <= |s.desks|
    ensures NoForwards(acts)
    ensures var e := Exec(scanners, s, acts);
            && Sized(e) && |e.desks| == |s.desks|
            && (forall d | 0 <= d < n :: e.desks[d].stdin == [] && e.desks[d].stdout == [])
            && (forall d | n <= d < |s.desks| :: e.desks[d] == s.desks[d] && e.bee.drones[d] == s.bee.drones[d])
  {
    if n == 0 {
      acts := [];
    } else {
      var first := ServesAll(scanners, s, n - 1);
      var mid := Exec(scanners, s, first);
      assert LiveDesk(s.desks[n - 1], s.bee.drones[n - 1]);
      var last := Serves(scanners, mid, n - 1);
      acts := first + last;
      ExecConcat(scanners, s, first, last);
    }
  }

  lemma {:induction false} EmptyDesks(desks: seq<Desk>)
    requires forall d | 0 <= d < |desks| :: desks[d].stdin == [] && desks[d].stdout == []
    ensures InFlight(desks) == multiset{}
  {
    if desks != [] {
      EmptyDesks(desks[..|desks| - 1]);
      assert OnDesk(desks[|desks| - 1]) == multiset{};
    }
  }

  // ---------- the exact condition ----------

  /** Some way of going on, without further commands, answers everything that was asked. */
  ghost predicate Answerable(scanners: Scanners, config: Bee.Config, acts: seq<Action>) {
    exists more :: NoForwards(more) && Answered(Exec(scanners, Init(config), acts + more).handled) == Asked(acts + more)
  }

  /** Over every run: everything asked can still be answered if and only if no write to a running process
      failed with an untranslated error, and every drone with something in its pipes has a process that
      consumes it and a reader that reads, or will read, what comes out. */
  lemma AnswerableIff(scanners: Scanners, config: Bee.Config, acts: seq<Action>)
    ensures Answerable(scanners, config, acts) <==>
            && Dropped(scanners, config, acts) == multiset{}
            && AllLive(Exec(scanners, Init(config), acts))
  {
    var s := Exec(scanners, Init(config), acts);
    DesksRun(scanners, config, acts);
    if Answerable(scanners, config, acts) {
      var more :| NoForwards(more)
                  && Answered(Exec(scanners, Init(config), acts + more).handled) == Asked(acts + more);
      EveryCommandAnsweredIff(scanners, config, acts + more);
      DroppedGrows(scanners, config, acts, more);
      forall d | 0 <= d < |s.desks| && d < |s.bee.drones|
        ensures LiveDesk(s.desks[d], s.bee.drones[d])
      {
        if !LiveDesk(s.desks[d], s.bee.drones[d]) {
          StrandedForever(scanners, config, acts, more, d);
        }
      }
    }
    if Dropped(scanners, config, acts) == multiset{} && AllLive(s) {
      var more := ServesAll(scanners, s, |s.desks|);
      ExecConcat(scanners, Init(config), acts, more);
      EmptyDesks(Exec(scanners, s, more).desks);
      DroppedGrows(scanners, config, acts, more);
      EveryCommandAnsweredIff(scanners, config, acts + more);
    }
  }

  // ---------- runs from the start that leave a command unanswered ----------

  function Lift(acts: seq<Bee.Action>): seq<Action> {
    seq(|acts|, i requires 0 <= i < |acts| => Elsewhere(acts[i]))
  }

  /** No command has reached any desk. */
  predicate Untouched(s: State) {
    && s.handled == [] && |s.desks| == |s.bee.drones|
    && forall d | 0 <= d < |s.desks| :: s.desks[d] == EMPTY_DESK
  }

  lemma {:induction false} LiftRun(scanners: Scanners, config: Bee.Config, acts: seq<Bee.Action>)
    ensures Exec(scanners, Init(config), Lift(acts)).bee == Bee.Exec(Bee.Init(config), acts)
    ensures Untouched(Exec(scanners, Init(config), Lift(acts)))
  {
    if acts != [] {
      var init, a := acts[..|acts| - 1], acts[|acts| - 1];
      LiftRun(scanners, config, init);
      assert Lift(acts) == Lift(init) + [Elsewhere(a)];
      ExecAppend(scanners, Init(config), Lift(init), Elsewhere(a));
      LiftStep(scanners, Exec(scanners, Init(config), Lift(init)), a);
    }
  }

  lemma {:induction false} NothingAsked(scanners: Scanners, config: Bee.Config, acts: seq<Action>)
    requires NoForwards(acts)
    ensures Asked(acts) == multiset{} == Dropped(scanners, config, acts)
  {
    if acts != [] {
      NothingAsked(scanners, config, acts[..|acts| - 1]);
    }
  }

  lemma LiftStep(scanners: Scanners, s: State, act: Bee.Action)
    requires Untouched(s)
    ensures Step(scanners, s, Elsewhere(act)).bee == Bee.Step(s.bee, act)
    ensures Untouched(Step(scanners, s, Elsewhere(act)))
  {
    BeePart(scanners, s, Elsewhere(act));
    NewDeskIsEmpty(scanners, s, Elsewhere(act));
    Bee.DronesGrow(s.bee, act);
  }

  /** Scan "a" runs, with its readers and monitor, and no command has been forwarded. */
  lemma ScanRuns(scanners: Scanners, config: Bee.Config) returns (acts: seq<Action>, s: State)
    requires config.maxScans > 0
    ensures s == Exec(scanners, Init(config), acts) && s.handled == [] && s.desks == [EMPTY_DESK]
    ensures |s.bee.drones| == 1 && s.bee.queen.drones == map["a" := 0]
    ensures var drone := s.bee.drones[0];
            drone.spawned && drone.alive && drone.rc.None? && drone.stdout.Reading?
    ensures Asked(acts) == multiset{} == Dropped(scanners, config, acts)
    ensures |s.bee.queen.pool| == 1
  {
    var run, b := BeeTheorems.OneScanRuns(config);
    LiftRun(scanners, config, run);
    NothingAsked(scanners, config, Lift(run));
    acts, s := Lift(run), Exec(scanners, Init(config), Lift(run));
  }

  lemma Counts(scanners: Scanners, config: Bee.Config, acts: seq<Action>, a: Action)
    ensures Asked(acts + [a]) == Asked(acts) + if a.Forward? then multiset{a.cmd} else multiset{}
    ensures Dropped(scanners, config, acts + [a]) ==
            Dropped(scanners, config, acts) + DroppedNow(Exec(scanners, Init(config), acts), a)
  {
    assert (acts + [a])[..|acts|] == acts;
  }

  /** The command is on the stdin of a running process. */
  lemma CommandWritten(scanners: Scanners, config: Bee.Config, cmd: Cmd) returns (acts: seq<Action>, s: State)
    requires config.maxScans > 0
    ensures s == Exec(scanners, Init(config), acts) && s.handled == []
    ensures s.desks == [EMPTY_DESK.(stdin := [cmd])] && |s.bee.drones| == 1 == |s.bee.queen.pool|
    ensures s.bee.drones[0].spawned && s.bee.drones[0].alive && s.bee.drones[0].stdout.Reading?
    ensures Asked(acts) == multiset{cmd} && Dropped(scanners, config, acts) == multiset{}
  {
    var run, s0 := ScanRuns(scanners, config);
    var a := Forward("a", cmd, Drained);
    acts := run + [a];
    ExecAppend(scanners, Init(config), run, a);
    Counts(scanners, config, run, a);
    s := Step(scanners, s0, a);
    assert [] + [cmd] == [cmd];
  }

  /** The process dies with the command on its stdin: nothing was dropped, and the command is never
      answered. */
  lemma ProcessDiesFirst(scanners: Scanners, config: Bee.Config, cmd: Cmd) returns (acts: seq<Action>)
    requires config.maxScans > 0
    ensures var s := Exec(scanners, Init(config), acts);
            && |s.desks| == 1 == |s.bee.drones| && s.desks[0].stdin == [cmd] && !s.bee.drones[0].alive
    ensures Dropped(scanners, config, acts) == multiset{}
    ensures forall more :: Answered(Exec(scanners, Init(config), acts + more).handled) != Asked(acts + more)
  {
    var run, s := CommandWritten(scanners, config, cmd);
    var a := Elsewhere(Bee.ByDrone(0, D.ProcessDies));
    acts := run + [a];
    ExecAppend(scanners, Init(config), run, a);
    Counts(scanners, config, run, a);
    DiesAlone(s.bee);
    assert Step(scanners, s, a).desks == s.desks + [] == s.desks;
    forall more
      ensures Answered(Exec(scanners, Init(config), acts + more).handled) != Asked(acts + more)
    {
      StrandedForever(scanners, config, acts, more, 0);
    }
  }

  lemma DiesAlone(b: Bee.State)
    requires |b.drones| == 1 == |b.queen.pool| && b.drones[0].alive
    ensures Bee.Enabled(b, Bee.ByDrone(0, D.ProcessDies))
    ensures Bee.Step(b, Bee.ByDrone(0, D.ProcessDies)).drones == [b.drones[0].(alive := false)]
  {
  }

  /** The scan ends and the process cancels its command reader with the command on its stdin: the process
      lives, and the command is never answered. */
  lemma ListenerStopsFirst(scanners: Scanners, config: Bee.Config, cmd: Cmd) returns (acts: seq<Action>)
    requires config.maxScans > 0
    ensures var s := Exec(scanners, Init(config), acts);
            && |s.desks| == 1 == |s.bee.drones| && s.desks[0].stdin == [cmd] && s.bee.drones[0].alive
    ensures Dropped(scanners, config, acts) == multiset{}
    ensures forall more :: Answered(Exec(scanners, Init(config), acts + more).handled) != Asked(acts + more)
  {
    var run, s := CommandWritten(scanners, config, cmd);
    acts := run + [StopListening(0)];
    ExecAppend(scanners, Init(config), run, StopListening(0));
    Counts(scanners, config, run, StopListening(0));
    forall more
      ensures Answered(Exec(scanners, Init(config), acts + more).handled) != Asked(acts + more)
    {
      StrandedForever(scanners, config, acts, more, 0);
    }
  }

  /** The drain raises an error the drone does not translate: nothing is in any pipe, and the command is
      never answered. */
  lemma DrainRaises(scanners: Scanners, config: Bee.Config, cmd: Cmd) returns (acts: seq<Action>)
    requires config.maxScans > 0
    ensures Dropped(scanners, config, acts) == multiset{cmd}
    ensures InFlight(Exec(scanners, Init(config), acts).desks) == multiset{}
    ensures forall more :: Answered(Exec(scanners, Init(config), acts + more).handled) != Asked(acts + more)
  {
    var run, s := ScanRuns(scanners, config);
    var a := Forward("a", cmd, OtherError);
    acts := run + [a];
    ExecAppend(scanners, Init(config), run, a);
    Counts(scanners, config, run, a);
    EmptyDesks(s.desks);
    DroppedForever(scanners, config, acts);
  }

  lemma DroppedForever(scanners: Scanners, config: Bee.Config, acts: seq<Action>)
    requires Dropped(scanners, config, acts) != multiset{}
    ensures forall more :: Answered(Exec(scanners, Init(config), acts + more).handled) != Asked(acts + more)
  {
    forall more
      ensures Answered(Exec(scanners, Init(config), acts + more).handled) != Asked(acts + more)
    {
      DroppedGrows(scanners, config, acts, more);
      EveryCommandAnsweredIff(scanners, config, acts + more);
    }
  }
}
