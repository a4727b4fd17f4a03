/** What a scan's drone and the queen promise together: her record follows the drone's actors in every
    interleaving, and the monitor's verdict reaches the wire after everything the process wrote. */
module BeeTheorems {
  import opened Options
  import opened Statuses
  import D = DroneMachine
  import Guarantees = DroneGuarantees
  import Q = QueenMachine
  import QueenRegistry
  import QueenOrder
  import QueenTerminal
  import QueenEndToEnd
  import DroneInQueen
  import opened Bee

  // ---------- the queen's record of a drone ----------

  lemma ReportsAppend(s: Q.State, acts: seq<Q.Action>, a: Q.Action, d: nat)
    ensures DroneInQueen.ReportsOf(s, acts + [a], d)
         == DroneInQueen.ReportsOf(s, acts, d)
            + if a.Report? && a.d == d && Q.Enabled(Q.Exec(s, acts), a) then [a.status] else []
  {
    assert (acts + [a])[..|acts|] == acts;
  }

  /** What the queen's part of a step reports of drone d. */
  function Reported(part: seq<Q.Action>, d: nat): seq<ScanStatus> {
    if part != [] && part[0].Report? && part[0].d == d then [part[0].status] else []
  }

  lemma ReportsOfPart(s: Q.State, acts: seq<Q.Action>, part: seq<Q.Action>, d: nat)
    requires |part| <= 1 && d < |Q.Exec(s, acts).pool|
    ensures DroneInQueen.ReportsOf(s, acts + part, d) == DroneInQueen.ReportsOf(s, acts, d) + Reported(part, d)
  {
    if part == [] {
      assert acts + part == acts;
    } else {
      assert part == [part[0]];
      ReportsAppend(s, acts, part[0], d);
    }
  }

  lemma AttemptsOfPart(b: State, act: Action, d: nat)
    requires Inv(b) && d < |b.drones|
    ensures d < |Step(b, act).drones| && |QueenPart(b, act)| <= 1
    ensures Guarantees.StatusesOf(Step(b, act).drones[d].life.attempts)
         == Guarantees.StatusesOf(b.drones[d].life.attempts) + Reported(QueenPart(b, act), d)
  {
    var attempts := b.drones[d].life.attempts;
    assert Guarantees.StatusesOf(attempts) + [] == Guarantees.StatusesOf(attempts);
    if act.ByDrone? && Enabled(b, act) {
      AttemptOfStep(b.drones[act.d], act.a);
      var after := Step(b, act).drones[d].life.attempts;
      if act.d == d && |after| > |attempts| {
        assert Guarantees.StatusesOf(after) == Guarantees.StatusesOf(attempts) + [after[|attempts|].status];
      }
    }
  }

  lemma ReportsStep(b: State, act: Action, s: Q.State, acts: seq<Q.Action>, d: nat)
    requires Inv(b) && b.queen == Q.Exec(s, acts) && d < |b.drones|
    requires DroneInQueen.ReportsOf(s, acts, d) == Guarantees.StatusesOf(b.drones[d].life.attempts)
    ensures d < |Step(b, act).drones|
    ensures DroneInQueen.ReportsOf(s, acts + QueenPart(b, act), d)
         == Guarantees.StatusesOf(Step(b, act).drones[d].life.attempts)
  {
    AttemptsOfPart(b, act, d);
    ReportsOfPart(s, acts, QueenPart(b, act), d);
  }

  /** In the queen's run so far, the reports of drone d are the attempts of its actors. */
  ghost predicate Match(b: State, s: Q.State, acts: seq<Q.Action>, d: nat) {
    DroneInQueen.ReportsOf(s, acts, d) ==
    if d < |b.drones| then Guarantees.StatusesOf(b.drones[d].life.attempts) else []
  }

  lemma MatchStep(b: State, act: Action, s: Q.State, acts: seq<Q.Action>, d: nat)
    requires Inv(b) && b.queen == Q.Exec(s, acts) && Match(b, s, acts, d)
    ensures Match(Step(b, act), s, acts + QueenPart(b, act), d)
  {
    DronesGrow(b, act);
    if d < |b.drones| {
      ReportsStep(b, act, s, acts, d);
    } else {
      NotYetReported(b, act, s, acts, d);
    }
  }

  lemma {:induction false} ReportsAreAttempts(config: Config, acts: seq<Action>, d: nat)
    ensures Match(Exec(Init(config), acts), Q.Init(config.sizes, config.maxScans), QueenRun(Init(config), acts), d)
  {
    if acts != [] {
      var init := acts[..|acts| - 1];
      ReportsAreAttempts(config, init, d);
      BeeRun(config, init);
      QueenInBee(Init(config), init);
      MatchStep(Exec(Init(config), init), acts[|acts| - 1], Q.Init(config.sizes, config.maxScans),
                QueenRun(Init(config), init), d);
    }
  }

  lemma NotYetReported(b: State, act: Action, s: Q.State, acts: seq<Q.Action>, d: nat)
    requires Inv(b) && b.queen == Q.Exec(s, acts) && d >= |b.drones|
    requires DroneInQueen.ReportsOf(s, acts, d) == []
    ensures DroneInQueen.ReportsOf(s, acts + QueenPart(b, act), d) == []
    ensures d < |Step(b, act).drones| ==> Guarantees.StatusesOf(Step(b, act).drones[d].life.attempts) == []
  {
    var part := QueenPart(b, act);
    if part == [] {
      assert acts + part == acts;
    } else {
      assert part == [part[0]];
      ReportsAppend(s, acts, part[0], d);
    }
    NewDroneIsFresh(b, act, d);
  }

  lemma NewDroneIsFresh(b: State, act: Action, d: nat)
    requires d >= |b.drones|
    ensures d < |Step(b, act).drones| ==> Step(b, act).drones[d] == D.Init(b.config.grace, b.config.lag)
  {
  }

  /** In every interleaving of the queen and her drones: her record of a drone has the drone's status,
      she has run exactly its announced callbacks, in order, and tracks it under no id once it is
      terminal. */
  lemma QueenFollowsDrone(config: Config, acts: seq<Action>, d: nat)
    requires d < |Exec(Init(config), acts).drones|
    ensures var b := Exec(Init(config), acts);
            && d < |b.queen.pool| && b.queen.pool[d].status == b.drones[d].life.status
            && DroneInQueen.CallbacksOf(Q.Init(config.sizes, config.maxScans), QueenRun(Init(config), acts), d)
               == b.drones[d].life.announced
            && (IsTerminal(b.drones[d].life.status) ==> forall k | k in b.queen.drones :: b.queen.drones[k] != d)
  {
    var b := Exec(Init(config), acts);
    BeeRun(config, acts);
    ReportsAreAttempts(config, acts, d);
    QueenInBee(Init(config), acts);
    DroneInQueen.QueenFollowsReports(config.sizes, config.maxScans, QueenRun(Init(config), acts), d);
    Guarantees.ReachableInv(b.drones[d]);
  }

  // ---------- the monitor's verdict ----------

  /** The monitor of drone d, woken now, decides the terminal status. */
  predicate Decides(b: State, d: nat) {
    Enabled(b, ByDrone(d, D.DoMonitor)) && D.Step(b.drones[d], D.DoMonitor).life != b.drones[d].life
  }

  /** What it decides. */
  function VerdictOf(d: D.State): ScanStatus
    requires d.rc.Some?
  {
    D.Verdict(d.rc.value, d.stopping)
  }

  /** When the monitor decides, each reader has ended at its closed, drained pipe, or has raised. */
  lemma VerdictFindsPipes(config: Config, acts: seq<Action>, d: nat, kind: Q.Kind)
    requires Decides(Exec(Init(config), acts), d)
    ensures var b := Exec(Init(config), acts);
            && (ReaderOf(b.drones[d], kind).Raised?
                || (ReaderOf(b.drones[d], kind).Ended? && Drained(b.queen.pool[d], kind)))
            && b.drones[d].rc.Some?
            && QueenPart(b, ByDrone(d, D.DoMonitor)) == [Q.Report(d, VerdictOf(b.drones[d]))]
            && QueenTerminal.GoesTerminal(b.queen, Q.Report(d, VerdictOf(b.drones[d])))
  {
    BeeRun(config, acts);
    DecidesAfterReaders(Exec(Init(config), acts), d);
  }

  lemma DecidesAfterReaders(b: State, d: nat)
    requires Inv(b) && Decides(b, d)
    ensures var m := b.drones[d];
            && (m.stdout.Raised? || (m.stdout.Ended? && Drained(b.queen.pool[d], Q.Events)))
            && (m.stderr.Raised? || (m.stderr.Ended? && Drained(b.queen.pool[d], Q.Logs)))
            && m.rc.Some?
            && QueenPart(b, ByDrone(d, D.DoMonitor)) == [Q.Report(d, VerdictOf(m))]
            && QueenTerminal.GoesTerminal(b.queen, Q.Report(d, VerdictOf(m)))
  {
    Guarantees.ReachableShape(b.drones[d]);
    DecidesInTearDown(b.drones[d]);
    var after := D.Step(b.drones[d], D.DoMonitor);
    assert after.life.attempts[|b.drones[d].life.attempts|] == D.Attempt(D.Watcher, VerdictOf(b.drones[d]));
  }

  lemma DecidesInTearDown(d: D.State)
    requires D.Shape(d) && D.MonitorReady(d) && D.MonitorWakes(d).life != d.life
    ensures !d.stdout.Reading? && !d.stderr.Reading? && !d.stdout.NotMade? && !d.stderr.NotMade?
    ensures !IsTerminal(d.life.status)
    ensures D.MonitorWakes(d).life == D.Attempted(d.life, D.Attempt(D.Watcher, VerdictOf(d)))
  {
  }

  /** A drone's run that is orderly for one of its streams, up to the moment its monitor decides. */
  ghost predicate DecidesInOrder(config: Config, acts: seq<Action>, d: nat, kind: Q.Kind) {
    var b := Exec(Init(config), acts);
    && Q.ValidSizes(config.sizes)
    && Decides(b, d) && ReaderOf(b.drones[d], kind).Ended?
    && QueenEndToEnd.Alone(b.queen.pool, d)
    && QueenEndToEnd.InOrder(config.sizes, config.maxScans, QueenRun(Init(config), acts),
                             Q.Stream(kind, b.queen.pool[d].scan))
  }

  /** If the reader ended normally, no two flushers ever held the stream and nothing of it was lost,
      then, provided no other task holds it from the verdict on and the report's own sends succeed,
      every line of that kind the process ever wrote is on the wire, in order, before the status
      message.  more: whatever the queen does after the verdict. */
  lemma VerdictComesLast(config: Config, acts: seq<Action>, d: nat, kind: Q.Kind, more: seq<Q.Action>, e: Q.State)
    requires DecidesInOrder(config, acts, d, kind)
    requires Exec(Init(config), acts).drones[d].rc.Some?
    requires var b := Exec(Init(config), acts);
             QueenTerminal.AboutToReport(b.queen, Q.Report(d, VerdictOf(b.drones[d])), more, e,
                                         Q.Stream(kind, b.queen.pool[d].scan))
    requires Q.SendFail(|Exec(Init(config), acts).queen.tasks|) !in more
    ensures var b := Exec(Init(config), acts);
            var rec := b.queen.pool[d];
            && Q.PipeOf(rec, kind).written <= Q.Delivered(e.wire, Q.Stream(kind, rec.scan))
            && Q.Step(e, Q.SendOk(|b.queen.tasks|)).wire
               == e.wire + [Q.Critical(Q.StatusMsg(rec.scan, VerdictOf(b.drones[d])))]
  {
    var b := Exec(Init(config), acts);
    VerdictFindsPipes(config, acts, d, kind);
    QueenInBee(Init(config), acts);
    QueenEndToEnd.EndToEndFifo(config.sizes, config.maxScans, QueenRun(Init(config), acts), d, kind);
    var pipe := Q.PipeOf(b.queen.pool[d], kind);
    ReportAfterTaken(b.queen, Q.Report(d, VerdictOf(b.drones[d])), more, e, Q.Stream(kind, b.queen.pool[d].scan), pipe);
    assert pipe.written[..Q.Taken(pipe)] == pipe.written;
  }

  lemma ReportAfterTaken(s: Q.State, a: Q.Action, more: seq<Q.Action>, e: Q.State, x: Q.Stream, pipe: Q.Pipe)
    requires QueenTerminal.AboutToReport(s, a, more, e, x) && Q.SendFail(|s.tasks|) !in more
    requires pipe.written == Q.Delivered(s.wire, x) + Q.Held(s.tasks, x) + Q.At(s.store.buf, x) + pipe.unread
    ensures Q.Taken(pipe) >= 0 && pipe.written[..Q.Taken(pipe)] <= Q.Delivered(e.wire, x)
    ensures Q.Step(e, Q.SendOk(|s.tasks|)).wire == e.wire + [Q.Critical(Q.StatusMsg(s.pool[a.d].scan, a.status))]
  {
    QueenOrder.NoneHeld(s.tasks, x);
    Trim(Q.Delivered(s.wire, x), Q.Held(s.tasks, x), Q.At(s.store.buf, x), pipe);
    QueenTerminal.DataBeforeTerminalStatus(s, a, more, e, x);
  }

  lemma Trim(d: seq<Q.Item>, held: seq<Q.Item>, b: seq<Q.Item>, pipe: Q.Pipe)
    requires held == [] && pipe.written == d + held + b + pipe.unread
    ensures Q.Taken(pipe) == |d + b| && pipe.written[..Q.Taken(pipe)] == d + b
  {
    assert d + [] + b == d + b;
  }

  // ---------- a status the process reports ----------

  /** The stdout reader of drone d comes to a terminal status line that advances the drone, in a run that
      is orderly for the drone's events. */
  ghost predicate ReportsInOrder(config: Config, acts: seq<Action>, d: nat, status: ScanStatus) {
    var b := Exec(Init(config), acts);
    && Q.ValidSizes(config.sizes)
    && Enabled(b, ByDrone(d, D.StatusLine(status)))
    && IsTerminal(status) && Advances(b.drones[d].life.status, status)
    && QueenEndToEnd.Alone(b.queen.pool, d)
    && QueenEndToEnd.InOrder(config.sizes, config.maxScans, QueenRun(Init(config), acts),
                             Q.Stream(Q.Events, b.queen.pool[d].scan))
  }

  /** Then, provided no other task holds the scan's events from there on and the report's own sends
      succeed, every event the process wrote before that line is on the wire, in order, before the
      status message. */
  lemma ReportedStatusComesLast(
    config: Config, acts: seq<Action>, d: nat, status: ScanStatus, more: seq<Q.Action>, e: Q.State)
    requires ReportsInOrder(config, acts, d, status)
    requires var b := Exec(Init(config), acts);
             QueenTerminal.AboutToReport(b.queen, Q.Report(d, status), more, e,
                                         Q.Stream(Q.Events, b.queen.pool[d].scan))
    requires Q.SendFail(|Exec(Init(config), acts).queen.tasks|) !in more
    ensures var b := Exec(Init(config), acts);
            && d < |b.marks| && b.marks[d] != [] && b.marks[d][0].status == status
            && b.marks[d][0].at == Q.Taken(b.queen.pool[d].out) <= |b.queen.pool[d].out.written|
            && b.queen.pool[d].out.written[..b.marks[d][0].at]
               <= Q.Delivered(e.wire, Q.Stream(Q.Events, b.queen.pool[d].scan))
            && QueenPart(b, ByDrone(d, D.StatusLine(status))) == [Q.Report(d, status)]
            && Q.Step(e, Q.SendOk(|b.queen.tasks|)).wire
               == e.wire + [Q.Critical(Q.StatusMsg(b.queen.pool[d].scan, status))]
  {
    var b := Exec(Init(config), acts);
    QueenInBee(Init(config), acts);
    StatusLineReports(b, d, status);
    QueenEndToEnd.EndToEndFifo(config.sizes, config.maxScans, QueenRun(Init(config), acts), d, Q.Events);
    ReportAfterTaken(b.queen, Q.Report(d, status), more, e, Q.Stream(Q.Events, b.queen.pool[d].scan),
                     b.queen.pool[d].out);
  }

  lemma StatusLineReports(b: State, d: nat, status: ScanStatus)
    requires Enabled(b, ByDrone(d, D.StatusLine(status)))
    ensures d < |b.marks| && b.marks[d] != [] && b.marks[d][0].status == status
    ensures b.marks[d][0].at == Q.Taken(b.queen.pool[d].out)
    ensures QueenPart(b, ByDrone(d, D.StatusLine(status))) == [Q.Report(d, status)]
  {
    var drone := b.drones[d];
    assert D.Step(drone, D.StatusLine(status)).life.attempts == drone.life.attempts + [D.Attempt(D.Stdout, status)];
  }

  // ---------- a reader that raised ----------

  /** What a raised reader left in its pipe stays there, and so never reaches the wire. */
  lemma UnreadStays(b: State, act: Action, d: nat, kind: Q.Kind)
    requires Inv(b) && d < |b.drones| && ReaderOf(b.drones[d], kind).Raised?
    ensures Inv(Step(b, act)) && ReaderOf(Step(b, act).drones[d], kind).Raised?
    ensures Q.PipeOf(b.queen.pool[d], kind).unread <= Q.PipeOf(Step(b, act).queen.pool[d], kind).unread
  {
    if Enabled(b, act) {
      match act
      case ByQueen(q) =>
        QueenActs(b, q);
        One(b.queen, q);
        if !q.Read? || q.d != d || q.kind != kind {
          PipeKept(b.queen, q, d, kind);
        }
      case ByDrone(c, a) =>
        DroneActs(b, c, a);
        Guarantees.ReachableShape(b.drones[d]);
        RaisedStays(b.drones[d], a, kind);
        var part := QueenPart(b, act);
        if part != [] {
          One(b.queen, part[0]);
          PipeKept(b.queen, part[0], d, kind);
        }
      case ByProcess(c, status) => ProcessActs(b, c, status);
    }
  }

  lemma RaisedStays(d: D.State, a: D.Action, kind: Q.Kind)
    requires D.Shape(d) && ReaderOf(d, kind).Raised?
    ensures ReaderOf(D.Step(d, a), kind).Raised?
  {
    ReadersOfStep(d, a);
  }

  lemma PipeKept(s: Q.State, a: Q.Action, d: nat, kind: Q.Kind)
    requires d < |s.pool| && !(a.Read? && a.d == d && a.kind == kind)
    ensures d < |Q.Step(s, a).pool|
    ensures Q.PipeOf(s.pool[d], kind).unread <= Q.PipeOf(Q.Step(s, a).pool[d], kind).unread
  {
    if Q.Enabled(s, a) {
      match a
      case CmdStart(scan, _) => QueenRegistry.HandleDrones(s, scan, Failed);
      case Report(c, status) => QueenRegistry.AttemptPool(s, c, status);
      case _ =>
    }
  }

  lemma {:induction false} UnreadForever(b: State, acts: seq<Action>, d: nat, kind: Q.Kind)
    requires Inv(b) && d < |b.drones| && ReaderOf(b.drones[d], kind).Raised?
    ensures d < |Exec(b, acts).drones| && d < |Exec(b, acts).queen.pool|
    ensures Inv(Exec(b, acts)) && ReaderOf(Exec(b, acts).drones[d], kind).Raised?
    ensures Q.PipeOf(b.queen.pool[d], kind).unread <= Q.PipeOf(Exec(b, acts).queen.pool[d], kind).unread
  {
    if acts != [] {
      UnreadForever(b, acts[..|acts| - 1], d, kind);
      UnreadStays(Exec(b, acts[..|acts| - 1]), acts[|acts| - 1], d, kind);
    }
  }

  /** A drone action that sets no status moves that drone only. */
  lemma Moves(b: State, a: D.Action) returns (e: State)
    requires |b.drones| == 1 && Enabled(b, ByDrone(0, a)) && D.Step(b.drones[0], a).life == b.drones[0].life
    requires !a.StatusLine?
    ensures e == Step(b, ByDrone(0, a)) && e == b.(drones := [D.Step(b.drones[0], a)])
  {
    e := Step(b, ByDrone(0, a));
    assert b.drones[0 := D.Step(b.drones[0], a)] == [D.Step(b.drones[0], a)];
  }

  lemma Then(b: State, acts: seq<Action>, act: Action, e: State) returns (longer: seq<Action>)
    requires e == Step(Exec(b, acts), act)
    ensures longer == acts + [act] && Exec(b, longer) == e
  {
    longer := acts + [act];
    ExecAppend(b, acts, act);
  }

  /** The first event of the first scan. */
  const FIRST := Q.Item(0, 0, "1")

  /** From the start: scan "a" runs, its readers and monitor too. */
  lemma OneScanRuns(config: Config) returns (acts: seq<Action>, b: State)
    requires config.maxScans > 0
    ensures b == Exec(Init(config), acts) && |b.drones| == 1 && |b.queen.pool| == 1
    ensures b.queen.pool[0] == Q.DroneRec("a", NotStarted, 0, false, Q.Pipe([], []), Q.Pipe([], []))
    ensures b.drones[0] == D.Init(config.grace, config.lag).(phase := D.Started, spawned := true, alive := true,
                             ops := [D.Create, D.Populate], stdout := D.Reading, stderr := D.Reading,
                             monitor := D.AwaitExit)
    ensures b.queen.book.accepted == map[] && b.queen.drones == map["a" := 0]
  {
    var start, init := Q.CmdStart("a", true), Init(config);
    One(init.queen, start);
    var b1 := Step(init, ByQueen(start));
    assert b1.drones == [D.Init(config.grace, config.lag)];
    var b2 := Moves(b1, D.DoCreate(true));
    var b3 := Moves(b2, D.DoSpawn(true, true));
    b := Moves(b3, D.DoDrain(true));
    acts := Then(init, [], ByQueen(start), b1);
    acts := Then(init, acts, ByDrone(0, D.DoCreate(true)), b2);
    acts := Then(init, acts, ByDrone(0, D.DoSpawn(true, true)), b3);
    acts := Then(init, acts, ByDrone(0, D.DoDrain(true)), b);
  }

  /** Its process writes an event and closes its pipes, and its stdout reader raises. */
  lemma ReaderRaises(config: Config) returns (acts: seq<Action>, b: State)
    requires config.maxScans > 0
    ensures b == Exec(Init(config), acts) && |b.drones| == 1 && |b.queen.pool| == 1
    ensures b.queen.pool[0].out == Q.Pipe([FIRST], [FIRST]) && Drained(b.queen.pool[0], Q.Logs)
    ensures b.drones[0] == D.Init(config.grace, config.lag).(phase := D.Started, spawned := true, alive := true,
                             ops := [D.Create, D.Populate], stdout := D.Raised, stderr := D.Reading,
                             monitor := D.AwaitExit)
    ensures b.queen.book.accepted == map[]
  {
    var run, b0 := OneScanRuns(config);
    var b1 := Writes(b0);
    var b2 := Moves(b1, D.StdoutEnds(false));
    b := Closes(b2);
    acts := Then(Init(config), run, ByQueen(Q.Write(0, Q.Events, FIRST.text)), b1);
    acts := Then(Init(config), acts, ByDrone(0, D.StdoutEnds(false)), b2);
    acts := Then(Init(config), acts, ByQueen(Q.Close(0)), b);
  }

  lemma Writes(b: State) returns (e: State)
    requires |b.drones| == 1 && |b.queen.pool| == 1 && b.drones[0].spawned
    requires !b.queen.pool[0].closed && b.queen.pool[0].out == Q.Pipe([], [])
    ensures e == Step(b, ByQueen(Q.Write(0, Q.Events, FIRST.text))) && e.drones == b.drones
    ensures e.queen.pool == [b.queen.pool[0].(out := Q.Pipe([FIRST], [FIRST]))] && e.queen.book == b.queen.book
  {
    One(b.queen, Q.Write(0, Q.Events, FIRST.text));
    e := Step(b, ByQueen(Q.Write(0, Q.Events, FIRST.text)));
    assert [] + [FIRST] == [FIRST];
    assert b.queen.pool[0 := e.queen.pool[0]] == [e.queen.pool[0]];
  }

  lemma Closes(b: State) returns (e: State)
    requires |b.drones| == 1 && |b.queen.pool| == 1
    ensures e == Step(b, ByQueen(Q.Close(0))) && e.drones == b.drones
    ensures e.queen.pool == [b.queen.pool[0].(closed := true)] && e.queen.book == b.queen.book
  {
    One(b.queen, Q.Close(0));
    e := Step(b, ByQueen(Q.Close(0)));
  }

  /** A run in which the stdout reader raises before the process exits: the monitor does not notice,
      decides FINISHED, and the event the process wrote is never read. */
  lemma RaisedReaderRun(config: Config) returns (acts: seq<Action>)
    requires config.maxScans > 0
    ensures var b := Exec(Init(config), acts);
            && Decides(b, 0) && b.drones[0].rc == Some(0) && ReaderOf(b.drones[0], Q.Events).Raised?
            && b.queen.pool[0].out == Q.Pipe([FIRST], [FIRST]) && b.queen.book.accepted == map[]
  {
    var run, b := ReaderRaises(config);
    var b1 := Moves(b, D.StderrEnds(true));
    acts := Then(Init(config), run, ByDrone(0, D.StderrEnds(true)), b1);
    var b3, last := Exits(b1);
    acts := Then(Init(config), acts, last[0], Step(b1, last[0]));
    acts := Then(Init(config), acts, last[1], b3);
    Unnoticed(b3);
  }

  lemma Exits(b: State) returns (e: State, acts: seq<Action>)
    requires |b.drones| == 1 == |b.queen.pool| && b.drones[0].spawned && b.drones[0].alive && b.drones[0].rc.None?
    ensures |acts| == 2 && e == Step(Step(b, acts[0]), acts[1])
    ensures e == b.(drones := [b.drones[0].(alive := false, rc := Some(0))])
  {
    acts := [ByDrone(0, D.ProcessDies), ByDrone(0, D.LoopSeesExit(0))];
    var mid := Moves(b, D.ProcessDies);
    e := Moves(mid, D.LoopSeesExit(0));
  }

  lemma Unnoticed(b: State)
    requires |b.drones| == 1 && |b.queen.pool| == 1 && b.drones[0].rc.Some? && b.drones[0].monitor.AwaitExit?
    requires !b.drones[0].stdout.Reading? && !b.drones[0].stderr.Reading? && !IsTerminal(b.drones[0].life.status)
    ensures Decides(b, 0)
  {
    var life := b.drones[0].life;
    assert |D.Step(b.drones[0], D.DoMonitor).life.attempts| == |life.attempts| + 1;
  }
}
