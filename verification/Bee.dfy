/** The bee: the queen and all her drones as one step system, joined where they touch.  The queen runs
    a status callback exactly when a drone's actor sets a status; her buffers are filled by the
    drones' readers, which also find the status lines, in the order the process wrote all of them; and
    a reader ends normally only at a closed, drained pipe. */
module Bee {
  import opened Statuses
  import D = DroneMachine
  import Guarantees = DroneGuarantees
  import Q = QueenMachine
  import QueenRegistry
  import DroneInQueen

  datatype Config = Config(sizes: Q.Sizes, maxScans: int, grace: nat, lag: nat)

  /** A status line on a drone's stdout, not yet read: it stands behind the first `at` event lines. */
  datatype Mark = Mark(at: nat, status: ScanStatus)

  datatype State = State(config: Config, queen: Q.State, drones: seq<D.State>, marks: seq<seq<Mark>>)

  function Init(config: Config): State {
    State(config, Q.Init(config.sizes, config.maxScans), [], [])
  }

  /** An action of the queen, of the channel, or of a process that writes events and log lines; one of a
      drone's actors; or a process that writes a status line. */
  datatype Action = ByQueen(q: Q.Action) | ByDrone(d: nat, a: D.Action) | ByProcess(d: nat, status: ScanStatus)

  function ReaderOf(d: D.State, kind: Q.Kind): D.Reader {
    if kind.Events? then d.stdout else d.stderr
  }

  predicate Drained(rec: Q.DroneRec, kind: Q.Kind) {
    rec.closed && Q.PipeOf(rec, kind).unread == []
  }

  /** The next line on the drone's stdout is a status line. */
  predicate StatusNext(b: State, d: nat) {
    d < |b.marks| && d < |b.queen.pool| && b.marks[d] != [] && b.marks[d][0].at == Q.Taken(b.queen.pool[d].out)
  }

  /** Statuses come from drones only, lines only through a reader that runs, and a reader's loop ends
      by itself only at the end of its pipe.  It may raise at any time. */
  predicate Enabled(b: State, act: Action) {
    match act
    case ByQueen(q) =>
      && Q.Enabled(b.queen, q) && !q.Report?
      && (q.Read? ==> q.d < |b.drones| && ReaderOf(b.drones[q.d], q.kind).Reading?)
      && (q.Read? && q.kind.Events? ==> !StatusNext(b, q.d))
      && (q.Write? ==> q.d < |b.drones| && b.drones[q.d].spawned)
    case ByDrone(d, a) =>
      && d < |b.drones| && d < |b.queen.pool| && D.Enabled(b.drones[d], a)
      && (a.StatusLine? ==> StatusNext(b, d) && b.marks[d][0].status == a.reported)
      && (a == D.StdoutEnds(true) ==> Drained(b.queen.pool[d], Q.Events) && d < |b.marks| && b.marks[d] == [])
      && (a == D.StderrEnds(true) ==> Drained(b.queen.pool[d], Q.Logs))
    case ByProcess(d, _) =>
      d < |b.drones| && d < |b.queen.pool| && d < |b.marks| && b.drones[d].spawned && !b.queen.pool[d].closed
  }

  /** The queen's action in a step of drone d from before to after, if it sets a status. */
  function Callback(d: nat, before: D.State, after: D.State): seq<Q.Action> {
    var n := |before.life.attempts|;
    if n < |after.life.attempts| then [Q.Report(d, after.life.attempts[n].status)] else []
  }

  /** What the queen does in one step of the bee. */
  function QueenPart(b: State, act: Action): seq<Q.Action> {
    if !Enabled(b, act) then []
    else
      match act
      case ByQueen(q) => [q]
      case ByDrone(d, a) => Callback(d, b.drones[d], D.Step(b.drones[d], a))
      case ByProcess(_, _) => []
  }

  function Step(b: State, act: Action): State {
    var queen := Q.Exec(b.queen, QueenPart(b, act));
    if !Enabled(b, act) then b
    else
      match act
      case ByQueen(_) =>
        if |queen.pool| <= |b.queen.pool| then b.(queen := queen)
        else b.(queen := queen, drones := b.drones + [D.Init(b.config.grace, b.config.lag)], marks := b.marks + [[]])
      case ByDrone(d, a) =>
        b.(queen := queen, drones := b.drones[d := D.Step(b.drones[d], a)],
           marks := if a.StatusLine? then b.marks[d := b.marks[d][1..]] else b.marks)
      case ByProcess(d, status) =>
        b.(marks := b.marks[d := b.marks[d] + [Mark(|b.queen.pool[d].out.written|, status)]])
  }

  function Exec(b: State, acts: seq<Action>): State {
    if acts == [] then b else Step(Exec(b, acts[..|acts| - 1]), acts[|acts| - 1])
  }

  lemma ExecAppend(b: State, acts: seq<Action>, act: Action)
    ensures Exec(b, acts + [act]) == Step(Exec(b, acts), act)
  {
    assert (acts + [act])[..|acts|] == acts;
  }

  lemma DronesGrow(b: State, act: Action)
    ensures |b.drones| <= |Step(b, act).drones| <= |b.drones| + 1
  {
  }

  /** The queen's side of a run. */
  function QueenRun(b: State, acts: seq<Action>): seq<Q.Action> {
    if acts == [] then []
    else QueenRun(b, acts[..|acts| - 1]) + QueenPart(Exec(b, acts[..|acts| - 1]), acts[|acts| - 1])
  }

  // ---------- the two systems inside ----------

  /** Every theorem about runs of the queen holds of the queen in the bee. */
  lemma {:induction false} QueenInBee(b: State, acts: seq<Action>)
    ensures Exec(b, acts).queen == Q.Exec(b.queen, QueenRun(b, acts))
  {
    if acts != [] {
      var init := acts[..|acts| - 1];
      QueenInBee(b, init);
      var part := QueenPart(Exec(b, init), acts[|acts| - 1]);
      Q.ExecConcat(b.queen, QueenRun(b, init), part);
      if !Enabled(Exec(b, init), acts[|acts| - 1]) {
        assert QueenRun(b, init) + [] == QueenRun(b, init);
      }
    }
  }

  lemma One(s: Q.State, a: Q.Action)
    ensures Q.Exec(s, [a]) == Q.Step(s, a)
  {
    assert [] + [a] == [a];
    Q.ExecAppend(s, [], a);
  }

  ghost predicate ReaderOk(d: D.State, rec: Q.DroneRec) {
    (d.stdout.Ended? ==> Drained(rec, Q.Events)) && (d.stderr.Ended? ==> Drained(rec, Q.Logs))
  }

  /** The status lines stand in order among the unread events. */
  predicate MarksOk(marks: seq<Mark>, out: Q.Pipe) {
    && (forall k | 0 <= k < |marks| :: Q.Taken(out) <= marks[k].at <= |out.written|)
    && (forall k, l | 0 <= k < l < |marks| :: marks[k].at <= marks[l].at)
  }

  /** One record per drone; every drone is in a state of some run of its own; a reader that ended
      normally left a closed, empty pipe; the record's status is the drone's; and stdout is a queue. */
  ghost predicate Inv(b: State) {
    && |b.drones| == |b.queen.pool| == |b.marks|
    && forall d | 0 <= d < |b.drones| ::
         && MarksOk(b.marks[d], b.queen.pool[d].out)
         && Guarantees.Reachable(b.drones[d])
         && ReaderOk(b.drones[d], b.queen.pool[d])
         && b.queen.pool[d].status == b.drones[d].life.status
  }

  lemma StillReachable(d: D.State, a: D.Action)
    requires Guarantees.Reachable(d)
    ensures Guarantees.Reachable(D.Step(d, a))
  {
    var grace, lag, acts :| d == D.Exec(D.Init(grace, lag), acts);
    Guarantees.ExecAppend(D.Init(grace, lag), acts, a);
    assert D.Step(d, a) == D.Exec(D.Init(grace, lag), acts + [a]);
  }

  lemma FreshDrone(grace: nat, lag: nat)
    ensures Guarantees.Reachable(D.Init(grace, lag))
  {
    assert D.Init(grace, lag) == D.Exec(D.Init(grace, lag), []);
  }

  /** A drone's step makes at most one attempt, and its status follows the ratchet. */
  lemma AttemptOfStep(d: D.State, a: D.Action)
    ensures var e := D.Step(d, a);
            || e.life == d.life
            || (exists at :: Guarantees.Allowed(d, at) && e.life == D.Attempted(d.life, at)
                             && e.life.attempts[|d.life.attempts|] == at
                             && (at.actor.Watcher? ==> D.Cleaned(e.monitor)))
  {
    Guarantees.EveryStepAttempts(d, a);
    var e := D.Step(d, a);
    if e.life != d.life {
      var at :| Guarantees.Allowed(d, at) && e.life == D.Attempted(d.life, at)
                && (at.actor.Watcher? ==> D.Cleaned(e.monitor));
      assert e.life.attempts[|d.life.attempts|] == at;
    }
  }

  lemma ReadersOfStep(d: D.State, a: D.Action)
    ensures var e := D.Step(d, a);
            && (e.stdout.Ended? ==> d.stdout.Ended? || (a == D.StdoutEnds(true) && D.Enabled(d, a)))
            && (e.stderr.Ended? ==> d.stderr.Ended? || (a == D.StderrEnds(true) && D.Enabled(d, a)))
            && (d.stdout.Raised? && d.phase.Started? ==> e.stdout.Raised?)
            && (d.stderr.Raised? && d.phase.Started? ==> e.stderr.Raised?)
  {
    if D.Enabled(d, a) {
      match a
      case StopResumes(_) => D.StopCallIsLocal(d, a);
      case StopTimeout(_) => D.StopCallIsLocal(d, a);
      case StopCancel(_) => D.StopCallIsLocal(d, a);
      case StopCallback(_) => D.StopCallIsLocal(d, a);
      case DoMonitor => D.MonitorIsLocal(d);
      case DoStop(force, gone) => D.EnterStopIsLocal(d, force, gone);
      case _ =>
    }
  }

  /** What the queen's actions leave of the records. */
  lemma RecordsKept(s: Q.State, a: Q.Action, d: nat)
    requires d < |s.pool|
    ensures var e := Q.Step(s, a);
            && d < |e.pool|
            && (!(a.Report? && a.d == d) ==> e.pool[d].status == s.pool[d].status)
            && (forall kind :: Drained(s.pool[d], kind) ==> Drained(e.pool[d], kind))
  {
    DroneInQueen.StatusStep(s, a, d);
    if Q.Enabled(s, a) {
      match a
      case CmdStart(scan, _) => QueenRegistry.HandleDrones(s, scan, Failed);
      case Report(c, status) => QueenRegistry.AttemptPool(s, c, status);
      case _ =>
    }
  }

  /** An action of the queen keeps the status lines in their places, unless it reads past one. */
  lemma MarksStay(marks: seq<Mark>, s: Q.State, a: Q.Action, d: nat)
    requires d < |s.pool| && MarksOk(marks, s.pool[d].out)
    requires a == Q.Read(d, Q.Events) && marks != [] ==> marks[0].at != Q.Taken(s.pool[d].out)
    ensures d < |Q.Step(s, a).pool| && MarksOk(marks, Q.Step(s, a).pool[d].out)
  {
    if Q.Enabled(s, a) {
      match a
      case CmdStart(scan, _) => QueenRegistry.HandleDrones(s, scan, Failed);
      case Report(c, status) => QueenRegistry.AttemptPool(s, c, status);
      case _ =>
    }
  }

  lemma QueenActs(b: State, q: Q.Action)
    requires Inv(b) && Enabled(b, ByQueen(q))
    ensures Inv(Step(b, ByQueen(q)))
  {
    var e := Step(b, ByQueen(q));
    One(b.queen, q);
    QueenRegistry.PoolStep(b.queen, q);
    forall d | 0 <= d < |e.drones|
      ensures Guarantees.Reachable(e.drones[d]) && ReaderOk(e.drones[d], e.queen.pool[d])
      ensures e.queen.pool[d].status == e.drones[d].life.status && MarksOk(e.marks[d], e.queen.pool[d].out)
    {
      if d < |b.drones| {
        RecordsKept(b.queen, q, d);
        MarksStay(b.marks[d], b.queen, q, d);
      } else {
        FreshDrone(b.config.grace, b.config.lag);
      }
    }
  }

  /** The queen's part of a drone's step: at most one report, which leaves pipes and scan ids alone. */
  lemma ReportLeavesPipes(s: Q.State, part: seq<Q.Action>)
    requires part == [] || (|part| == 1 && part[0].Report?)
    ensures var e := Q.Exec(s, part);
            && |e.pool| == |s.pool|
            && forall c | 0 <= c < |s.pool| :: e.pool[c] == s.pool[c].(status := e.pool[c].status)
  {
    if part != [] {
      assert part == [part[0]];
      One(s, part[0]);
      if Q.Enabled(s, part[0]) {
        QueenRegistry.AttemptPool(s, part[0].d, part[0].status);
      }
    }
  }

  lemma DroneActs(b: State, d: nat, a: D.Action)
    requires Inv(b) && Enabled(b, ByDrone(d, a))
    ensures Inv(Step(b, ByDrone(d, a)))
  {
    var e := Step(b, ByDrone(d, a));
    var part := Callback(d, b.drones[d], D.Step(b.drones[d], a));
    AttemptOfStep(b.drones[d], a);
    ReportLeavesPipes(b.queen, part);
    ActingDrone(b, d, a);
    forall c | 0 <= c < |e.drones| && c != d
      ensures e.drones[c] == b.drones[c] && e.queen.pool[c] == b.queen.pool[c] && e.marks[c] == b.marks[c]
    {
      OthersUntouched(b.queen, part, d, c);
    }
  }

  lemma OthersUntouched(s: Q.State, part: seq<Q.Action>, d: nat, c: nat)
    requires part == [] || (|part| == 1 && part[0].Report? && part[0].d == d)
    requires c < |s.pool| && c != d
    ensures c < |Q.Exec(s, part).pool| && Q.Exec(s, part).pool[c] == s.pool[c]
  {
    ReportLeavesPipes(s, part);
    if part != [] {
      assert part == [part[0]];
      One(s, part[0]);
      RecordsKept(s, part[0], c);
    }
  }

  lemma ActingDrone(b: State, d: nat, a: D.Action)
    requires Inv(b) && Enabled(b, ByDrone(d, a))
    ensures var e := Step(b, ByDrone(d, a));
            && d < |e.drones| && d < |e.queen.pool| && d < |e.marks|
            && Guarantees.Reachable(e.drones[d]) && ReaderOk(e.drones[d], e.queen.pool[d])
            && e.queen.pool[d].status == e.drones[d].life.status && MarksOk(e.marks[d], e.queen.pool[d].out)
  {
    var after := D.Step(b.drones[d], a);
    StillReachable(b.drones[d], a);
    AttemptOfStep(b.drones[d], a);
    ReadersOfStep(b.drones[d], a);
    ReportLeavesPipes(b.queen, Callback(d, b.drones[d], after));
    CallbackFollows(b.queen, d, b.drones[d], a);
  }

  /** The callback takes the record's status along with the drone's. */
  lemma CallbackFollows(s: Q.State, d: nat, drone: D.State, a: D.Action)
    requires d < |s.pool| && s.pool[d].status == drone.life.status
    ensures var e := Q.Exec(s, Callback(d, drone, D.Step(drone, a)));
            d < |e.pool| && e.pool[d].status == D.Step(drone, a).life.status
  {
    var part := Callback(d, drone, D.Step(drone, a));
    AttemptOfStep(drone, a);
    if part != [] {
      One(s, part[0]);
      DroneInQueen.StatusStep(s, part[0], d);
    }
  }

  lemma ProcessActs(b: State, d: nat, status: ScanStatus)
    requires Inv(b) && Enabled(b, ByProcess(d, status))
    ensures Inv(Step(b, ByProcess(d, status)))
  {
    var e := Step(b, ByProcess(d, status));
    assert MarksOk(e.marks[d], e.queen.pool[d].out);
  }

  lemma {:induction false} BeeRun(config: Config, acts: seq<Action>)
    ensures Inv(Exec(Init(config), acts))
  {
    if acts != [] {
      var b, act := Exec(Init(config), acts[..|acts| - 1]), acts[|acts| - 1];
      BeeRun(config, acts[..|acts| - 1]);
      if Enabled(b, act) {
        match act
        case ByQueen(q) => QueenActs(b, q);
        case ByDrone(d, a) => DroneActs(b, d, a);
        case ByProcess(d, status) => ProcessActs(b, d, status);
      }
    }
  }
}
