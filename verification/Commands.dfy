/** The command pipeline across the bee: the queen routes a command by her registry, the drone writes it
    to its process, the process answers on stdout, and the drone's reader hands the answer to the
    queen; a command that cannot be routed or written the queen answers herself.

    Only the outcome of draining stdin belongs to the environment.  Replies are counted where they
    reach the queen's handler of command results.  Commands are well-formed objects. */
module Commands {
  import opened Statuses
  import opened ScanProcess
  import D = DroneMachine
  import Q = QueenMachine
  import QueenRegistry
  import Bee

  /** How awaiting stdin's drain ends: normally, with BrokenPipeError, or with any other error, which
      the drone does not translate and the queen does not answer. */
  datatype Drain = Drained | BrokenPipe | OtherError

  /** One process's end of the pipeline: written and not consumed, consumed, answered and not read.
      open: the process has not cancelled its command reader, as it does when its scan ends. */
  datatype Desk = Desk(stdin: seq<Cmd>, dispatched: nat, stdout: seq<Reply>, open: bool)

  /** A reply at the queen: read from drone d, or made up by the queen herself. */
  datatype Handled = FromDrone(d: nat, reply: Reply) | FromQueen(reply: Reply)

  datatype State = State(bee: Bee.State, desks: seq<Desk>, handled: seq<Handled>)

  const EMPTY_DESK := Desk([], 0, [], true)

  function Init(config: Bee.Config): State {
    State(Bee.Init(config), [], [])
  }

  /** What the handlers of drone d's scanner do, command by command. */
  type Scanners = nat -> Scanner

  datatype Action =
    | Elsewhere(act: Bee.Action)
    | Forward(scan: string, cmd: Cmd, drain: Drain)
    | Consume(d: nat)
    | StopListening(d: nat)
    | ReadResult(d: nat)

  // ---------- routing ----------

  datatype Route = NotTracked | NotRunning | ToDrone(d: nat)

  /** _handle_command looks the scan up; send_command looks at the process. */
  function RouteOf(b: Bee.State, scan: string): Route {
    if scan !in b.queen.drones || b.queen.drones[scan] >= |b.drones| then NotTracked
    else
      var drone := b.drones[b.queen.drones[scan]];
      if !drone.spawned || drone.rc.Some? then NotRunning else ToDrone(b.queen.drones[scan])
  }

  function Refusal(cmd: Cmd, route: Route): Reply {
    Reply(cmd.name, cmd.requestId, Failure(if route.NotTracked? then "scan_not_active" else "drone_send_failed"))
  }

  predicate Enabled(s: State, a: Action) {
    match a
    case Elsewhere(act) =>
      && Bee.Enabled(s.bee, act)
      && (act.ByDrone? && act.a == D.StdoutEnds(true) ==> act.d < |s.desks| && s.desks[act.d].stdout == [])
    case Forward(scan, _, _) => true
    case Consume(d) =>
      d < |s.desks| && d < |s.bee.drones| && s.bee.drones[d].alive && s.desks[d].open && s.desks[d].stdin != []
    case StopListening(d) => d < |s.desks|
    case ReadResult(d) =>
      d < |s.desks| && d < |s.bee.drones| && s.bee.drones[d].stdout.Reading? && s.desks[d].stdout != []
  }

  function ForwardTo(s: State, scan: string, cmd: Cmd, drain: Drain): State {
    ForwardAlong(s, RouteOf(s.bee, scan), cmd, drain)
  }

  function ForwardAlong(s: State, route: Route, cmd: Cmd, drain: Drain): State {
    if !route.ToDrone? || drain.BrokenPipe? then s.(handled := s.handled + [FromQueen(Refusal(cmd, route))])
    else if drain.OtherError? || route.d >= |s.desks| then s
    else s.(desks := s.desks[route.d := s.desks[route.d].(stdin := s.desks[route.d].stdin + [cmd])])
  }

  /** Every drone has its desk. */
  function WithBee(s: State, bee: Bee.State): State {
    s.(bee := bee, desks := s.desks + if |bee.drones| > |s.bee.drones| then [EMPTY_DESK] else [])
  }

  /** The process takes a command off its stdin and writes the answer. */
  function ConsumeOne(scanner: Scanner, k: Desk): Desk
    requires k.stdin != []
  {
    k.(stdin := k.stdin[1..], dispatched := k.dispatched + 1,
       stdout := k.stdout + [AnswerTo(scanner, k.dispatched, k.stdin[0])])
  }

  /** The drone's reader takes an answer off stdout and hands it to the queen. */
  function ReadFrom(s: State, d: nat): State
    requires d < |s.desks| && s.desks[d].stdout != []
  {
    var k := s.desks[d];
    s.(desks := s.desks[d := k.(stdout := k.stdout[1..])], handled := s.handled + [FromDrone(d, k.stdout[0])])
  }

  function Apply(scanners: Scanners, s: State, a: Action): State
    requires Enabled(s, a)
  {
    match a
    case Elsewhere(act) => WithBee(s, Bee.Step(s.bee, act))
    case Forward(scan, cmd, drain) => ForwardTo(s, scan, cmd, drain)
    case Consume(d) => s.(desks := s.desks[d := ConsumeOne(scanners(d), s.desks[d])])
    case StopListening(d) => s.(desks := s.desks[d := s.desks[d].(open := false)])
    case ReadResult(d) => ReadFrom(s, d)
  }

  function Step(scanners: Scanners, s: State, a: Action): State {
    if Enabled(s, a) then Apply(scanners, s, a) else s
  }

  function Exec(scanners: Scanners, s: State, acts: seq<Action>): State {
    if acts == [] then s else Step(scanners, Exec(scanners, s, acts[..|acts| - 1]), acts[|acts| - 1])
  }

  lemma ExecAppend(scanners: Scanners, s: State, acts: seq<Action>, a: Action)
    ensures Exec(scanners, s, acts + [a]) == Step(scanners, Exec(scanners, s, acts), a)
  {
    assert (acts + [a])[..|acts|] == acts;
  }

  lemma {:induction false} ExecConcat(scanners: Scanners, s: State, first: seq<Action>, rest: seq<Action>)
    ensures Exec(scanners, s, first + rest) == Exec(scanners, Exec(scanners, s, first), rest)
  {
    if rest == [] {
      assert first + rest == first;
    } else {
      var init, last := rest[..|rest| - 1], rest[|rest| - 1];
      assert first + rest == (first + init) + [last];
      ExecConcat(scanners, s, first, init);
      ExecAppend(scanners, s, first + init, last);
    }
  }

  /** The first action of a run, then the rest. */
  lemma ExecFront(scanners: Scanners, s: State, a: Action, rest: seq<Action>)
    ensures Exec(scanners, s, [a] + rest) == Exec(scanners, Step(scanners, s, a), rest)
  {
    ExecConcat(scanners, s, [a], rest);
    assert [] + [a] == [a];
    ExecAppend(scanners, s, [], a);
  }

  // ---------- the bee inside ----------

  function BeeRunOf(scanners: Scanners, config: Bee.Config, acts: seq<Action>): seq<Bee.Action> {
    if acts == [] then []
    else
      var init, a := acts[..|acts| - 1], acts[|acts| - 1];
      BeeRunOf(scanners, config, init)
      + if a.Elsewhere? && Enabled(Exec(scanners, Init(config), init), a) then [a.act] else []
  }

  lemma BeePart(scanners: Scanners, s: State, a: Action)
    ensures Step(scanners, s, a).bee == if a.Elsewhere? && Enabled(s, a) then Bee.Step(s.bee, a.act) else s.bee
    ensures |Step(scanners, s, a).desks| ==
            |s.desks| + if |Step(scanners, s, a).bee.drones| > |s.bee.drones| then 1 else 0
  {
  }

  /** The bee goes about its business as if there were no commands; every drone has its desk. */
  lemma {:induction false} BeeInside(scanners: Scanners, config: Bee.Config, acts: seq<Action>)
    ensures var s := Exec(scanners, Init(config), acts);
            && s.bee == Bee.Exec(Bee.Init(config), BeeRunOf(scanners, config, acts))
            && Bee.Inv(s.bee) && |s.desks| == |s.bee.drones|
  {
    if acts != [] {
      var init, a := acts[..|acts| - 1], acts[|acts| - 1];
      var s, run := Exec(scanners, Init(config), init), BeeRunOf(scanners, config, init);
      BeeInside(scanners, config, init);
      BeePart(scanners, s, a);
      if a.Elsewhere? && Enabled(s, a) {
        Bee.DronesGrow(s.bee, a.act);
        Bee.ExecAppend(Bee.Init(config), run, a.act);
      } else {
        assert run + [] == run;
      }
    }
    Bee.BeeRun(config, BeeRunOf(scanners, config, acts));
  }

  // ---------- order, drone by drone ----------

  /** The commands written to drone d, in the order they were forwarded. */
  function Accepted(scanners: Scanners, config: Bee.Config, acts: seq<Action>, d: nat): seq<Cmd> {
    if acts == [] then []
    else
      var init, a := acts[..|acts| - 1], acts[|acts| - 1];
      Accepted(scanners, config, init, d) + AcceptedNow(Exec(scanners, Init(config), init), a, d)
  }

  function Written(route: Route, cmd: Cmd, drain: Drain, d: nat): seq<Cmd> {
    if drain.Drained? && route == ToDrone(d) then [cmd] else []
  }

  function AcceptedNow(s: State, a: Action, d: nat): seq<Cmd> {
    if a.Forward? then Written(RouteOf(s.bee, a.scan), a.cmd, a.drain, d) else []
  }

  function RepliesOf(handled: seq<Handled>, d: nat): seq<Reply> {
    if handled == [] then []
    else
      var last := handled[|handled| - 1];
      RepliesOf(handled[..|handled| - 1], d) + if last.FromDrone? && last.d == d then [last.reply] else []
  }

  lemma RepliesAppend(handled: seq<Handled>, h: Handled, d: nat)
    ensures RepliesOf(handled + [h], d) == RepliesOf(handled, d) + if h.FromDrone? && h.d == d then [h.reply] else []
  {
    assert (handled + [h])[..|handled|] == handled;
  }

  /** One drone's pipeline is a queue: accepted = consumed ++ still in stdin, and the answers to the
      consumed are what the queen has handled ++ what is still on stdout. */
  ghost predicate InStep(scanner: Scanner, k: Desk, replies: seq<Reply>, accepted: seq<Cmd>) {
    && k.dispatched <= |accepted|
    && k.stdin == accepted[k.dispatched..]
    && replies + k.stdout == Answers(scanner, 0, accepted[..k.dispatched])
  }

  lemma ConsumeInStep(scanner: Scanner, k: Desk, replies: seq<Reply>, accepted: seq<Cmd>)
    requires InStep(scanner, k, replies, accepted) && k.stdin != []
    ensures InStep(scanner, ConsumeOne(scanner, k), replies, accepted)
  {
    var n := k.dispatched;
    var reply := AnswerTo(scanner, n, k.stdin[0]);
    assert accepted[..n + 1] == accepted[..n] + [accepted[n]];
    AnswersMatchRequests(scanner, 0, accepted[..n], [accepted[n]]);
    assert Answers(scanner, n, [accepted[n]]) == [reply];
    assert replies + (k.stdout + [reply]) == (replies + k.stdout) + [reply];
  }

  lemma AcceptInStep(scanner: Scanner, k: Desk, replies: seq<Reply>, accepted: seq<Cmd>, cmd: Cmd)
    requires InStep(scanner, k, replies, accepted)
    ensures InStep(scanner, k.(stdin := k.stdin + [cmd]), replies, accepted + [cmd])
  {
    assert (accepted + [cmd])[..k.dispatched] == accepted[..k.dispatched];
    assert (accepted + [cmd])[k.dispatched..] == accepted[k.dispatched..] + [cmd];
  }

  lemma ReadInStep(scanner: Scanner, k: Desk, replies: seq<Reply>, accepted: seq<Cmd>)
    requires InStep(scanner, k, replies, accepted) && k.stdout != []
    ensures InStep(scanner, k.(stdout := k.stdout[1..]), replies + [k.stdout[0]], accepted)
  {
    assert replies + [k.stdout[0]] + k.stdout[1..] == replies + k.stdout;
  }

  lemma ForwardInStep(scanner: Scanner, s: State, route: Route, cmd: Cmd, drain: Drain, d: nat, accepted: seq<Cmd>)
    requires d < |s.desks| && InStep(scanner, s.desks[d], RepliesOf(s.handled, d), accepted)
    ensures var e := ForwardAlong(s, route, cmd, drain);
            && |e.desks| == |s.desks|
            && InStep(scanner, e.desks[d], RepliesOf(e.handled, d), accepted + Written(route, cmd, drain, d))
  {
    var k, replies := s.desks[d], RepliesOf(s.handled, d);
    if !route.ToDrone? || drain.BrokenPipe? {
      RepliesAppend(s.handled, FromQueen(Refusal(cmd, route)), d);
    } else if drain.Drained? && route.d == d {
      AcceptInStep(scanner, k, replies, accepted, cmd);
    }
    NothingMore(replies, accepted);
  }

  lemma NothingMore(replies: seq<Reply>, accepted: seq<Cmd>)
    ensures replies + [] == replies && accepted + [] == accepted
  {
  }

  lemma StepInStep(scanners: Scanners, s: State, a: Action, d: nat, accepted: seq<Cmd>)
    requires d < |s.desks|
    requires InStep(scanners(d), s.desks[d], RepliesOf(s.handled, d), accepted)
    ensures var e := Step(scanners, s, a);
            && d < |e.desks|
            && InStep(scanners(d), e.desks[d], RepliesOf(e.handled, d), accepted + AcceptedNow(s, a, d))
  {
    assert accepted + [] == accepted && RepliesOf(s.handled, d) + [] == RepliesOf(s.handled, d);
    if a.Forward? {
      ForwardInStep(scanners(d), s, RouteOf(s.bee, a.scan), a.cmd, a.drain, d, accepted);
    } else if Enabled(s, a) && a.Consume? {
      if a.d == d { ConsumeInStep(scanners(d), s.desks[d], RepliesOf(s.handled, d), accepted); }
    } else if Enabled(s, a) && a.ReadResult? {
      RepliesAppend(s.handled, FromDrone(a.d, s.desks[a.d].stdout[0]), d);
      if a.d == d { ReadInStep(scanners(d), s.desks[d], RepliesOf(s.handled, d), accepted); }
    }
  }

  /** In every interleaving, whichever processes die and whatever else the bee does: the replies of a
      drone that have reached the queen, followed by those still on its stdout, are the answers to the
      commands its process consumed, in the order they were forwarded, one each, with the same ids. */
  lemma {:induction false} RepliesInOrder(scanners: Scanners, config: Bee.Config, acts: seq<Action>, d: nat)
    ensures var s, accepted := Exec(scanners, Init(config), acts), Accepted(scanners, config, acts, d);
            if d < |s.desks| then
              && s.desks[d].dispatched + |s.desks[d].stdin| == |accepted|
              && RepliesOf(s.handled, d) + s.desks[d].stdout
                 == Answers(scanners(d), 0, accepted[..s.desks[d].dispatched])
              && InStep(scanners(d), s.desks[d], RepliesOf(s.handled, d), accepted)
            else accepted == [] && RepliesOf(s.handled, d) == []
  {
    if acts != [] {
      var init, a := acts[..|acts| - 1], acts[|acts| - 1];
      var s := Exec(scanners, Init(config), init);
      RepliesInOrder(scanners, config, init, d);
      BeeInside(scanners, config, init);
      if d < |s.desks| {
        StepInStep(scanners, s, a, d, Accepted(scanners, config, init, d));
      } else {
        NoDeskYet(scanners, s, a, d);
      }
    }
  }

  lemma NoDeskYet(scanners: Scanners, s: State, a: Action, d: nat)
    requires |s.desks| == |s.bee.drones| && d >= |s.desks| && RepliesOf(s.handled, d) == []
    ensures AcceptedNow(s, a, d) == [] && RepliesOf(Step(scanners, s, a).handled, d) == []
    ensures var e := Step(scanners, s, a); d < |e.desks| ==> e.desks[d] == EMPTY_DESK
    ensures InStep(scanners(d), EMPTY_DESK, [], [])
  {
    assert Answers(scanners(d), 0, []) == [];
    BeePart(scanners, s, a);
    if a.Forward? {
      RepliesAppend(s.handled, FromQueen(Refusal(a.cmd, RouteOf(s.bee, a.scan))), d);
    } else if Enabled(s, a) && a.ReadResult? {
      RepliesAppend(s.handled, FromDrone(a.d, s.desks[a.d].stdout[0]), d);
    }
  }

  // ---------- who is refused ----------

  /** Some drone of the scan is not terminal and its process runs, as far as the bee knows. */
  ghost predicate HasRunning(b: Bee.State, scan: string) {
    exists d: nat :: d < |b.drones| && d < |b.queen.pool| && b.queen.pool[d].scan == scan
                     && !IsTerminal(b.drones[d].life.status) && b.drones[d].spawned && b.drones[d].rc.None?
  }

  /** Some drone of the scan is not terminal. */
  ghost predicate HasActive(b: Bee.State, scan: string) {
    exists d: nat :: d < |b.drones| && d < |b.queen.pool| && b.queen.pool[d].scan == scan
                     && !IsTerminal(b.drones[d].life.status)
  }

  lemma RouteMeans(b: Bee.State, scan: string)
    requires Bee.Inv(b) && QueenRegistry.Exact(b.queen)
    ensures RouteOf(b, scan).NotTracked? <==> !HasActive(b, scan)
    ensures RouteOf(b, scan).ToDrone? <==> HasRunning(b, scan)
  {
    var drones := b.queen.drones;
    if scan in drones {
      assert b.queen.pool[drones[scan]].scan == scan;
    }
    if HasActive(b, scan) {
      var d: nat :| d < |b.drones| && b.queen.pool[d].scan == scan && !IsTerminal(b.drones[d].life.status);
      assert b.queen.pool[d].status == b.drones[d].life.status;
      assert scan in drones && drones[scan] == d;
    }
  }

  /** In a run whose registry was never broken, forwarding a command makes the queen answer it herself,
      exactly once, with its request id, if and only if no drone of the scan is running or the write
      breaks the pipe; and the answer says scan_not_active exactly if no drone of the scan is active. */
  lemma RefusedIffNotRunning(
    scanners: Scanners, config: Bee.Config, acts: seq<Action>, scan: string, cmd: Cmd, drain: Drain)
    requires QueenRegistry.NeverBreaks(Q.Init(config.sizes, config.maxScans),
                                       Bee.QueenRun(Bee.Init(config), BeeRunOf(scanners, config, acts)))
    ensures var s := Exec(scanners, Init(config), acts);
            var e := Step(scanners, s, Forward(scan, cmd, drain));
            && (e.handled != s.handled <==> !HasRunning(s.bee, scan) || drain.BrokenPipe?)
            && (e.handled != s.handled ==>
                  e.handled == s.handled + [FromQueen(Reply(cmd.name, cmd.requestId,
                    Failure(if HasActive(s.bee, scan) then "drone_send_failed" else "scan_not_active")))])
  {
    var s := Exec(scanners, Init(config), acts);
    BeeInside(scanners, config, acts);
    var run := Bee.QueenRun(Bee.Init(config), BeeRunOf(scanners, config, acts));
    Bee.QueenInBee(Bee.Init(config), BeeRunOf(scanners, config, acts));
    QueenRegistry.ExactIffNeverBreaks(config.sizes, config.maxScans, run);
    assert QueenRegistry.Exact(s.bee.queen);
    RouteMeans(s.bee, scan);
    assert |s.handled + [FromQueen(Refusal(cmd, RouteOf(s.bee, scan)))]| == |s.handled| + 1;
  }

  // ---------- every command is somewhere ----------

  function Asked(acts: seq<Action>): multiset<Cmd> {
    if acts == [] then multiset{}
    else Asked(acts[..|acts| - 1]) + if acts[|acts| - 1].Forward? then multiset{acts[|acts| - 1].cmd} else multiset{}
  }

  /** The request a reply answers. */
  function RequestOf(reply: Reply): Cmd {
    Cmd(reply.name, reply.requestId)
  }

  function Requests(replies: seq<Reply>): multiset<Cmd> {
    multiset(seq(|replies|, i requires 0 <= i < |replies| => RequestOf(replies[i])))
  }

  function RepliesIn(handled: seq<Handled>): seq<Reply> {
    seq(|handled|, i requires 0 <= i < |handled| => handled[i].reply)
  }

  /** The requests whose replies have reached the queen's handler. */
  function Answered(handled: seq<Handled>): multiset<Cmd> {
    Requests(RepliesIn(handled))
  }

  function OnDesk(k: Desk): multiset<Cmd> {
    multiset(k.stdin) + Requests(k.stdout)
  }

  /** Written and not yet answered at the queen. */
  function InFlight(desks: seq<Desk>): multiset<Cmd> {
    if desks == [] then multiset{} else InFlight(desks[..|desks| - 1]) + OnDesk(desks[|desks| - 1])
  }

  /** Commands to a running process whose drain raised something the drone does not translate. */
  function Dropped(scanners: Scanners, config: Bee.Config, acts: seq<Action>): multiset<Cmd> {
    if acts == [] then multiset{}
    else
      var init, a := acts[..|acts| - 1], acts[|acts| - 1];
      Dropped(scanners, config, init) + DroppedNow(Exec(scanners, Init(config), init), a)
  }

  function DroppedNow(s: State, a: Action): multiset<Cmd> {
    if a.Forward? && a.drain.OtherError? && RouteOf(s.bee, a.scan).ToDrone? then multiset{a.cmd} else multiset{}
  }

  lemma {:induction false} DeskChanges(desks: seq<Desk>, d: nat, k: Desk, r: Cmd)
    requires d < |desks|
    ensures InFlight(desks[d := k])[r] + OnDesk(desks[d])[r] == InFlight(desks)[r] + OnDesk(k)[r]
  {
    var init, after := desks[..|desks| - 1], desks[d := k];
    LastDesk(desks, r);
    LastDesk(after, r);
    if d == |desks| - 1 {
      assert after[..d] == init;
    } else {
      DeskChanges(init, d, k, r);
      assert after[..|desks| - 1] == init[d := k];
    }
  }

  lemma LastDesk(desks: seq<Desk>, r: Cmd)
    requires desks != []
    ensures InFlight(desks)[r] == InFlight(desks[..|desks| - 1])[r] + OnDesk(desks[|desks| - 1])[r]
  {
  }

  lemma RequestsSplit(first: seq<Reply>, rest: seq<Reply>)
    ensures Requests(first + rest) == Requests(first) + Requests(rest)
  {
    assert seq(|first + rest|, i requires 0 <= i < |first + rest| => RequestOf((first + rest)[i]))
        == seq(|first|, i requires 0 <= i < |first| => RequestOf(first[i]))
           + seq(|rest|, i requires 0 <= i < |rest| => RequestOf(rest[i]));
  }

  lemma RequestsOne(reply: Reply)
    ensures Requests([reply]) == multiset{RequestOf(reply)}
  {
    assert seq(|[reply]|, i requires 0 <= i < |[reply]| => RequestOf([reply][i])) == [RequestOf(reply)];
  }

  lemma AnsweredAppend(handled: seq<Handled>, h: Handled)
    ensures Answered(handled + [h]) == Answered(handled) + multiset{RequestOf(h.reply)}
  {
    assert RepliesIn(handled + [h]) == RepliesIn(handled) + [h.reply];
    RequestsSplit(RepliesIn(handled), [h.reply]);
    RequestsOne(h.reply);
  }

  lemma ConsumedOnDesk(scanner: Scanner, k: Desk)
    requires k.stdin != []
    ensures OnDesk(ConsumeOne(scanner, k)) == OnDesk(k)
  {
    var reply := AnswerTo(scanner, k.dispatched, k.stdin[0]);
    RequestsSplit(k.stdout, [reply]);
    RequestsOne(reply);
    assert k.stdin == [k.stdin[0]] + k.stdin[1..];
  }

  lemma ReadOffDesk(k: Desk)
    requires k.stdout != []
    ensures OnDesk(k) == OnDesk(k.(stdout := k.stdout[1..])) + multiset{RequestOf(k.stdout[0])}
  {
    assert k.stdout == [k.stdout[0]] + k.stdout[1..];
    RequestsSplit([k.stdout[0]], k.stdout[1..]);
    RequestsOne(k.stdout[0]);
  }

  /** Request by request: asked = answered + in flight + dropped. */
  ghost predicate Accounted(s: State, asked: multiset<Cmd>, dropped: multiset<Cmd>) {
    forall r :: asked[r] == Answered(s.handled)[r] + InFlight(s.desks)[r] + dropped[r]
  }

  lemma AccountedRefusal(s: State, reply: Reply, asked: multiset<Cmd>, dropped: multiset<Cmd>)
    requires Accounted(s, asked, dropped)
    ensures Accounted(s.(handled := s.handled + [FromQueen(reply)]), asked + multiset{RequestOf(reply)}, dropped)
  {
    AnsweredAppend(s.handled, FromQueen(reply));
  }

  lemma AccountedWrite(s: State, d: nat, cmd: Cmd, asked: multiset<Cmd>, dropped: multiset<Cmd>)
    requires d < |s.desks| && Accounted(s, asked, dropped)
    ensures Accounted(s.(desks := s.desks[d := s.desks[d].(stdin := s.desks[d].stdin + [cmd])]),
                      asked + multiset{cmd}, dropped)
  {
    var k := s.desks[d].(stdin := s.desks[d].stdin + [cmd]);
    assert OnDesk(k) == OnDesk(s.desks[d]) + multiset{cmd};
    forall r
      ensures InFlight(s.desks[d := k])[r] == InFlight(s.desks)[r] + multiset{cmd}[r]
    {
      DeskChanges(s.desks, d, k, r);
    }
  }

  lemma AccountedForward(s: State, route: Route, cmd: Cmd, drain: Drain, asked: multiset<Cmd>, dropped: multiset<Cmd>)
    requires Accounted(s, asked, dropped) && (route.ToDrone? ==> route.d < |s.desks|)
    ensures Accounted(ForwardAlong(s, route, cmd, drain), asked + multiset{cmd},
                      dropped + if drain.OtherError? && route.ToDrone? then multiset{cmd} else multiset{})
  {
    assert RequestOf(Refusal(cmd, route)) == cmd;
    if !route.ToDrone? || drain.BrokenPipe? {
      AccountedRefusal(s, Refusal(cmd, route), asked, dropped);
    } else if drain.Drained? {
      AccountedWrite(s, route.d, cmd, asked, dropped);
    }
  }

  lemma AccountedRead(s: State, d: nat, asked: multiset<Cmd>, dropped: multiset<Cmd>)
    requires d < |s.desks| && s.desks[d].stdout != [] && Accounted(s, asked, dropped)
    ensures Accounted(ReadFrom(s, d), asked, dropped)
  {
    var k := s.desks[d];
    ReadOffDesk(k);
    AnsweredAppend(s.handled, FromDrone(d, k.stdout[0]));
    forall r
      ensures InFlight(ReadFrom(s, d).desks)[r] + multiset{RequestOf(k.stdout[0])}[r] == InFlight(s.desks)[r]
    {
      DeskChanges(s.desks, d, k.(stdout := k.stdout[1..]), r);
    }
  }

  lemma AccountedConsume(s: State, d: nat, k: Desk, asked: multiset<Cmd>, dropped: multiset<Cmd>)
    requires d < |s.desks| && OnDesk(k) == OnDesk(s.desks[d]) && Accounted(s, asked, dropped)
    ensures Accounted(s.(desks := s.desks[d := k]), asked, dropped)
  {
    forall r
      ensures InFlight(s.desks[d := k])[r] == InFlight(s.desks)[r]
    {
      DeskChanges(s.desks, d, k, r);
    }
  }

  lemma AccountedBee(s: State, bee: Bee.State, asked: multiset<Cmd>, dropped: multiset<Cmd>)
    requires Accounted(s, asked, dropped)
    ensures Accounted(WithBee(s, bee), asked, dropped)
  {
    NewDesk(s.desks);
  }

  lemma AccountedStep(scanners: Scanners, s: State, a: Action, asked: multiset<Cmd>, dropped: multiset<Cmd>)
    requires |s.desks| == |s.bee.drones| && Accounted(s, asked, dropped)
    ensures Accounted(Step(scanners, s, a), if a.Forward? then asked + multiset{a.cmd} else asked,
                      dropped + DroppedNow(s, a))
  {
    assert dropped + multiset{} == dropped;
    if a.Forward? {
      AccountedForward(s, RouteOf(s.bee, a.scan), a.cmd, a.drain, asked, dropped);
    } else if Enabled(s, a) {
      match a
      case Elsewhere(act) => AccountedBee(s, Bee.Step(s.bee, act), asked, dropped);
      case Consume(d) =>
        ConsumedOnDesk(scanners(d), s.desks[d]);
        AccountedConsume(s, d, ConsumeOne(scanners(d), s.desks[d]), asked, dropped);
      case StopListening(d) => AccountedConsume(s, d, s.desks[d].(open := false), asked, dropped);
      case ReadResult(d) => AccountedRead(s, d, asked, dropped);
    }
  }

  lemma NewDesk(desks: seq<Desk>)
    ensures InFlight(desks + [EMPTY_DESK]) == InFlight(desks) && InFlight(desks + []) == InFlight(desks)
  {
    assert (desks + [EMPTY_DESK])[..|desks|] == desks;
    assert desks + [] == desks;
  }

  lemma {:induction false} AccountedRun(scanners: Scanners, config: Bee.Config, acts: seq<Action>)
    ensures Accounted(Exec(scanners, Init(config), acts), Asked(acts), Dropped(scanners, config, acts))
  {
    if acts == [] {
      assert Answered([]) == multiset{};
    } else {
      var init, a := acts[..|acts| - 1], acts[|acts| - 1];
      AccountedRun(scanners, config, init);
      BeeInside(scanners, config, init);
      AccountedStep(scanners, Exec(scanners, Init(config), init), a, Asked(init), Dropped(scanners, config, init));
    }
  }

  /** In every state of every run, every command ever forwarded has been answered at the queen, once, or
      is in its process's pipes, or was dropped. */
  lemma CommandsAccounted(scanners: Scanners, config: Bee.Config, acts: seq<Action>)
    ensures var s := Exec(scanners, Init(config), acts);
            Asked(acts) == Answered(s.handled) + InFlight(s.desks) + Dropped(scanners, config, acts)
  {
    AccountedRun(scanners, config, acts);
  }

  /** At any moment, the requests answered are exactly the requests made, each as often, if and only if
      nothing is in the pipes and no write to a running process has failed with an untranslated error. */
  lemma EveryCommandAnsweredIff(scanners: Scanners, config: Bee.Config, acts: seq<Action>)
    ensures var s := Exec(scanners, Init(config), acts);
            Answered(s.handled) == Asked(acts)
            <==> InFlight(s.desks) == multiset{} && Dropped(scanners, config, acts) == multiset{}
  {
    CommandsAccounted(scanners, config, acts);
    var s, dropped := Exec(scanners, Init(config), acts), Dropped(scanners, config, acts);
    assert |Answered(s.handled) + InFlight(s.desks) + dropped|
        == |Answered(s.handled)| + |InFlight(s.desks)| + |dropped|;
  }
}
