/** The far end of the command pipeline: the scan process reading commands on stdin, and the exit
    code it leaves for the drone's monitor. */
module ScanProcess {
  import opened Options
  import opened Statuses
  import DroneMachine
  import DroneTheorems

  // ---------- commands ----------

  datatype Cmd = Cmd(name: string, requestId: Option<string>)

  /** One line on stdin, as the reader classifies it. */
  datatype StdinLine = Blank | NotJson | Command(cmd: Cmd)

  /** What a handler does with a command: return its data, or raise. */
  datatype Handling = Data(payload: string) | Raises(error: string)

  datatype Answer = Unknown | Failure(error: string) | Success(payload: string)

  datatype Reply = Reply(name: string, requestId: Option<string>, answer: Answer)

  const HANDLERS: set<string> :=
    {"kill_module", "set_log_level", "toggle_log_level", "scan_status", "scope_check", "scan_config", "list_modules"}

  /** What the scanner's handlers do, command by command. */
  type Scanner = nat -> Handling

  function AnswerTo(scanner: Scanner, k: nat, cmd: Cmd): Reply {
    Reply(cmd.name, cmd.requestId,
          if cmd.name !in HANDLERS then Unknown
          else match scanner(k)
               case Data(payload) => Success(payload)
               case Raises(error) => Failure(error))
  }

  /** The answers to commands, the first being the scanner's k-th. */
  function Answers(scanner: Scanner, k: nat, cmds: seq<Cmd>): (replies: seq<Reply>)
    ensures |replies| == |cmds|
    decreases |cmds|
  {
    if cmds == [] then [] else [AnswerTo(scanner, k, cmds[0])] + Answers(scanner, k + 1, cmds[1..])
  }

  function CommandsIn(lines: seq<StdinLine>): seq<Cmd> {
    if lines == [] then []
    else (if lines[0].Command? then [lines[0].cmd] else []) + CommandsIn(lines[1..])
  }

  /** What a reply says of its command, given what the command's handler did. */
  predicate Reflects(reply: Reply, cmd: Cmd, handling: Handling) {
    var known := cmd.name == "kill_module" || cmd.name == "set_log_level" || cmd.name == "toggle_log_level"
                 || cmd.name == "scan_status" || cmd.name == "scope_check" || cmd.name == "scan_config"
                 || cmd.name == "list_modules";
    && reply.name == cmd.name && reply.requestId == cmd.requestId
    && (reply.answer.Unknown? <==> !known)
    && (reply.answer.Success? <==> known && handling.Data?)
    && (reply.answer.Failure? <==> known && handling.Raises?)
    && (reply.answer.Success? && handling.Data? ==> reply.answer.payload == handling.payload)
    && (reply.answer.Failure? && handling.Raises? ==> reply.answer.error == handling.error)
  }

  lemma AnswerSays(scanner: Scanner, k: nat, cmd: Cmd)
    ensures Reflects(AnswerTo(scanner, k, cmd), cmd, scanner(k))
  {
  }

  /** Reply i carries the name and request id of command i; it is a success with data p exactly if the
      command is one of the seven and its handler returned p, a failure with e exactly if its handler
      raised e, and "unknown" exactly if the name is none of the seven. */
  lemma {:induction false} AnswersAt(scanner: Scanner, k: nat, cmds: seq<Cmd>, i: nat)
    requires i < |cmds|
    ensures var reply, name := Answers(scanner, k, cmds)[i], cmds[i].name;
            var known := name == "kill_module" || name == "set_log_level" || name == "toggle_log_level"
                         || name == "scan_status" || name == "scope_check" || name == "scan_config"
                         || name == "list_modules";
            && reply.name == name && reply.requestId == cmds[i].requestId
            && (forall p :: reply.answer == Success(p) <==> known && scanner(k + i) == Data(p))
            && (forall e :: reply.answer == Failure(e) <==> known && scanner(k + i) == Raises(e))
            && (reply.answer == Unknown <==> !known)
    decreases |cmds|
  {
    if i > 0 {
      AnswersAt(scanner, k + 1, cmds[1..], i - 1);
    } else {
      AnswerSays(scanner, k, cmds[0]);
    }
  }

  /** How many of the first n lines are commands. */
  function CommandsBefore(lines: seq<StdinLine>, n: nat): nat
    requires n <= |lines|
  {
    if n == 0 then 0 else CommandsBefore(lines, n - 1) + if lines[n - 1].Command? then 1 else 0
  }

  lemma {:induction false} BeforeTail(lines: seq<StdinLine>, n: nat)
    requires 0 < n <= |lines|
    ensures CommandsBefore(lines, n) == (if lines[0].Command? then 1 else 0) + CommandsBefore(lines[1..], n - 1)
  {
    if n > 1 {
      BeforeTail(lines, n - 1);
    }
  }

  /** Every command line is picked, none other is, and in order: the one on line i is preceded by exactly
      the commands of the lines before. */
  lemma {:induction false} CommandsAt(lines: seq<StdinLine>, i: nat)
    requires i < |lines|
    ensures |CommandsIn(lines)| == CommandsBefore(lines, |lines|)
    ensures lines[i].Command? ==>
              && CommandsBefore(lines, i) < |CommandsIn(lines)|
              && CommandsIn(lines)[CommandsBefore(lines, i)] == lines[i].cmd
    decreases |lines|
  {
    BeforeTail(lines, |lines|);
    if i > 0 {
      BeforeTail(lines, i);
      CommandsAt(lines[1..], i - 1);
    } else if |lines| > 1 {
      CommandsAt(lines[1..], 0);
    } else {
      assert lines[1..] == [];
    }
  }

  /** Answering in two goes is answering once. */
  lemma {:induction false} AnswersMatchRequests(scanner: Scanner, k: nat, first: seq<Cmd>, rest: seq<Cmd>)
    ensures Answers(scanner, k, first + rest) == Answers(scanner, k, first) + Answers(scanner, k + |first|, rest)
    decreases |first|
  {
    if first == [] {
      assert [] + rest == rest;
    } else {
      AnswersMatchRequests(scanner, k + 1, first[1..], rest);
      assert (first + rest)[1..] == first[1..] + rest;
    }
  }

  /** All that will be on stdout, with out there already and lines still to read. */
  ghost function Outcome(scanner: Scanner, k: nat, lines: seq<StdinLine>, out: seq<Reply>): seq<Reply> {
    out + Answers(scanner, k, CommandsIn(lines))
  }

  lemma AnswerFirst(scanner: Scanner, k: nat, cmd: Cmd, rest: seq<Cmd>, out: seq<Reply>)
    ensures out + Answers(scanner, k, [cmd] + rest) ==
            (out + [AnswerTo(scanner, k, cmd)]) + Answers(scanner, k + 1, rest)
  {
    var reply, more := AnswerTo(scanner, k, cmd), Answers(scanner, k + 1, rest);
    assert ([cmd] + rest)[1..] == rest;
    assert Answers(scanner, k, [cmd] + rest) == [reply] + more;
    assert out + ([reply] + more) == (out + [reply]) + more;
  }

  /** Reading one line, and answering it if it is a command, leaves the outcome as it was. */
  lemma ReadOne(scanner: Scanner, k: nat, lines: seq<StdinLine>, out: seq<Reply>)
    requires lines != []
    ensures lines[0].Command? ==>
              && |CommandsIn(lines)| == 1 + |CommandsIn(lines[1..])|
              && Outcome(scanner, k, lines, out)
                 == Outcome(scanner, k + 1, lines[1..], out + [AnswerTo(scanner, k, lines[0].cmd)])
    ensures !lines[0].Command? ==>
              && CommandsIn(lines) == CommandsIn(lines[1..])
              && Outcome(scanner, k, lines, out) == Outcome(scanner, k, lines[1..], out)
  {
    if lines[0].Command? {
      AnswerFirst(scanner, k, lines[0].cmd, CommandsIn(lines[1..]), out);
    } else {
      assert CommandsIn(lines) == [] + CommandsIn(lines[1..]);
    }
  }

  class Process {
    const scanner: Scanner
    var stdin: seq<StdinLine>
    var stdout: seq<Reply>     // the cmd_result lines
    var dispatched: nat

    constructor (scanner: Scanner, stdin: seq<StdinLine>)
      ensures this.scanner == scanner && this.stdin == stdin && stdout == [] && dispatched == 0
    {
      this.scanner, this.stdin, stdout, dispatched := scanner, stdin, [], 0;
    }

    /** _dispatch_command: exactly one line on stdout, with the command's request id. */
    method Dispatch(cmd: Cmd)
      modifies this`stdout, this`dispatched
      ensures stdout == old(stdout) + [AnswerTo(scanner, old(dispatched), cmd)]
      ensures Reflects(stdout[|stdout| - 1], cmd, scanner(old(dispatched)))
      ensures dispatched == old(dispatched) + 1
    {
      var answer := Unknown;
      if cmd.name in HANDLERS {
        match scanner(dispatched)
        case Data(payload) => answer := Success(payload);
        case Raises(error) => answer := Failure(error);
      }
      dispatched := dispatched + 1;
      AnswerSays(scanner, old(dispatched), cmd);
      stdout := stdout + [Reply(cmd.name, cmd.requestId, answer)];
    }

    /** _stdin_command_reader up to EOF. */
    method ReadCommands()
      modifies this`stdin, this`stdout, this`dispatched
      ensures stdin == []
      ensures stdout == old(stdout) + Answers(scanner, old(dispatched), CommandsIn(old(stdin)))
      ensures dispatched == old(dispatched) + |CommandsIn(old(stdin))|
    {
      ghost var all := Outcome(scanner, dispatched, stdin, stdout);
      ghost var count := dispatched + |CommandsIn(stdin)|;
      while stdin != []
        invariant Outcome(scanner, dispatched, stdin, stdout) == all
        invariant dispatched + |CommandsIn(stdin)| == count
        decreases |stdin|
      {
        ReadOne(scanner, dispatched, stdin, stdout);
        var line := stdin[0];
        stdin := stdin[1..];
        if line.Command? {
          Dispatch(line.cmd);
        }
      }
    }
  }

  // ---------- exit codes ----------

  /** The scanner's final status, as the end of _run_scan turns it into an exit code. */
  function ExitCode(finalStatus: string): int {
    if finalStatus == "FINISHED" then 0
    else if finalStatus == "ABORTED" then 2
    else 1
  }

  function Meaning(finalStatus: string): ScanStatus {
    if finalStatus == "FINISHED" then Finished
    else if finalStatus == "ABORTED" then Aborted
    else Failed
  }

  /** When nothing but the monitor attempted a terminal status, the scanner's outcome, sent as an exit
      code, is the status the drone ends in. */
  lemma OutcomeRoundTrip(grace: nat, lag: nat, acts: seq<DroneMachine.Action>, finalStatus: string)
    requires DroneMachine.Exec(DroneMachine.Init(grace, lag), acts).monitor.Returned?
    requires DroneMachine.Exec(DroneMachine.Init(grace, lag), acts).rc == Some(ExitCode(finalStatus))
    requires forall at | at in DroneMachine.Exec(DroneMachine.Init(grace, lag), acts).life.attempts ::
               IsTerminal(at.status) ==> at.actor.Watcher?
    ensures DroneMachine.Exec(DroneMachine.Init(grace, lag), acts).life.status == Meaning(finalStatus)
  {
    var k := DroneTheorems.MonitorDecides(grace, lag, acts);
  }
}
