/** The status messages of a scan on the wire: how often each is sent, and in what order. */
module QueenStatuses {
  import opened Options
  import opened Statuses
  import opened QueenMachine
  import opened QueenBuffers
  import opened QueenPrecedence
  import QueenRegistry
  import DroneInQueen

  /** One status message, owed or sent. */
  datatype Notified = Notified(scan: string, status: ScanStatus)

  /** The status message a task will send if nothing goes wrong. */
  function OwedBy(t: Task): multiset<Notified> {
    match t
    case Idle => multiset{}
    case Posting(notice) => if notice.StatusMsg? then multiset{Notified(notice.scan, notice.status)} else multiset{}
    case Sending(_, _, _, _, after) =>
      if after.Nothing? then multiset{} else multiset{Notified(after.scan, after.status)}
  }

  function Owed(tasks: seq<Task>): multiset<Notified> {
    if tasks == [] then multiset{} else Owed(tasks[..|tasks| - 1]) + OwedBy(tasks[|tasks| - 1])
  }

  function Sent(wire: seq<Msg>): multiset<Notified> {
    if wire == [] then multiset{} else Sent(wire[..|wire| - 1]) + InMsg(wire[|wire| - 1])
  }

  function InMsg(m: Msg): multiset<Notified> {
    if m.Critical? && m.notice.StatusMsg? then multiset{Notified(m.notice.scan, m.notice.status)} else multiset{}
  }

  /** The status handler the action enters: the callback of an advancing drone, or the report of FAILED
      for a refused start. */
  function Entering(s: State, a: Action): multiset<Notified> {
    match a
    case CmdStart(scan, valid) =>
      if QueenRegistry.Refused(s, scan, valid) then multiset{Notified(scan, Failed)} else multiset{}
    case Report(d, status) =>
      if d < |s.pool| && Advances(s.pool[d].status, status) then multiset{Notified(s.pool[d].scan, status)}
      else multiset{}
    case _ => multiset{}
  }

  function Entered(s: State, acts: seq<Action>): multiset<Notified> {
    if acts == [] then multiset{}
    else Entered(s, acts[..|acts| - 1]) + Entering(Exec(s, acts[..|acts| - 1]), acts[|acts| - 1])
  }

  /** What the action loses: the message whose send fails, or that a cancelled task would have sent. */
  function Losing(s: State, a: Action): multiset<Notified> {
    if !Enabled(s, a) then multiset{}
    else
      match a
      case SendFail(i) => if s.tasks[i].Posting? then OwedBy(s.tasks[i]) else multiset{}
      case CancelTask(i) => OwedBy(s.tasks[i])
      case _ => multiset{}
  }

  function Gone(s: State, acts: seq<Action>): multiset<Notified> {
    if acts == [] then multiset{}
    else Gone(s, acts[..|acts| - 1]) + Losing(Exec(s, acts[..|acts| - 1]), acts[|acts| - 1])
  }

  lemma SentAppend(wire: seq<Msg>, m: Msg)
    ensures Sent(wire + [m]) == Sent(wire) + InMsg(m)
  {
    assert (wire + [m])[..|wire|] == wire;
  }

  lemma OwedAppend(tasks: seq<Task>, t: Task)
    ensures Owed(tasks + [t]) == Owed(tasks) + OwedBy(t)
  {
    assert (tasks + [t])[..|tasks|] == tasks;
  }

  lemma {:induction false} OwedChanges(tasks: seq<Task>, i: nat, t: Task, n: Notified)
    requires i < |tasks|
    ensures Owed(tasks[i := t])[n] + OwedBy(tasks[i])[n] == Owed(tasks)[n] + OwedBy(t)[n]
  {
    var init, after := tasks[..|tasks| - 1], tasks[i := t];
    LastTask(tasks, n);
    LastTask(after, n);
    if i == |tasks| - 1 {
      assert after[..i] == init;
    } else {
      OwedChanges(init, i, t, n);
      assert after[..|tasks| - 1] == init[i := t];
    }
  }

  lemma LastTask(tasks: seq<Task>, n: Notified)
    requires tasks != []
    ensures Owed(tasks)[n] == Owed(tasks[..|tasks| - 1])[n] + OwedBy(tasks[|tasks| - 1])[n]
  {
  }

  function OwedAfter(after: After): multiset<Notified> {
    if after.Nothing? then multiset{} else multiset{Notified(after.scan, after.status)}
  }

  lemma {:induction false} ResumeOwes(sizes: Sizes, store: Store, keys: seq<Stream>, after: After)
    ensures OwedBy(Resume(sizes, store, keys, after).task) == OwedAfter(after)
    decreases after.ThenLogs?, |keys|
  {
    if keys == [] {
      if after.ThenLogs? {
        ResumeOwes(sizes, store, OfKind(store.order, Logs), ThenStatus(after.scan, after.status));
      }
    } else if At(store.buf, keys[0]) == [] {
      ResumeOwes(sizes, Pop(store, keys[0]), keys[1..], after);
    }
  }

  ghost predicate Balanced(s: State, entered: multiset<Notified>, gone: multiset<Notified>) {
    forall n :: entered[n] == Sent(s.wire)[n] + Owed(s.tasks)[n] + gone[n]
  }

  /** A task's step passes its message on, puts it on the wire, or loses it. */
  lemma TaskOwes(s: State, a: Action, i: nat)
    requires Enabled(s, a) && i < |s.tasks| && (a == SendOk(i) || a == SendFail(i) || a == CancelTask(i))
    ensures var e := Apply(s, a);
            && e.tasks == s.tasks[i := e.tasks[i]]
            && forall n :: OwedBy(s.tasks[i])[n] + Sent(s.wire)[n]
                           == OwedBy(e.tasks[i])[n] + Sent(e.wire)[n] + Losing(s, a)[n]
  {
    var t := s.tasks[i];
    if t.Sending? {
      FlusherOwes(s.sizes, s.store, t);
      SentAppend(s.wire, Batch(t.cur, t.batch));
    } else {
      SentAppend(s.wire, Critical(t.notice));
    }
  }

  lemma FlusherOwes(sizes: Sizes, store: Store, t: Task)
    requires t.Sending?
    ensures OwedBy(AfterSend(sizes, store, t).task) == OwedBy(t) == OwedBy(AfterFailure(sizes, store, t).task)
  {
    ResumeOwes(sizes, store, t.keys, t.after);
    ResumeOwes(sizes, Put(store, t.cur, t.batch + t.rest), t.keys, t.after);
  }

  lemma TaskBalanced(s: State, a: Action, i: nat, entered: multiset<Notified>, gone: multiset<Notified>)
    requires Enabled(s, a) && i < |s.tasks| && (a == SendOk(i) || a == SendFail(i) || a == CancelTask(i))
    requires Balanced(s, entered, gone)
    ensures Balanced(Apply(s, a), entered, gone + Losing(s, a))
  {
    var e := Apply(s, a);
    TaskOwes(s, a, i);
    forall n
      ensures entered[n] == Sent(e.wire)[n] + Owed(e.tasks)[n] + (gone + Losing(s, a))[n]
    {
      OwedChanges(s.tasks, i, e.tasks[i], n);
    }
  }

  /** What the other actions spawn: nothing, or one task that owes what the action enters. */
  lemma QuietSpawns(s: State, a: Action)
    requires Enabled(s, a) && !a.SendOk? && !a.SendFail? && !a.CancelTask?
    ensures var e := Apply(s, a);
            && e.wire == s.wire
            && (|| (e.tasks == s.tasks && Entering(s, a) == multiset{})
                || (|e.tasks| == |s.tasks| + 1 && e.tasks == s.tasks + [e.tasks[|s.tasks|]]
                    && OwedBy(e.tasks[|s.tasks|]) == Entering(s, a)))
  {
    match a
    case CmdStart(scan, _) => HandlerSpawns(s, scan, Failed);
    case Report(d, status) =>
      HandlerSpawns(s.(pool := s.pool[d := s.pool[d].(status := status)]), s.pool[d].scan, status);
    case BeginFlush(kind) => ResumeOwes(s.sizes, s.store, OfKind(s.store.order, kind), Nothing);
    case _ =>
  }

  lemma HandlerSpawns(s: State, scan: string, status: ScanStatus)
    ensures var e := HandleStatus(s, scan, status);
            && e.wire == s.wire && |e.tasks| == |s.tasks| + 1 && e.tasks == s.tasks + [e.tasks[|s.tasks|]]
            && OwedBy(e.tasks[|s.tasks|]) == multiset{Notified(scan, status)}
  {
    ResumeOwes(s.sizes, s.store, OfKind(s.store.order, Events), ThenLogs(scan, status));
  }

  lemma BalancedStep(s: State, a: Action, entered: multiset<Notified>, gone: multiset<Notified>)
    requires Balanced(s, entered, gone)
    ensures Balanced(Step(s, a), entered + Entering(s, a), gone + Losing(s, a))
  {
    if !Enabled(s, a) {
    } else if a.SendOk? || a.SendFail? || a.CancelTask? {
      TaskBalanced(s, a, a.i, entered, gone);
    } else {
      QuietSpawns(s, a);
      var e := Apply(s, a);
      if e.tasks != s.tasks {
        OwedAppend(s.tasks, e.tasks[|s.tasks|]);
      }
    }
  }

  /** In every state of every run: every status handler ever entered has its message on the wire, owes it
      still, or lost it to a failed send or a cancellation; and the wire carries no other. */
  lemma {:induction false} StatusLedger(sizes: Sizes, maxScans: int, acts: seq<Action>)
    ensures var s := Exec(Init(sizes, maxScans), acts);
            Entered(Init(sizes, maxScans), acts) == Sent(s.wire) + Owed(s.tasks) + Gone(Init(sizes, maxScans), acts)
    ensures Balanced(Exec(Init(sizes, maxScans), acts), Entered(Init(sizes, maxScans), acts),
                     Gone(Init(sizes, maxScans), acts))
  {
    if acts != [] {
      var init := acts[..|acts| - 1];
      StatusLedger(sizes, maxScans, init);
      BalancedStep(Exec(Init(sizes, maxScans), init), acts[|acts| - 1],
                   Entered(Init(sizes, maxScans), init), Gone(Init(sizes, maxScans), init));
    }
  }

  // ---------- at most once ----------

  /** Drone d is the only one, so far, with this scan id. */
  predicate OnlyDrone(pool: seq<DroneRec>, scan: string, d: nat) {
    forall c | 0 <= c < |pool| :: pool[c].scan == scan ==> c == d
  }

  /** No start command for the scan is refused. */
  ghost predicate NeverRefused(s: State, acts: seq<Action>, scan: string) {
    acts == [] ||
    (&& NeverRefused(s, acts[..|acts| - 1], scan)
     && var a := acts[|acts| - 1];
        !(a.CmdStart? && a.scan == scan && QueenRegistry.Refused(Exec(s, acts[..|acts| - 1]), scan, a.valid)))
  }

  /** Whatever handler for the scan the action enters is a callback of drone d. */
  lemma EntersByDrone(s: State, a: Action, scan: string, d: nat, status: ScanStatus)
    requires OnlyDrone(Step(s, a).pool, scan, d)
    requires !(a.CmdStart? && a.scan == scan && QueenRegistry.Refused(s, scan, a.valid))
    ensures OnlyDrone(s.pool, scan, d)
    ensures Entering(s, a)[Notified(scan, status)] <=
            if a == Report(d, status) && d < |s.pool| && Advances(s.pool[d].status, status) then 1 else 0
  {
    forall c | 0 <= c < |s.pool|
      ensures Step(s, a).pool[c].scan == s.pool[c].scan && c < |Step(s, a).pool|
    {
      DroneInQueen.StatusStep(s, a, c);
    }
  }

  lemma {:induction false} EnteredByDrone(s: State, acts: seq<Action>, scan: string, d: nat, status: ScanStatus)
    requires OnlyDrone(Exec(s, acts).pool, scan, d) && NeverRefused(s, acts, scan)
    ensures Entered(s, acts)[Notified(scan, status)] <= multiset(DroneInQueen.CallbacksOf(s, acts, d))[status]
  {
    if acts != [] {
      var init, a := acts[..|acts| - 1], acts[|acts| - 1];
      var before := Exec(s, init);
      EntersByDrone(before, a, scan, d, status);
      EnteredByDrone(s, init, scan, d, status);
      if d < |before.pool| {
        DroneInQueen.StatusStep(before, a, d);
      }
    }
  }

  lemma {:induction false} DistinctOnce(s: seq<ScanStatus>, status: ScanStatus)
    requires forall i, j | 0 <= i < j < |s| :: s[i] != s[j]
    ensures multiset(s)[status] <= 1
    ensures status !in s ==> multiset(s)[status] == 0
  {
    if s != [] {
      DistinctOnce(s[..|s| - 1], status);
      assert s == s[..|s| - 1] + [s[|s| - 1]];
    }
  }

  /** If the scan id is used by one drone and none of its starts is refused, each status of the scan is on
      the wire, or owed, at most once; in general never more often than its handler was entered. */
  lemma StatusSentOnce(sizes: Sizes, maxScans: int, acts: seq<Action>, scan: string, d: nat, status: ScanStatus)
    requires OnlyDrone(Exec(Init(sizes, maxScans), acts).pool, scan, d)
    requires NeverRefused(Init(sizes, maxScans), acts, scan)
    ensures var s := Exec(Init(sizes, maxScans), acts);
            Sent(s.wire)[Notified(scan, status)] + Owed(s.tasks)[Notified(scan, status)] <= 1
  {
    StatusLedger(sizes, maxScans, acts);
    EnteredByDrone(Init(sizes, maxScans), acts, scan, d, status);
    DroneInQueen.QueenFollowsReports(sizes, maxScans, acts, d);
    AnnouncedOnce(DroneInQueen.ReportsOf(Init(sizes, maxScans), acts, d));
    DistinctOnce(DroneInQueen.CallbacksOf(Init(sizes, maxScans), acts, d), status);
  }

  // ---------- in order ----------

  /** The statuses of a scan, as the wire carries them. */
  function SentFor(wire: seq<Msg>, scan: string): seq<ScanStatus> {
    if wire == [] then []
    else
      var m := wire[|wire| - 1];
      SentFor(wire[..|wire| - 1], scan)
      + if m.Critical? && m.notice.StatusMsg? && m.notice.scan == scan then [m.notice.status] else []
  }

  lemma SentForAppend(wire: seq<Msg>, m: Msg, scan: string)
    ensures SentFor(wire + [m], scan) == SentFor(wire, scan)
            + if m.Critical? && m.notice.StatusMsg? && m.notice.scan == scan then [m.notice.status] else []
  {
    assert (wire + [m])[..|wire|] == wire;
  }

  /** The status of the scan whose message the task will send. */
  function OwedFor(t: Task, scan: string): Option<ScanStatus> {
    match t
    case Idle => None
    case Posting(notice) => if notice.StatusMsg? && notice.scan == scan then Some(notice.status) else None
    case Sending(_, _, _, _, after) => if !after.Nothing? && after.scan == scan then Some(after.status) else None
  }

  predicate Above(sent: seq<ScanStatus>, status: ScanStatus) {
    forall k | 0 <= k < |sent| :: Code(sent[k]) < Code(status)
  }

  predicate OneOwes(tasks: seq<Task>, scan: string) {
    forall i, j | 0 <= i < j < |tasks| :: OwedFor(tasks[i], scan).None? || OwedFor(tasks[j], scan).None?
  }

  /** In no state of the run do two tasks owe a status message of the scan. */
  ghost predicate OneOwesRun(s: State, acts: seq<Action>, scan: string) {
    OneOwes(Exec(s, acts).tasks, scan) && (acts == [] || OneOwesRun(s, acts[..|acts| - 1], scan))
  }

  /** A status handler the action enters for the scan has a status above all the wire carries for it. */
  ghost predicate EntersAbove(s: State, a: Action, scan: string) {
    forall status | Notified(scan, status) in Entering(s, a) :: Above(SentFor(s.wire, scan), status)
  }

  ghost predicate EntersAboveRun(s: State, acts: seq<Action>, scan: string) {
    acts == [] || (&& EntersAboveRun(s, acts[..|acts| - 1], scan)
                   && EntersAbove(Exec(s, acts[..|acts| - 1]), acts[|acts| - 1], scan))
  }

  predicate NextUp(owed: Option<ScanStatus>, sent: seq<ScanStatus>) {
    owed.Some? ==> Above(sent, owed.value)
  }

  predicate OwedOk(sent: seq<ScanStatus>, tasks: seq<Task>, scan: string) {
    && (forall i | 0 <= i < |tasks| :: NextUp(OwedFor(tasks[i], scan), sent))
    && OneOwes(tasks, scan)
  }

  /** The sent statuses of the scan rise, and the one still owed, if any, comes next. */
  ghost predicate Orderly(s: State, scan: string) {
    Rising(SentFor(s.wire, scan)) && OwedOk(SentFor(s.wire, scan), s.tasks, scan)
  }

  lemma FewerOwed(sent: seq<ScanStatus>, tasks: seq<Task>, i: nat, t: Task, scan: string)
    requires OwedOk(sent, tasks, scan) && i < |tasks|
    requires OwedFor(t, scan).None? || OwedFor(t, scan) == OwedFor(tasks[i], scan)
    ensures OwedOk(sent, tasks[i := t], scan)
  {
  }

  /** The message that is owed goes out. */
  lemma OwedGoesOut(sent: seq<ScanStatus>, tasks: seq<Task>, i: nat, st: ScanStatus, scan: string)
    requires Rising(sent) && OwedOk(sent, tasks, scan) && i < |tasks| && OwedFor(tasks[i], scan) == Some(st)
    ensures Rising(sent + [st]) && OwedOk(sent + [st], tasks[i := Idle], scan)
  {
    assert NextUp(OwedFor(tasks[i], scan), sent);
    assert forall j | 0 <= j < |tasks| && j != i :: OwedFor(tasks[j], scan).None?;
  }

  lemma OwedTwice(t: Task, scan: string, status: ScanStatus)
    ensures OwedFor(t, scan) == Some(status) <==> Notified(scan, status) in OwedBy(t)
  {
  }

  lemma SameOwed(t: Task, next: Task, scan: string)
    requires OwedBy(next) == OwedBy(t) || next.Idle?
    ensures OwedFor(next, scan).None? || OwedFor(next, scan) == OwedFor(t, scan)
  {
    if OwedFor(next, scan).Some? {
      OwedTwice(next, scan, OwedFor(next, scan).value);
      OwedTwice(t, scan, OwedFor(next, scan).value);
    }
  }

  /** What a task's step does to the wire and to what it owes of the scan. */
  lemma TaskSends(s: State, a: Action, i: nat, scan: string)
    requires Enabled(s, a) && i < |s.tasks| && (a == SendOk(i) || a == SendFail(i) || a == CancelTask(i))
    ensures var t, e := s.tasks[i], Apply(s, a);
            && e.tasks == s.tasks[i := e.tasks[i]]
            && (OwedFor(e.tasks[i], scan).None? || OwedFor(e.tasks[i], scan) == OwedFor(t, scan))
            && (SentFor(e.wire, scan) == SentFor(s.wire, scan)
                || (&& OwedFor(t, scan).Some? && e.tasks[i].Idle?
                    && SentFor(e.wire, scan) == SentFor(s.wire, scan) + [OwedFor(t, scan).value]))
  {
    var t, sent := s.tasks[i], SentFor(s.wire, scan);
    assert sent + [] == sent;
    if t.Sending? {
      FlusherOwes(s.sizes, s.store, t);
      SameOwed(t, Apply(s, a).tasks[i], scan);
      SentForAppend(s.wire, Batch(t.cur, t.batch), scan);
    } else {
      SentForAppend(s.wire, Critical(t.notice), scan);
    }
  }

  lemma TaskKeepsOrder(s: State, a: Action, i: nat, scan: string)
    requires Orderly(s, scan) && Enabled(s, a) && i < |s.tasks|
    requires a == SendOk(i) || a == SendFail(i) || a == CancelTask(i)
    ensures Orderly(Apply(s, a), scan)
  {
    var e, sent := Apply(s, a), SentFor(s.wire, scan);
    TaskSends(s, a, i, scan);
    if SentFor(e.wire, scan) == sent {
      FewerOwed(sent, s.tasks, i, e.tasks[i], scan);
    } else {
      OwedGoesOut(sent, s.tasks, i, OwedFor(s.tasks[i], scan).value, scan);
    }
  }

  lemma SpawnKeepsOrder(sent: seq<ScanStatus>, tasks: seq<Task>, t: Task, scan: string)
    requires OwedOk(sent, tasks, scan) && NextUp(OwedFor(t, scan), sent) && OneOwes(tasks + [t], scan)
    ensures OwedOk(sent, tasks + [t], scan)
  {
  }

  lemma QuietKeepsOrder(s: State, a: Action, scan: string)
    requires Orderly(s, scan) && Enabled(s, a) && !a.SendOk? && !a.SendFail? && !a.CancelTask?
    requires EntersAbove(s, a, scan) && OneOwes(Apply(s, a).tasks, scan)
    ensures Orderly(Apply(s, a), scan)
  {
    var e, sent := Apply(s, a), SentFor(s.wire, scan);
    QuietSpawns(s, a);
    if e.tasks != s.tasks {
      var t := e.tasks[|s.tasks|];
      if OwedFor(t, scan).Some? {
        OwedTwice(t, scan, OwedFor(t, scan).value);
      }
      SpawnKeepsOrder(sent, s.tasks, t, scan);
    }
  }

  lemma {:induction false} OrderlyRun(s: State, acts: seq<Action>, scan: string)
    requires Orderly(s, scan) && OneOwesRun(s, acts, scan) && EntersAboveRun(s, acts, scan)
    ensures Orderly(Exec(s, acts), scan)
  {
    if acts != [] {
      var init, a := acts[..|acts| - 1], acts[|acts| - 1];
      var before := Exec(s, init);
      OrderlyRun(s, init, scan);
      if Enabled(before, a) {
        if a.SendOk? || a.SendFail? || a.CancelTask? {
          TaskKeepsOrder(before, a, a.i, scan);
        } else {
          QuietKeepsOrder(before, a, scan);
        }
      }
    }
  }

  /** While never two reports of the scan have their message to send at a time, and each report enters
      above what the wire carries, the wire carries the scan's statuses in rising order. */
  lemma StatusesInOrder(sizes: Sizes, maxScans: int, acts: seq<Action>, scan: string)
    requires OneOwesRun(Init(sizes, maxScans), acts, scan) && EntersAboveRun(Init(sizes, maxScans), acts, scan)
    ensures var sent := SentFor(Exec(Init(sizes, maxScans), acts).wire, scan);
            forall i, j | 0 <= i < j < |sent| :: Code(sent[i]) < Code(sent[j])
    ensures Orderly(Exec(Init(sizes, maxScans), acts), scan)
  {
    OrderlyRun(Init(sizes, maxScans), acts, scan);
  }

  // ---------- and only then ----------

  ghost predicate AllSucceed(acts: seq<Action>) {
    forall k | 0 <= k < |acts| :: acts[k].SendOk?
  }

  /** However the suspended sends are resumed, if they succeed the scan's statuses stay in order. */
  ghost predicate OrderSafe(s: State, scan: string) {
    forall more | AllSucceed(more) :: Rising(SentFor(Exec(s, more).wire, scan))
  }

  ghost predicate OrderSafeRun(s: State, acts: seq<Action>, scan: string) {
    OrderSafe(Exec(s, acts), scan) && (acts == [] || OrderSafeRun(s, acts[..|acts| - 1], scan))
  }

  lemma {:induction false} SendsKeepOrder(s: State, more: seq<Action>, scan: string)
    requires Orderly(s, scan) && AllSucceed(more)
    ensures Orderly(Exec(s, more), scan)
  {
    if more != [] {
      var init, a := more[..|more| - 1], more[|more| - 1];
      SendsKeepOrder(s, init, scan);
      if Enabled(Exec(s, init), a) {
        TaskKeepsOrder(Exec(s, init), a, a.i, scan);
      }
    }
  }

  /** A task that owes a message, alone, comes to send it. */
  lemma {:induction false} OwedIsSent(s: State, i: nat, scan: string, status: ScanStatus) returns (acts: seq<Action>)
    requires BufferInv(s) && i < |s.tasks| && OwedFor(s.tasks[i], scan) == Some(status)
    ensures AllSucceed(acts) && BufferInv(Exec(s, acts))
    ensures SentFor(Exec(s, acts).wire, scan) == SentFor(s.wire, scan) + [status]
    ensures |Exec(s, acts).tasks| == |s.tasks|
    ensures forall j | 0 <= j < |s.tasks| && j != i :: Exec(s, acts).tasks[j] == s.tasks[j]
    decreases s.tasks[i].Sending?, s.tasks[i].Sending? && s.tasks[i].after.ThenLogs?,
              if s.tasks[i].Sending? then |s.tasks[i].keys| else 0,
              if s.tasks[i].Sending? then |s.tasks[i].rest| else 0
  {
    BufferStep(s, SendOk(i));
    OneSend(s, i, scan, status);
    var more := [];
    if s.tasks[i].Sending? {
      SentMovesOn(s, i);
      more := OwedIsSent(Step(s, SendOk(i)), i, scan, status);
    }
    acts := SendsFirst(s, i, more);
  }

  lemma SendsFirst(s: State, i: nat, more: seq<Action>) returns (acts: seq<Action>)
    requires AllSucceed(more)
    ensures AllSucceed(acts) && Exec(s, acts) == Exec(Step(s, SendOk(i)), more)
  {
    acts := [SendOk(i)] + more;
    ExecFront(s, SendOk(i), more);
  }

  lemma OneSend(s: State, i: nat, scan: string, status: ScanStatus)
    requires i < |s.tasks| && OwedFor(s.tasks[i], scan) == Some(status)
    ensures var t, e := s.tasks[i], Step(s, SendOk(i));
            && e.tasks == s.tasks[i := e.tasks[i]]
            && (t.Posting? ==> SentFor(e.wire, scan) == SentFor(s.wire, scan) + [status])
            && (t.Sending? ==>
                  SentFor(e.wire, scan) == SentFor(s.wire, scan) && OwedFor(e.tasks[i], scan) == Some(status))
  {
    var t := s.tasks[i];
    if t.Sending? {
      FlusherOwes(s.sizes, s.store, t);
      OwedTwice(t, scan, status);
      OwedTwice(AfterSend(s.sizes, s.store, t).task, scan, status);
      SentForAppend(s.wire, Batch(t.cur, t.batch), scan);
      assert SentFor(s.wire, scan) + [] == SentFor(s.wire, scan);
    } else {
      SentForAppend(s.wire, Critical(t.notice), scan);
    }
  }

  /** Of two messages owed, the higher status can be sent first. */
  lemma TwoOwedUnsafe(s: State, lo: nat, hi: nat, scan: string, low: ScanStatus, high: ScanStatus)
    requires BufferInv(s) && lo < |s.tasks| && hi < |s.tasks| && lo != hi
    requires OwedFor(s.tasks[lo], scan) == Some(low) && OwedFor(s.tasks[hi], scan) == Some(high)
    requires Code(low) <= Code(high)
    ensures !OrderSafe(s, scan)
  {
    var first := OwedIsSent(s, hi, scan, high);
    var mid := Exec(s, first);
    var second := OwedIsSent(mid, lo, scan, low);
    ExecConcat(s, first, second);
    var sent := SentFor(Exec(s, first + second).wire, scan);
    var n := |SentFor(s.wire, scan)|;
    assert AllSucceed(first + second);
    assert sent == SentFor(s.wire, scan) + [high] + [low];
    assert sent[n] == high && sent[n + 1] == low;
  }

  /** A report that enters below what the wire carries can be sent there. */
  lemma EntersBelowUnsafe(s: State, a: Action, scan: string, status: ScanStatus)
    requires BufferInv(s) && Notified(scan, status) in Entering(s, a) && !Above(SentFor(s.wire, scan), status)
    ensures !OrderSafe(Step(s, a), scan)
  {
    var e, i, sent := Step(s, a), |s.tasks|, SentFor(s.wire, scan);
    BufferStep(s, a);
    QuietSpawns(s, a);
    OwedTwice(e.tasks[i], scan, status);
    var more := OwedIsSent(e, i, scan, status);
    var k :| 0 <= k < |sent| && Code(sent[k]) >= Code(status);
    var after := SentFor(Exec(e, more).wire, scan);
    assert after == sent + [status] && after[k] == sent[k] && after[|sent|] == status;
  }

  lemma UnsafeIfTwoOwe(s: State, scan: string)
    requires BufferInv(s) && !OneOwes(s.tasks, scan)
    ensures !OrderSafe(s, scan)
  {
    var i, j :| 0 <= i < j < |s.tasks| && OwedFor(s.tasks[i], scan).Some? && OwedFor(s.tasks[j], scan).Some?;
    var a, b := OwedFor(s.tasks[i], scan).value, OwedFor(s.tasks[j], scan).value;
    if Code(a) <= Code(b) {
      TwoOwedUnsafe(s, i, j, scan, a, b);
    } else {
      TwoOwedUnsafe(s, j, i, scan, b, a);
    }
  }

  lemma SafeIfOrderly(s: State, scan: string)
    requires Orderly(s, scan)
    ensures OrderSafe(s, scan)
  {
    forall more | AllSucceed(more)
      ensures Rising(SentFor(Exec(s, more).wire, scan))
    {
      SendsKeepOrder(s, more, scan);
    }
  }

  /** Over every run: at every moment, however the suspended sends are resumed, the scan's statuses go out
      in rising order, if and only if never two of its reports have their message to send at a
      time, and each report enters above all the wire carries for the scan. */
  lemma {:induction false} StatusOrderIff(sizes: Sizes, maxScans: int, acts: seq<Action>, scan: string)
    requires ValidSizes(sizes)
    ensures OrderSafeRun(Init(sizes, maxScans), acts, scan)
       <==> OneOwesRun(Init(sizes, maxScans), acts, scan) && EntersAboveRun(Init(sizes, maxScans), acts, scan)
  {
    var init := Init(sizes, maxScans);
    if acts != [] {
      StatusOrderIff(sizes, maxScans, acts[..|acts| - 1], scan);
      BufferRun(sizes, maxScans, acts[..|acts| - 1]);
    }
    BufferRun(sizes, maxScans, acts);
    if OneOwesRun(init, acts, scan) && EntersAboveRun(init, acts, scan) {
      StatusesInOrder(sizes, maxScans, acts, scan);
      SafeIfOrderly(Exec(init, acts), scan);
    } else if !OneOwes(Exec(init, acts).tasks, scan) {
      UnsafeIfTwoOwe(Exec(init, acts), scan);
    } else if acts != [] && !EntersAbove(Exec(init, acts[..|acts| - 1]), acts[|acts| - 1], scan) {
      var s, a := Exec(init, acts[..|acts| - 1]), acts[|acts| - 1];
      var status :| Notified(scan, status) in Entering(s, a) && !Above(SentFor(s.wire, scan), status);
      EntersBelowUnsafe(s, a, scan, status);
    }
  }

  // ---------- one drone ----------

  /** A status that drone d has passed or is in. */
  predicate Passed(pool: seq<DroneRec>, d: nat, status: ScanStatus) {
    d < |pool| && Code(status) <= Code(pool[d].status)
  }

  /** Everything sent or owed for the scan, drone d has passed. */
  predicate AllPassed(sent: seq<ScanStatus>, tasks: seq<Task>, pool: seq<DroneRec>, scan: string, d: nat) {
    && (forall k | 0 <= k < |sent| :: Passed(pool, d, sent[k]))
    && (forall i | 0 <= i < |tasks| && OwedFor(tasks[i], scan).Some? :: Passed(pool, d, OwedFor(tasks[i], scan).value))
  }

  lemma PassedStays(s: State, a: Action, d: nat, status: ScanStatus)
    requires Passed(s.pool, d, status)
    ensures Passed(Step(s, a).pool, d, status)
  {
    DroneInQueen.StatusStep(s, a, d);
  }

  lemma PassedLater(sent: seq<ScanStatus>, tasks: seq<Task>, s: State, a: Action, scan: string, d: nat)
    requires AllPassed(sent, tasks, s.pool, scan, d)
    ensures AllPassed(sent, tasks, Step(s, a).pool, scan, d)
  {
    forall status | Passed(s.pool, d, status)
      ensures Passed(Step(s, a).pool, d, status)
    {
      PassedStays(s, a, d, status);
    }
  }

  /** In a scan of one drone, whatever handler is entered is above all that has been sent. */
  lemma EntersAboveDrone(s: State, a: Action, scan: string, d: nat)
    requires AllPassed(SentFor(s.wire, scan), s.tasks, s.pool, scan, d)
    requires OnlyDrone(Step(s, a).pool, scan, d)
    requires !(a.CmdStart? && a.scan == scan && QueenRegistry.Refused(s, scan, a.valid))
    ensures EntersAbove(s, a, scan)
    ensures forall status | Notified(scan, status) in Entering(s, a) :: Passed(Step(s, a).pool, d, status)
  {
    forall status | Notified(scan, status) in Entering(s, a)
      ensures Above(SentFor(s.wire, scan), status) && Passed(Step(s, a).pool, d, status)
    {
      EntersByDrone(s, a, scan, d, status);
      DroneInQueen.StatusStep(s, a, d);
    }
  }

  lemma PassedStep(s: State, a: Action, scan: string, d: nat)
    requires AllPassed(SentFor(s.wire, scan), s.tasks, s.pool, scan, d)
    requires OnlyDrone(Step(s, a).pool, scan, d)
    requires !(a.CmdStart? && a.scan == scan && QueenRegistry.Refused(s, scan, a.valid))
    ensures var e := Step(s, a); AllPassed(SentFor(e.wire, scan), e.tasks, e.pool, scan, d)
    ensures EntersAbove(s, a, scan)
  {
    var e := Step(s, a);
    PassedLater(SentFor(s.wire, scan), s.tasks, s, a, scan, d);
    EntersAboveDrone(s, a, scan, d);
    if Enabled(s, a) {
      if a.SendOk? || a.SendFail? || a.CancelTask? {
        TaskSends(s, a, a.i, scan);
        TaskPasses(SentFor(s.wire, scan), SentFor(e.wire, scan), s.tasks, a.i, e.tasks[a.i], e.pool, scan, d);
      } else {
        QuietSpawns(s, a);
        if e.tasks != s.tasks && OwedFor(e.tasks[|s.tasks|], scan).Some? {
          OwedTwice(e.tasks[|s.tasks|], scan, OwedFor(e.tasks[|s.tasks|], scan).value);
        }
      }
    }
  }

  lemma TaskPasses(sent: seq<ScanStatus>, after: seq<ScanStatus>, tasks: seq<Task>, i: nat, next: Task,
                   pool: seq<DroneRec>, scan: string, d: nat)
    requires AllPassed(sent, tasks, pool, scan, d) && i < |tasks|
    requires OwedFor(next, scan).None? || OwedFor(next, scan) == OwedFor(tasks[i], scan)
    requires after == sent || (OwedFor(tasks[i], scan).Some? && after == sent + [OwedFor(tasks[i], scan).value])
    ensures AllPassed(after, tasks[i := next], pool, scan, d)
  {
  }

  lemma {:induction false} RatchetEntersAbove(s: State, acts: seq<Action>, scan: string, d: nat)
    requires AllPassed(SentFor(s.wire, scan), s.tasks, s.pool, scan, d)
    requires OnlyDrone(Exec(s, acts).pool, scan, d) && NeverRefused(s, acts, scan)
    ensures EntersAboveRun(s, acts, scan)
    ensures var e := Exec(s, acts); AllPassed(SentFor(e.wire, scan), e.tasks, e.pool, scan, d)
  {
    if acts != [] {
      var init, a := acts[..|acts| - 1], acts[|acts| - 1];
      EntersByDrone(Exec(s, init), a, scan, d, NotStarted);
      RatchetEntersAbove(s, init, scan, d);
      PassedStep(Exec(s, init), a, scan, d);
    }
  }

  /** For a scan with one drone and no refused start the drone's ratchet sees to the second condition, and
      no status above the drone's own is ever sent. */
  lemma OneDroneOrderIff(sizes: Sizes, maxScans: int, acts: seq<Action>, scan: string, d: nat)
    requires ValidSizes(sizes)
    requires OnlyDrone(Exec(Init(sizes, maxScans), acts).pool, scan, d)
    requires NeverRefused(Init(sizes, maxScans), acts, scan)
    ensures OrderSafeRun(Init(sizes, maxScans), acts, scan) <==> OneOwesRun(Init(sizes, maxScans), acts, scan)
    ensures var s := Exec(Init(sizes, maxScans), acts);
            forall k | 0 <= k < |SentFor(s.wire, scan)| :: Passed(s.pool, d, SentFor(s.wire, scan)[k])
  {
    RatchetEntersAbove(Init(sizes, maxScans), acts, scan, d);
    StatusOrderIff(sizes, maxScans, acts, scan);
  }
}
