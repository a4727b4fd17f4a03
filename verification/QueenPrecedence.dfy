/** Exactly when a terminal status message follows a scan's data: for one stream, over every
    continuation of the queen in which the report's own sends succeed. */
module QueenPrecedence {
  import opened QueenMachine
  import opened QueenLedger
  import opened QueenBuffers
  import opened QueenOrder
  import opened QueenTerminal

  // ---------- continuations ----------

  /** The action begins a flush that will look at x. */
  predicate Visits(s: State, a: Action, x: Stream) {
    match a
    case BeginFlush(kind) => kind == x.kind
    case CmdStart(scan, valid) => scan in s.drones || Available(s) <= 0 || !valid
    case Report(_, _) => GoesTerminal(s, a)
    case _ => false
  }

  /** The action neither fails a send of task i nor cancels it. */
  predicate Spares(a: Action, i: nat) {
    a != SendFail(i) && a != CancelTask(i)
  }

  ghost predicate Spared(acts: seq<Action>, i: nat) {
    forall a | a in acts :: Spares(a, i)
  }

  /** No action of the run begins a flush that will look at x. */
  ghost predicate NoNewVisit(s: State, acts: seq<Action>, x: Stream) {
    acts == [] || (NoNewVisit(s, acts[..|acts| - 1], x) && !Visits(Exec(s, acts[..|acts| - 1]), acts[|acts| - 1], x))
  }

  /** The wire carries every line of goal, as often as it occurs there. */
  ghost predicate AllOut(goal: seq<Item>, wire: seq<Msg>, x: Stream) {
    forall v :: Count(goal, v) <= Count(Delivered(wire, x), v)
  }

  predicate NonePending(tasks: seq<Task>, i: int, x: Stream) {
    forall j | 0 <= j < |tasks| && j != i :: !Pending(tasks[j], x)
  }

  /** Nobody but task i holds x, and as long as x is in the buffer nobody else has it pending. */
  predicate Unclaimed(s: State, i: nat, x: Stream) {
    NoneElse(s.tasks, i, x) && (At(s.store.buf, x) != [] ==> NonePending(s.tasks, i, x))
  }

  // ---------- while nobody else claims x ----------

  /** What of goal is not on the wire is in the handler's hands. */
  ghost predicate InHand(s: State, i: nat, goal: seq<Item>, x: Stream) {
    && i < |s.tasks|
    && forall v :: Count(goal, v) <= Count(Delivered(s.wire, x), v) + Count(HeldBy(s.tasks[i], x), v)
  }

  /** What of goal is not on the wire is in the buffer, for the handler to take. */
  ghost predicate Waiting(s: State, i: nat, goal: seq<Item>, x: Stream) {
    && i < |s.tasks| && Pending(s.tasks[i], x) && s.tasks[i].cur != x
    && NoneElse(s.tasks, i, x) && NonePending(s.tasks, i, x)
    && At(s.store.buf, x) != []
    && forall v :: Count(goal, v) <= Count(Delivered(s.wire, x), v) + Count(At(s.store.buf, x), v)
  }

  lemma WireGrows(wire: seq<Msg>, m: Msg, x: Stream, v: Item)
    ensures Count(Delivered(wire + [m], x), v) >= Count(Delivered(wire, x), v)
  {
    DeliveredAppend(wire, m, x);
    if m.Batch? {
      CountConcat(Delivered(wire, x), m.items, v);
    }
  }

  lemma OwnSendInHand(s: State, i: nat, x: Stream, v: Item)
    requires Enabled(s, SendOk(i))
    ensures var e := SendReturns(s, i);
            Count(Delivered(e.wire, x), v) + Count(HeldBy(e.tasks[i], x), v)
            >= Count(Delivered(s.wire, x), v) + Count(HeldBy(s.tasks[i], x), v)
  {
    var t := s.tasks[i];
    if t.Posting? {
      DeliveredAppend(s.wire, Critical(t.notice), x);
    } else {
      BatchInHand(s.wire, t, AfterSend(s.sizes, s.store, t).task, x, v);
    }
  }

  lemma BatchInHand(wire: seq<Msg>, t: Task, next: Task, x: Stream, v: Item)
    requires t.Sending?
    requires t.rest != [] ==> next.Sending? && next.cur == t.cur && next.batch + next.rest == t.rest
    ensures Count(Delivered(wire + [Batch(t.cur, t.batch)], x), v) + Count(HeldBy(next, x), v)
         >= Count(Delivered(wire, x), v) + Count(HeldBy(t, x), v)
  {
    DeliveredAppend(wire, Batch(t.cur, t.batch), x);
    if t.cur == x {
      CountConcat(Delivered(wire, x), t.batch, v);
      CountConcat(t.batch, t.rest, v);
    }
  }

  lemma OtherActionsInHand(s: State, a: Action, i: nat, x: Stream, v: Item)
    requires Enabled(s, a) && i < |s.tasks| && Spares(a, i) && a != SendOk(i)
    ensures i < |Apply(s, a).tasks| && Apply(s, a).tasks[i] == s.tasks[i]
    ensures Count(Delivered(Apply(s, a).wire, x), v) >= Count(Delivered(s.wire, x), v)
  {
    if a.SendOk? {
      var t := s.tasks[a.i];
      WireGrows(s.wire, if t.Posting? then Critical(t.notice) else Batch(t.cur, t.batch), x, v);
    } else if !a.SendFail? && !a.CancelTask? && !a.Read? {
      QuietTook(s, a, x);
      assert Apply(s, a).tasks[..|s.tasks|][i] == s.tasks[i];
    }
  }

  /** Once in hand, the rest is up to the handler, whatever anybody else does. */
  lemma InHandStep(s: State, a: Action, i: nat, goal: seq<Item>, x: Stream)
    requires InHand(s, i, goal, x) && Spares(a, i)
    ensures InHand(Step(s, a), i, goal, x)
  {
    if Enabled(s, a) {
      var e := Apply(s, a);
      if a == SendOk(i) {
        assert |e.tasks| == |s.tasks|;
      } else {
        OtherActionsInHand(s, a, i, x, Item(0, 0, ""));
      }
      forall v
        ensures Count(goal, v) <= Count(Delivered(e.wire, x), v) + Count(HeldBy(e.tasks[i], x), v)
      {
        if a == SendOk(i) {
          OwnSendInHand(s, i, x, v);
        } else {
          OtherActionsInHand(s, a, i, x, v);
        }
      }
    }
  }

  /** A flush that has not x to visit never does. */
  lemma {:induction false} ResumeAvoids(sizes: Sizes, store: Store, keys: seq<Stream>, after: After, x: Stream)
    requires !PendingIn(keys, after, x)
    ensures var t := Resume(sizes, store, keys, after).task; HeldBy(t, x) == [] && !Pending(t, x)
    decreases after.ThenLogs?, |keys|
  {
    if keys == [] {
      if after.ThenLogs? {
        OfKindProps(store.order, Logs);
        ResumeAvoids(sizes, store, OfKind(store.order, Logs), ThenStatus(after.scan, after.status), x);
      }
    } else {
      assert keys == [keys[0]] + keys[1..];
      if At(store.buf, keys[0]) == [] {
        ResumeAvoids(sizes, Pop(store, keys[0]), keys[1..], after, x);
      }
    }
  }

  lemma OthersWait(s: State, a: Action, j: nat, i: nat, goal: seq<Item>, x: Stream)
    requires BufferInv(s) && Waiting(s, i, goal, x) && Enabled(s, a) && j != i
    requires a == SendOk(j) || a == SendFail(j) || a == CancelTask(j)
    ensures Waiting(Apply(s, a), i, goal, x)
  {
    var t, e := s.tasks[j], Apply(s, a);
    if t.Sending? {
      ResumeAvoids(s.sizes, s.store, t.keys, t.after, x);
      ResumeAvoids(s.sizes, Put(s.store, t.cur, t.batch + t.rest), t.keys, t.after, x);
      assert t in s.tasks && TaskOk(s.sizes, t) && t.cur != x;
    }
    assert HeldBy(e.tasks[j], x) == [] && !Pending(e.tasks[j], x);
    OthersSend(s, a, j, x);
  }

  lemma HandlerTakes(s: State, i: nat, goal: seq<Item>, x: Stream)
    requires BufferInv(s) && Waiting(s, i, goal, x)
    ensures Waiting(SendReturns(s, i), i, goal, x) || InHand(SendReturns(s, i), i, goal, x)
  {
    var t := s.tasks[i];
    DeliveredAppend(s.wire, Batch(t.cur, t.batch), x);
    if t.rest == [] {
      ResumeTakes(s.sizes, s.store, t.keys, t.after, x);
    }
  }

  lemma ReadWaits(s: State, d: nat, kind: Kind, i: nat, goal: seq<Item>, x: Stream)
    requires Waiting(s, i, goal, x) && Enabled(s, Read(d, kind))
    ensures Waiting(ReadLine(s, d, kind), i, goal, x)
  {
    var line := PipeOf(s.pool[d], kind).unread[..1];
    forall v
      ensures Count(goal, v) <= Count(Delivered(s.wire, x), v) + Count(At(ReadLine(s, d, kind).store.buf, x), v)
    {
      CountConcat(At(s.store.buf, x), line, v);
    }
  }

  lemma QuietWaits(s: State, a: Action, i: nat, goal: seq<Item>, x: Stream)
    requires Waiting(s, i, goal, x) && Enabled(s, a) && !Visits(s, a, x)
    requires !a.Read? && !a.SendOk? && !a.SendFail? && !a.CancelTask?
    ensures Waiting(Apply(s, a), i, goal, x)
  {
    var e := Apply(s, a);
    QuietTook(s, a, x);
    if Took(s, e, x) {
      NewTaskAvoids(s, a, x);
      SpawnWaits(s, e, i, goal, x);
    }
  }

  lemma NewTaskAvoids(s: State, a: Action, x: Stream)
    requires Enabled(s, a) && !Visits(s, a, x) && |Apply(s, a).tasks| > |s.tasks|
    requires !a.Read? && !a.SendOk? && !a.SendFail? && !a.CancelTask?
    ensures var t := Apply(s, a).tasks[|s.tasks|]; HeldBy(t, x) == [] && !Pending(t, x)
  {
    if a.BeginFlush? {
      OfKindProps(s.store.order, a.kind);
      ResumeAvoids(s.sizes, s.store, OfKind(s.store.order, a.kind), Nothing, x);
    }
  }

  lemma SpawnWaits(s: State, e: State, i: nat, goal: seq<Item>, x: Stream)
    requires Waiting(s, i, goal, x) && Took(s, e, x)
    requires var t := e.tasks[|s.tasks|]; HeldBy(t, x) == [] && !Pending(t, x)
    ensures Waiting(e, i, goal, x)
  {
    var t := e.tasks[|s.tasks|];
    NoneFirst(HeldBy(t, x), At(e.store.buf, x));
    assert At(e.store.buf, x) == At(s.store.buf, x);
    assert e.tasks == s.tasks + [t];
    assert NoneElse(e.tasks, i, x) && NonePending(e.tasks, i, x);
    assert e.tasks[i] == s.tasks[i];
  }

  lemma WaitingStep(s: State, a: Action, i: nat, goal: seq<Item>, x: Stream)
    requires BufferInv(s) && Waiting(s, i, goal, x) && Spares(a, i) && !Visits(s, a, x)
    ensures Waiting(Step(s, a), i, goal, x) || InHand(Step(s, a), i, goal, x)
  {
    if !Enabled(s, a) {
    } else if a == SendOk(i) {
      HandlerTakes(s, i, goal, x);
    } else if a.SendOk? || a.SendFail? || a.CancelTask? {
      OthersWait(s, a, a.i, i, goal, x);
    } else if a.Read? {
      ReadWaits(s, a.d, a.kind, i, goal, x);
    } else {
      QuietWaits(s, a, i, goal, x);
    }
  }

  lemma {:induction false} InHandRun(s: State, acts: seq<Action>, i: nat, goal: seq<Item>, x: Stream)
    requires InHand(s, i, goal, x) && Spared(acts, i)
    ensures InHand(Exec(s, acts), i, goal, x)
  {
    if acts != [] {
      InHandRun(s, acts[..|acts| - 1], i, goal, x);
      InHandStep(Exec(s, acts[..|acts| - 1]), acts[|acts| - 1], i, goal, x);
    }
  }

  lemma {:induction false} WaitingRun(s: State, acts: seq<Action>, i: nat, goal: seq<Item>, x: Stream)
    requires BufferInv(s) && (Waiting(s, i, goal, x) || InHand(s, i, goal, x))
    requires Spared(acts, i) && NoNewVisit(s, acts, x)
    ensures BufferInv(Exec(s, acts))
    ensures Waiting(Exec(s, acts), i, goal, x) || InHand(Exec(s, acts), i, goal, x)
  {
    if acts != [] {
      var init, a := acts[..|acts| - 1], acts[|acts| - 1];
      WaitingRun(s, init, i, goal, x);
      BufferStep(Exec(s, init), a);
      if Waiting(Exec(s, init), i, goal, x) {
        WaitingStep(Exec(s, init), a, i, goal, x);
      } else {
        InHandStep(Exec(s, init), a, i, goal, x);
      }
    }
  }

  // ---------- when somebody else claims x ----------

  function Mass(s: State, x: Stream): nat {
    |Delivered(s.wire, x)| + |Held(s.tasks, x)| + |At(s.store.buf, x)|
  }

  lemma HeldLength(tasks: seq<Task>, i: nat, t: Task, x: Stream)
    requires i < |tasks|
    ensures |Held(tasks[i := t], x)| + |HeldBy(tasks[i], x)| == |Held(tasks, x)| + |HeldBy(t, x)|
  {
    HeldSplit(tasks, i, t, x);
    HeldSplit(tasks, i, tasks[i], x);
    assert tasks[i := tasks[i]] == tasks;
  }

  lemma SendOkMass(s: State, i: nat, x: Stream)
    requires Enabled(s, SendOk(i))
    ensures Mass(SendReturns(s, i), x) == Mass(s, x)
  {
    var t, e := s.tasks[i], SendReturns(s, i);
    HeldLength(s.tasks, i, e.tasks[i], x);
    if t.Posting? {
      DeliveredAppend(s.wire, Critical(t.notice), x);
    } else {
      var f := AfterSend(s.sizes, s.store, t);
      DeliveredAppend(s.wire, Batch(t.cur, t.batch), x);
      AfterSendConserves(s.sizes, s.store, t, x);
      assert |HeldBy(f.task, x) + At(f.store.buf, x)| == |HeldBy(f.task, x)| + |At(f.store.buf, x)|;
    }
  }

  lemma SendFailMass(s: State, j: nat, x: Stream)
    requires j < |s.tasks| && s.tasks[j].Sending? && s.tasks[j].cur != x
    ensures Mass(SendRaises(s, j), x) == Mass(s, x)
  {
    var t, e := s.tasks[j], SendRaises(s, j);
    var f := AfterFailure(s.sizes, s.store, t);
    HeldLength(s.tasks, j, f.task, x);
    AfterFailureConserves(s.sizes, s.store, t, x);
    assert |HeldBy(f.task, x) + At(f.store.buf, x)| == |HeldBy(f.task, x)| + |At(f.store.buf, x)|;
  }

  lemma {:induction false} HeldAtLeast(tasks: seq<Task>, j: nat, x: Stream)
    requires j < |tasks|
    ensures |Held(tasks, x)| >= |HeldBy(tasks[j], x)|
  {
    HeldSplit(tasks, j, tasks[j], x);
    assert tasks[j := tasks[j]] == tasks;
  }

  /** What is held by another task when the status goes out is not on the wire. */
  lemma NotAllOut(goal: seq<Item>, e: State, j: nat, x: Stream)
    requires |goal| == Mass(e, x) && j < |e.tasks| && HeldBy(e.tasks[j], x) != []
    ensures !AllOut(goal, e.wire, x)
  {
    HeldAtLeast(e.tasks, j, x);
    if AllOut(goal, e.wire, x) {
      NoLonger(goal, Delivered(e.wire, x));
    }
  }

  lemma NoLonger(goal: seq<Item>, d: seq<Item>)
    requires forall v :: Count(goal, v) <= Count(d, v)
    ensures |goal| <= |d|
  {
    forall v
      ensures multiset(goal)[v] <= multiset(d)[v]
    {
      CountIsMultiplicity(goal, v);
      CountIsMultiplicity(d, v);
    }
    assert multiset(d) == multiset(goal) + (multiset(d) - multiset(goal));
    assert |multiset(goal)| == |goal| && |multiset(d)| == |d|;
  }

  /** e differs from s by steps of task i: the others are as they were, and no line of x is lost. */
  ghost predicate OnlyMoved(s: State, e: State, i: nat, x: Stream) {
    && |e.tasks| == |s.tasks| && (forall j | 0 <= j < |s.tasks| && j != i :: e.tasks[j] == s.tasks[j])
    && Mass(e, x) == Mass(s, x)
  }

  lemma {:induction false} ResumeShrinks(sizes: Sizes, store: Store, keys: seq<Stream>, after: After)
    requires !after.Nothing?
    ensures var t := Resume(sizes, store, keys, after).task;
            || t.Posting?
            || (t.Sending? && t.after == after && |t.keys| < |keys|)
            || (t.Sending? && after.ThenLogs? && t.after.ThenStatus?)
    decreases after.ThenLogs?, |keys|
  {
    if keys == [] {
      if after.ThenLogs? {
        ResumeShrinks(sizes, store, OfKind(store.order, Logs), ThenStatus(after.scan, after.status));
      }
    } else if At(store.buf, keys[0]) == [] {
      ResumeShrinks(sizes, Pop(store, keys[0]), keys[1..], after);
    }
  }

  lemma SentMovesOn(s: State, i: nat)
    requires BufferInv(s) && i < |s.tasks| && s.tasks[i].Sending? && !s.tasks[i].after.Nothing?
    ensures var t, next := s.tasks[i], SendReturns(s, i).tasks[i];
            || next.Posting?
            || (&& next.Sending? && !next.after.Nothing?
                && (t.after.ThenStatus? ==> next.after == t.after)
                && (next.after == t.after ==>
                     |next.keys| < |t.keys| || (next.keys == t.keys && |next.rest| < |t.rest|))
                && (next.after != t.after ==> next.after.ThenStatus?))
  {
    var t := s.tasks[i];
    assert t in s.tasks && TaskOk(s.sizes, t);
    if t.rest == [] {
      ResumeShrinks(s.sizes, s.store, t.keys, t.after);
    }
  }

  /** The handler, alone, sends what it has and may take, and comes to its status message. */
  lemma {:induction false} HandlerGoesOn(s: State, i: nat, x: Stream) returns (acts: seq<Action>)
    requires BufferInv(s) && i < |s.tasks|
    requires s.tasks[i].Posting? || (s.tasks[i].Sending? && !s.tasks[i].after.Nothing?)
    ensures forall k | 0 <= k < |acts| :: acts[k] == SendOk(i)
    ensures Reporting(Exec(s, acts), i) && OnlyMoved(s, Exec(s, acts), i, x)
    decreases s.tasks[i].Sending?, s.tasks[i].Sending? && s.tasks[i].after.ThenLogs?,
              if s.tasks[i].Sending? then |s.tasks[i].keys| else 0,
              if s.tasks[i].Sending? then |s.tasks[i].rest| else 0
  {
    var t := s.tasks[i];
    if t.Posting? {
      acts := [];
    } else {
      SentMovesOn(s, i);
      BufferStep(s, SendOk(i));
      SendOkMass(s, i, x);
      var more := HandlerGoesOn(Step(s, SendOk(i)), i, x);
      acts := [SendOk(i)] + more;
      ExecFront(s, SendOk(i), more);
    }
  }

  lemma FailedSendMovesOn(s: State, j: nat, x: Stream)
    requires BufferInv(s) && j < |s.tasks| && Pending(s.tasks[j], x) && s.tasks[j].cur != x
    requires At(s.store.buf, x) != []
    ensures var t, next, left := s.tasks[j], SendRaises(s, j).tasks[j], SendRaises(s, j).store.buf;
            && next.Sending?
            && (next.cur == x ==> HeldBy(next, x) != [])
            && (next.cur != x ==> Pending(next, x) && At(left, x) != []
                                  && (next.after == t.after ==> |next.keys| < |t.keys|)
                                  && (next.after != t.after ==> t.after.ThenLogs? && next.after.ThenStatus?))
  {
    var t := s.tasks[j];
    assert t in s.tasks && TaskOk(s.sizes, t);
    var put := Put(s.store, t.cur, t.batch + t.rest);
    PutOk(s.store, t.cur, t.batch + t.rest);
    ResumeTakes(s.sizes, put, t.keys, t.after, x);
  }

  lemma FailedSendMoves(s: State, j: nat, x: Stream)
    requires BufferInv(s) && j < |s.tasks| && s.tasks[j].Sending? && s.tasks[j].cur != x
    ensures BufferInv(Step(s, SendFail(j))) && OnlyMoved(s, Step(s, SendFail(j)), j, x)
  {
    BufferStep(s, SendFail(j));
    SendFailMass(s, j, x);
  }

  lemma MovesOn(s: State, mid: State, e: State, j: nat, x: Stream)
    requires OnlyMoved(s, mid, j, x) && OnlyMoved(mid, e, j, x)
    ensures OnlyMoved(s, e, j, x)
  {
  }

  /** A flusher with x pending, each of its sends failing, comes to hold x. */
  lemma {:induction false} FlusherTakes(s: State, j: nat, x: Stream) returns (acts: seq<Action>)
    requires BufferInv(s) && j < |s.tasks| && Pending(s.tasks[j], x) && s.tasks[j].cur != x
    requires At(s.store.buf, x) != []
    ensures forall k | 0 <= k < |acts| :: acts[k] == SendFail(j)
    ensures BufferInv(Exec(s, acts)) && OnlyMoved(s, Exec(s, acts), j, x)
    ensures HeldBy(Exec(s, acts).tasks[j], x) != []
    decreases s.tasks[j].after.ThenLogs?, |s.tasks[j].keys|
  {
    FailedSendMovesOn(s, j, x);
    FailedSendMoves(s, j, x);
    var e, more := Step(s, SendFail(j)), [];
    if e.tasks[j].cur != x {
      more := FlusherTakes(e, j, x);
    }
    acts := FailsFirst(s, j, x, more);
  }

  lemma FailsFirst(s: State, j: nat, x: Stream, more: seq<Action>) returns (acts: seq<Action>)
    requires OnlyMoved(s, Step(s, SendFail(j)), j, x)
    requires OnlyMoved(Step(s, SendFail(j)), Exec(Step(s, SendFail(j)), more), j, x)
    requires forall k | 0 <= k < |more| :: more[k] == SendFail(j)
    ensures forall k | 0 <= k < |acts| :: acts[k] == SendFail(j)
    ensures Exec(s, acts) == Exec(Step(s, SendFail(j)), more) && OnlyMoved(s, Exec(s, acts), j, x)
  {
    acts := [SendFail(j)] + more;
    ExecFront(s, SendFail(j), more);
    MovesOn(s, Step(s, SendFail(j)), Exec(s, acts), j, x);
  }

  lemma {:induction false} SendsVisitNothing(s: State, acts: seq<Action>, i: nat, j: nat, x: Stream)
    requires i != j && forall k | 0 <= k < |acts| :: acts[k] == SendOk(i) || acts[k] == SendFail(j)
    ensures NoNewVisit(s, acts, x) && Spared(acts, i)
  {
    if acts != [] {
      SendsVisitNothing(s, acts[..|acts| - 1], i, j, x);
      assert forall a | a in acts :: Spares(a, i);
    }
  }

  /** Somebody else who holds x, or has it pending while it is buffered, can make the handler's
      status go out before it. */
  lemma ClaimedIsLate(s: State, i: nat, x: Stream, goal: seq<Item>) returns (acts: seq<Action>)
    requires BufferInv(s) && i < |s.tasks| && |goal| == Mass(s, x)
    requires s.tasks[i].Posting? || (s.tasks[i].Sending? && !s.tasks[i].after.Nothing?)
    requires !Unclaimed(s, i, x)
    ensures Spared(acts, i) && NoNewVisit(s, acts, x)
    ensures Reporting(Exec(s, acts), i) && !AllOut(goal, Exec(s, acts).wire, x)
  {
    var j: nat, first: seq<Action>;
    if !NoneElse(s.tasks, i, x) {
      j :| j < |s.tasks| && j != i && HeldBy(s.tasks[j], x) != [];
      first := [];
    } else {
      j :| j < |s.tasks| && j != i && Pending(s.tasks[j], x);
      assert s.tasks[j] in s.tasks && TaskOk(s.sizes, s.tasks[j]);
      first := FlusherTakes(s, j, x);
    }
    var mid := Exec(s, first);
    assert mid.tasks[i] == s.tasks[i];
    var rest := HandlerGoesOn(mid, i, x);
    acts := first + rest;
    ExecConcat(s, first, rest);
    SendsVisitNothing(s, acts, i, j, x);
    NotAllOut(goal, Exec(s, acts), j, x);
  }

  // ---------- the exact condition ----------

  lemma EntersTerminal(s: State, a: Action, x: Stream)
    requires BufferInv(s) && GoesTerminal(s, a)
    ensures var e, i := Step(s, a), |s.tasks|;
            && BufferInv(e) && Took(s, e, x)
            && (e.tasks[i].Posting? || (e.tasks[i].Sending? && !e.tasks[i].after.Nothing?))
            && (At(e.store.buf, x) != [] ==> Pending(e.tasks[i], x) && At(e.store.buf, x) == At(s.store.buf, x))
            && (At(e.store.buf, x) != [] ==> e.tasks[i].cur != x)
            && Mass(e, x) == Mass(s, x)
  {
    var raised := s.(pool := s.pool[a.d := s.pool[a.d].(status := a.status)]);
    var e := Step(s, a);
    var t := e.tasks[|s.tasks|];
    Entered(raised, s.pool[a.d].scan, a.status, x);
    BufferStep(s, a);
    ResumeShrinks(s.sizes, s.store, OfKind(s.store.order, Events), ThenLogs(s.pool[a.d].scan, a.status));
    assert e.tasks == s.tasks + [t];
    HeldAppend(s.tasks, t, x);
    assert |HeldBy(t, x) + At(e.store.buf, x)| == |HeldBy(t, x)| + |At(e.store.buf, x)|;
    if t.Sending? && t.cur == x {
      assert t in e.tasks && TaskOk(e.sizes, t);
      assert |HeldBy(t, x)| > 0;
    }
  }

  lemma EntryCovered(s: State, a: Action, x: Stream)
    requires BufferInv(s) && GoesTerminal(s, a)
    requires Unclaimed(Step(s, a), |s.tasks|, x)
    ensures Waiting(Step(s, a), |s.tasks|, Line(s, x), x) || InHand(Step(s, a), |s.tasks|, Line(s, x), x)
    ensures At(Step(s, a).store.buf, x) == [] ==> InHand(Step(s, a), |s.tasks|, Line(s, x), x)
  {
    var e, i := Step(s, a), |s.tasks|;
    EntersTerminal(s, a, x);
    CoveredAtEntry(s, e, x);
  }

  lemma CoveredAtEntry(s: State, e: State, x: Stream)
    requires Took(s, e, x) && Unclaimed(e, |s.tasks|, x)
    requires At(e.store.buf, x) != [] ==>
               && Pending(e.tasks[|s.tasks|], x) && At(e.store.buf, x) == At(s.store.buf, x)
               && e.tasks[|s.tasks|].cur != x
    ensures Waiting(e, |s.tasks|, Line(s, x), x) || InHand(e, |s.tasks|, Line(s, x), x)
    ensures At(e.store.buf, x) == [] ==> InHand(e, |s.tasks|, Line(s, x), x)
  {
    var i := |s.tasks|;
    assert forall j | 0 <= j < i :: e.tasks[j] == e.tasks[..i][j] == s.tasks[j];
    NoneHeld(s.tasks, x);
    assert Line(s, x) == Delivered(s.wire, x) + At(s.store.buf, x);
    EntryCounts(e, i, Line(s, x), At(s.store.buf, x), x);
  }

  lemma EntryCounts(e: State, i: nat, goal: seq<Item>, b: seq<Item>, x: Stream)
    requires i < |e.tasks| && Unclaimed(e, i, x)
    requires goal == Delivered(e.wire, x) + b && HeldBy(e.tasks[i], x) + At(e.store.buf, x) == b
    requires At(e.store.buf, x) != [] ==> Pending(e.tasks[i], x) && e.tasks[i].cur != x
    ensures At(e.store.buf, x) == [] ==> InHand(e, i, goal, x)
    ensures At(e.store.buf, x) != [] ==> Waiting(e, i, goal, x)
  {
    CountsAtEntry(Delivered(e.wire, x), b, HeldBy(e.tasks[i], x), At(e.store.buf, x));
    if At(e.store.buf, x) == [] {
      assert forall v :: Count(At(e.store.buf, x), v) == 0;
    } else {
      assert forall v :: Count(HeldBy(e.tasks[i], x), v) == 0;
    }
  }

  lemma CountsAtEntry(d: seq<Item>, b: seq<Item>, taken: seq<Item>, left: seq<Item>)
    requires taken + left == b
    ensures forall v :: Count(d + b, v) == Count(d, v) + Count(taken, v) + Count(left, v)
  {
    forall v
      ensures Count(d + b, v) == Count(d, v) + Count(taken, v) + Count(left, v)
    {
      CountConcat(d, b, v);
      CountConcat(taken, left, v);
    }
  }

  /** In every continuation that begins no new flush of x, everything of x that was delivered, held or
      buffered when the terminal report entered is on the wire when its status message goes out. */
  ghost predicate Precedes(s: State, a: Action, x: Stream) {
    forall acts | Spared(acts, |s.tasks|) && NoNewVisit(Step(s, a), acts, x)
                  && Reporting(Exec(Step(s, a), acts), |s.tasks|) ::
      AllOut(Line(s, x), Exec(Step(s, a), acts).wire, x)
  }

  /** It does if and only if, once the report has run to its first suspension, no other task holds x,
      or has it pending while it is still in the buffer. */
  lemma PrecedesIffUnclaimed(s: State, a: Action, x: Stream)
    requires BufferInv(s) && GoesTerminal(s, a)
    ensures Precedes(s, a, x) <==> Unclaimed(Step(s, a), |s.tasks|, x)
  {
    var e, i := Step(s, a), |s.tasks|;
    EntersTerminal(s, a, x);
    if Unclaimed(e, i, x) {
      EntryCovered(s, a, x);
      forall acts | Spared(acts, i) && NoNewVisit(e, acts, x) && Reporting(Exec(e, acts), i)
        ensures AllOut(Line(s, x), Exec(e, acts).wire, x)
      {
        WaitingRun(e, acts, i, Line(s, x), x);
      }
    } else {
      var acts := ClaimedIsLate(e, i, x, Line(s, x));
    }
  }

  /** The same with new flushes free to begin at any time. */
  ghost predicate AlwaysPrecedes(s: State, a: Action, x: Stream) {
    forall acts | Spared(acts, |s.tasks|) && Reporting(Exec(Step(s, a), acts), |s.tasks|) ::
      AllOut(Line(s, x), Exec(Step(s, a), acts).wire, x)
  }

  /** Against flushes that begin later only this helps: nobody else holds x, and the report leaves
      nothing of x in the buffer at its first suspension. */
  lemma AlwaysPrecedesIffTaken(s: State, a: Action, x: Stream)
    requires BufferInv(s) && GoesTerminal(s, a)
    ensures AlwaysPrecedes(s, a, x) <==>
            NoneElse(Step(s, a).tasks, |s.tasks|, x) && At(Step(s, a).store.buf, x) == []
  {
    var e, i := Step(s, a), |s.tasks|;
    EntersTerminal(s, a, x);
    if NoneElse(e.tasks, i, x) && At(e.store.buf, x) == [] {
      TakenPrecedes(s, a, x);
    } else if !NoneElse(e.tasks, i, x) {
      var acts := ClaimedIsLate(e, i, x, Line(s, x));
    } else {
      var acts := NewFlushIsFirst(e, i, x, Line(s, x));
    }
  }

  lemma TakenPrecedes(s: State, a: Action, x: Stream)
    requires BufferInv(s) && GoesTerminal(s, a)
    requires NoneElse(Step(s, a).tasks, |s.tasks|, x) && At(Step(s, a).store.buf, x) == []
    ensures AlwaysPrecedes(s, a, x)
  {
    var e, i := Step(s, a), |s.tasks|;
    EntryCovered(s, a, x);
    forall acts | Spared(acts, i) && Reporting(Exec(e, acts), i)
      ensures AllOut(Line(s, x), Exec(e, acts).wire, x)
    {
      InHandRun(e, acts, i, Line(s, x), x);
    }
  }

  lemma NewFlushIsFirst(s: State, i: nat, x: Stream, goal: seq<Item>) returns (acts: seq<Action>)
    requires BufferInv(s) && i < |s.tasks| && |goal| == Mass(s, x) && At(s.store.buf, x) != []
    requires s.tasks[i].Posting? || (s.tasks[i].Sending? && !s.tasks[i].after.Nothing?)
    ensures Spared(acts, i)
    ensures Reporting(Exec(s, acts), i) && !AllOut(goal, Exec(s, acts).wire, x)
  {
    var begin := BeginFlush(x.kind);
    var e, k := Step(s, begin), |s.tasks|;
    var keys := OfKind(s.store.order, x.kind);
    OfKindProps(s.store.order, x.kind);
    ResumeTakes(s.sizes, s.store, keys, Nothing, x);
    ResumeConserves(s.sizes, s.store, keys, Nothing, x);
    BufferStep(s, begin);
    HeldAppend(s.tasks, e.tasks[k], x);
    assert |HeldBy(e.tasks[k], x) + At(e.store.buf, x)| == |HeldBy(e.tasks[k], x)| + |At(e.store.buf, x)|;
    assert e.tasks[i] == s.tasks[i];
    assert !Unclaimed(e, i, x);
    var rest := ClaimedIsLate(e, i, x, goal);
    acts := [begin] + rest;
    ExecFront(s, begin, rest);
  }
}
