/** Data before the terminal status: what a terminal status report leaves on the wire behind it. */
module QueenTerminal {
  import opened Statuses
  import opened QueenMachine
  import opened QueenLedger
  import opened QueenBuffers
  import opened QueenOrder

  // ---------- the handler of one terminal status ----------

  predicate PendingIn(keys: seq<Stream>, after: After, x: Stream) {
    x in keys || (after.ThenLogs? && x.kind.Logs?)
  }

  /** Stream x is still to be visited by the handler. */
  predicate Pending(t: Task, x: Stream) {
    t.Sending? && PendingIn(t.keys, t.after, x)
  }

  /** The handler's promise about stream x.  goal: delivered and buffered at the handler's entry;
      done: delivered now; left: buffered now; clean: none of the handler's sends has failed. */
  predicate Promise(t: Task, goal: seq<Item>, done: seq<Item>, left: seq<Item>, clean: bool, x: Stream) {
    && goal <= done + HeldBy(t, x) + left
    && (t.Sending? && t.cur == x ==> goal <= done + HeldBy(t, x))
    && (clean && !Pending(t, x) ==> goal <= done + HeldBy(t, x))
  }

  lemma PrefixGrows(goal: seq<Item>, line: seq<Item>, more: seq<Item>)
    requires goal <= line
    ensures goal <= line + more
  {
    assert (line + more)[..|goal|] == goal;
  }

  lemma {:induction false} ResumeKeepsPromise(sizes: Sizes, store: Store, keys: seq<Stream>, after: After,
                                             goal: seq<Item>, done: seq<Item>, clean: bool, x: Stream)
    requires StoreOk(store)
    requires goal <= done + At(store.buf, x)
    requires clean && !PendingIn(keys, after, x) ==> goal <= done
    ensures var f := Resume(sizes, store, keys, after); Promise(f.task, goal, done, At(f.store.buf, x), clean, x)
    decreases after.ThenLogs?, |keys|
  {
    assert done + [] == done;
    if keys == [] {
      if after.ThenLogs? {
        OfKindProps(store.order, Logs);
        ResumeKeepsPromise(sizes, store, OfKind(store.order, Logs), ThenStatus(after.scan, after.status),
                           goal, done, clean, x);
      }
    } else {
      PopOk(store, keys[0]);
      if At(store.buf, keys[0]) == [] {
        assert At(Pop(store, keys[0]).buf, x) == At(store.buf, x);
        ResumeKeepsPromise(sizes, Pop(store, keys[0]), keys[1..], after, goal, done, clean, x);
      } else {
        PopKeepsPromise(sizes, store, keys, after, goal, done, clean, x);
      }
    }
  }

  lemma PopKeepsPromise(sizes: Sizes, store: Store, keys: seq<Stream>, after: After,
                        goal: seq<Item>, done: seq<Item>, clean: bool, x: Stream)
    requires keys != [] && At(store.buf, keys[0]) != []
    requires goal <= done + At(store.buf, x)
    requires clean && !PendingIn(keys, after, x) ==> goal <= done
    ensures var t := NextBatch(sizes, keys[1..], keys[0], At(store.buf, keys[0]), after);
            Promise(t, goal, done, At(Pop(store, keys[0]).buf, x), clean, x)
  {
    var t := NextBatch(sizes, keys[1..], keys[0], At(store.buf, keys[0]), after);
    assert done + [] == done;
    if x == keys[0] {
      assert HeldBy(t, x) == At(store.buf, x);
      PrefixGrows(goal, done + HeldBy(t, x), At(Pop(store, x).buf, x));
    } else {
      assert At(Pop(store, keys[0]).buf, x) == At(store.buf, x);
      assert keys == [keys[0]] + keys[1..];
    }
  }

  lemma SendOkKeepsPromise(
    sizes: Sizes, store: Store, t: Task, goal: seq<Item>, done: seq<Item>, clean: bool, x: Stream)
    requires StoreOk(store) && t.Sending?
    requires Promise(t, goal, done, At(store.buf, x), clean, x)
    ensures var f := AfterSend(sizes, store, t);
            Promise(f.task, goal, if t.cur == x then done + t.batch else done, At(f.store.buf, x), clean, x)
  {
    var f := AfterSend(sizes, store, t);
    var now := if t.cur == x then done + t.batch else done;
    var held := if t.cur == x then t.rest else [];
    assert done + HeldBy(t, x) == now + held;
    assert done + HeldBy(t, x) + At(store.buf, x) == now + held + At(store.buf, x);
    assert now + [] == now;
    if t.rest == [] {
      if t.cur == x {
        PrefixGrows(goal, now, At(store.buf, x));
      }
      ResumeKeepsPromise(sizes, store, t.keys, t.after, goal, now, clean, x);
    }
  }

  lemma SendFailKeepsPromise(sizes: Sizes, store: Store, t: Task, goal: seq<Item>, done: seq<Item>, x: Stream)
    requires StoreOk(store) && t.Sending? && t.batch != []
    requires Promise(t, goal, done, At(store.buf, x), false, x)
    ensures var f := AfterFailure(sizes, store, t);
            Promise(f.task, goal, done, At(f.store.buf, x), false, x)
  {
    assert done + [] == done;
    PutOk(store, t.cur, t.batch + t.rest);
    ResumeKeepsPromise(sizes, Put(store, t.cur, t.batch + t.rest), t.keys, t.after, goal, done, false, x);
  }

  // ---------- the handler among other actions ----------

  /** What a handler owes: its status message, and about stream x that goal comes before it. */
  datatype Duty = Duty(scan: string, status: ScanStatus, x: Stream, goal: seq<Item>, clean: bool)

  predicate ServesAfter(after: After, duty: Duty) {
    after == ThenLogs(duty.scan, duty.status) || after == ThenStatus(duty.scan, duty.status)
  }

  /** The task is the handler of this status, at whatever await, or has ended. */
  predicate Serves(t: Task, duty: Duty) {
    match t
    case Idle => true
    case Sending(_, _, _, _, after) => ServesAfter(after, duty)
    case Posting(notice) => notice == StatusMsg(duty.scan, duty.status)
  }

  lemma {:induction false} ResumeServes(sizes: Sizes, store: Store, keys: seq<Stream>, after: After, duty: Duty)
    requires ServesAfter(after, duty)
    ensures Serves(Resume(sizes, store, keys, after).task, duty)
    decreases after.ThenLogs?, |keys|
  {
    if keys == [] {
      if after.ThenLogs? {
        ResumeServes(sizes, store, OfKind(store.order, Logs), ThenStatus(after.scan, after.status), duty);
      }
    } else if At(store.buf, keys[0]) == [] {
      ResumeServes(sizes, Pop(store, keys[0]), keys[1..], after, duty);
    }
  }

  ghost predicate Keeps(s: State, i: nat, duty: Duty) {
    && i < |s.tasks| && NoneElse(s.tasks, i, duty.x)
    && Serves(s.tasks[i], duty)
    && Promise(s.tasks[i], duty.goal, Delivered(s.wire, duty.x), At(s.store.buf, duty.x), duty.clean, duty.x)
  }

  lemma HandlerSends(s: State, a: Action, i: nat, duty: Duty)
    requires BufferInv(s) && Keeps(s, i, duty) && Enabled(s, a)
    requires a == SendOk(i) || (a == SendFail(i) && !duty.clean)
    ensures Keeps(Apply(s, a), i, duty)
  {
    var t, x := s.tasks[i], duty.x;
    assert t in s.tasks;
    if t.Posting? {
      DeliveredAppend(s.wire, Critical(t.notice), x);
    } else if a.SendOk? {
      DeliveredAppend(s.wire, Batch(t.cur, t.batch), x);
      SendOkKeepsPromise(s.sizes, s.store, t, duty.goal, Delivered(s.wire, x), duty.clean, x);
      ResumeServes(s.sizes, s.store, t.keys, t.after, duty);
    } else {
      SendFailKeepsPromise(s.sizes, s.store, t, duty.goal, Delivered(s.wire, x), x);
      ResumeServes(s.sizes, Put(s.store, t.cur, t.batch + t.rest), t.keys, t.after, duty);
    }
  }

  lemma NoneFirst(none: seq<Item>, items: seq<Item>)
    ensures none == [] ==> none + items == items
  {
  }

  /** A send of another task that holds nothing of x, before or after, leaves x alone. */
  lemma OthersSend(s: State, a: Action, j: nat, x: Stream)
    requires BufferInv(s) && Enabled(s, a) && j < |s.tasks|
    requires a == SendOk(j) || a == SendFail(j) || a == CancelTask(j)
    requires HeldBy(s.tasks[j], x) == [] == HeldBy(Apply(s, a).tasks[j], x)
    ensures Delivered(Apply(s, a).wire, x) == Delivered(s.wire, x)
    ensures At(Apply(s, a).store.buf, x) == At(s.store.buf, x)
  {
    var t := s.tasks[j];
    assert t in s.tasks && TaskOk(s.sizes, t);
    if t.Posting? {
      DeliveredAppend(s.wire, Critical(t.notice), x);
    } else if a.SendOk? {
      assert t.cur != x;
      DeliveredAppend(s.wire, Batch(t.cur, t.batch), x);
      AfterSendConserves(s.sizes, s.store, t, x);
      NoneFirst(HeldBy(AfterSend(s.sizes, s.store, t).task, x), At(AfterSend(s.sizes, s.store, t).store.buf, x));
      NoneFirst([], At(s.store.buf, x));
    } else if a.SendFail? {
      assert t.cur != x;
      AfterFailureConserves(s.sizes, s.store, t, x);
      NoneFirst(HeldBy(AfterFailure(s.sizes, s.store, t).task, x), At(AfterFailure(s.sizes, s.store, t).store.buf, x));
    }
  }

  lemma ReaderAppends(s: State, d: nat, kind: Kind, i: nat, duty: Duty)
    requires Keeps(s, i, duty) && Enabled(s, Read(d, kind))
    ensures Keeps(ReadLine(s, d, kind), i, duty)
  {
    var t, x := s.tasks[i], duty.x;
    var line := PipeOf(s.pool[d], kind).unread[..1];
    var done := Delivered(s.wire, x) + HeldBy(t, x);
    PrefixGrows(duty.goal, done + At(s.store.buf, x), line);
    assert done + (At(s.store.buf, x) + line) == done + At(s.store.buf, x) + line;
  }

  /** Whatever happens, as long as no other task holds x and nobody cancels the handler. */
  lemma HandlerStep(s: State, a: Action, i: nat, duty: Duty)
    requires BufferInv(s) && Keeps(s, i, duty)
    requires a != CancelTask(i) && (duty.clean ==> a != SendFail(i))
    requires NoneElse(Step(s, a).tasks, i, duty.x)
    ensures Keeps(Step(s, a), i, duty)
  {
    if !Enabled(s, a) {
    } else if a.SendOk? || a.SendFail? || a.CancelTask? {
      if a.i == i {
        HandlerSends(s, a, i, duty);
      } else {
        OthersSend(s, a, a.i, duty.x);
      }
    } else if a.Read? {
      ReaderAppends(s, a.d, a.kind, i, duty);
    } else {
      QuietTook(s, a, duty.x);
      QuietKeeps(s, Apply(s, a), i, duty);
    }
  }

  lemma QuietKeeps(s: State, e: State, i: nat, duty: Duty)
    requires Keeps(s, i, duty) && NoneElse(e.tasks, i, duty.x)
    requires || Took(s, e, duty.x)
             || (e.wire == s.wire && e.tasks == s.tasks && e.store == s.store && e.book == s.book)
    ensures Keeps(e, i, duty)
  {
    if Took(s, e, duty.x) {
      assert e.tasks[..|s.tasks|][i] == e.tasks[i] == s.tasks[i];
      assert [] + At(e.store.buf, duty.x) == At(s.store.buf, duty.x);
    }
  }

  /** In no state of the run does a task other than the i-th hold x. */
  ghost predicate SoleRun(s: State, acts: seq<Action>, i: nat, x: Stream) {
    NoneElse(Exec(s, acts).tasks, i, x) && (acts == [] || SoleRun(s, acts[..|acts| - 1], i, x))
  }

  lemma {:induction false} HandlerRun(s: State, acts: seq<Action>, i: nat, duty: Duty)
    requires BufferInv(s) && Keeps(s, i, duty)
    requires SoleRun(s, acts, i, duty.x) && CancelTask(i) !in acts
    requires duty.clean ==> SendFail(i) !in acts
    ensures BufferInv(Exec(s, acts)) && Keeps(Exec(s, acts), i, duty)
  {
    if acts != [] {
      var init, a := acts[..|acts| - 1], acts[|acts| - 1];
      HandlerRun(s, init, i, duty);
      BufferStep(Exec(s, init), a);
      HandlerStep(Exec(s, init), a, i, duty);
    }
  }

  /** A handler that enters with x in the buffer has taken it or has it pending; and then nothing of
      it has moved. */
  lemma Entered(s: State, scan: string, status: ScanStatus, x: Stream)
    requires BufferInv(s) && IsTerminal(status)
    ensures var e := HandleStatus(s, scan, status);
            && Took(s, e, x)
            && (At(e.store.buf, x) != [] ==> Pending(e.tasks[|s.tasks|], x) && At(e.store.buf, x) == At(s.store.buf, x))
  {
    var keys, after := OfKind(s.store.order, Events), ThenLogs(scan, status);
    HandleTook(s, scan, status, x);
    OfKindProps(s.store.order, Events);
    if At(s.store.buf, x) != [] {
      ResumeTakes(s.sizes, s.store, keys, after, x);
    }
  }

  /** A flush that has x to visit, with lines of x in the buffer, takes them all or keeps x pending. */
  lemma {:induction false} ResumeTakes(sizes: Sizes, store: Store, keys: seq<Stream>, after: After, x: Stream)
    requires StoreOk(store) && PendingIn(keys, after, x) && At(store.buf, x) != []
    ensures var f := Resume(sizes, store, keys, after);
            && f.task.Sending?
            && (f.task.cur == x ==> HeldBy(f.task, x) == At(store.buf, x) && At(f.store.buf, x) == [])
            && (f.task.cur != x ==> Pending(f.task, x) && At(f.store.buf, x) == At(store.buf, x)
                                    && (f.task.after == after ==> |f.task.keys| < |keys|)
                                    && (f.task.after != after ==> after.ThenLogs? && f.task.after.ThenStatus?))
    decreases after.ThenLogs?, |keys|
  {
    if keys == [] {
      OfKindProps(store.order, Logs);
      ResumeTakes(sizes, store, OfKind(store.order, Logs), ThenStatus(after.scan, after.status), x);
    } else {
      PopOk(store, keys[0]);
      assert keys == [keys[0]] + keys[1..];
      if At(store.buf, keys[0]) == [] {
        assert At(Pop(store, keys[0]).buf, x) == At(store.buf, x);
        ResumeTakes(sizes, Pop(store, keys[0]), keys[1..], after, x);
      }
    }
  }

  lemma HandlerStarts(s: State, duty: Duty)
    requires BufferInv(s) && NoneElse(s.tasks, -1, duty.x) && IsTerminal(duty.status)
    requires duty.goal == Delivered(s.wire, duty.x) + At(s.store.buf, duty.x)
    ensures Keeps(HandleStatus(s, duty.scan, duty.status), |s.tasks|, duty)
  {
    var keys, after := OfKind(s.store.order, Events), ThenLogs(duty.scan, duty.status);
    OfKindProps(s.store.order, Events);
    assert Delivered(s.wire, duty.x) + [] == Delivered(s.wire, duty.x);
    ResumeKeepsPromise(s.sizes, s.store, keys, after, duty.goal, Delivered(s.wire, duty.x), duty.clean, duty.x);
    ResumeServes(s.sizes, s.store, keys, after, duty);
    var e := HandleStatus(s, duty.scan, duty.status);
    assert e.tasks[..|s.tasks|] == s.tasks;
    assert forall j | 0 <= j < |s.tasks| :: e.tasks[j] == s.tasks[j];
  }

  /** The action is one drone's advance to a terminal status. */
  predicate GoesTerminal(s: State, a: Action) {
    a.Report? && Enabled(s, a) && IsTerminal(a.status) && Advances(s.pool[a.d].status, a.status)
  }

  predicate Reporting(e: State, i: nat) {
    i < |e.tasks| && e.tasks[i].Posting?
  }

  /** The terminal status handler entered at s, run through acts, about to send its status message
      at e; from its entry on nobody else holds x. */
  ghost predicate AboutToReport(s: State, a: Action, acts: seq<Action>, e: State, x: Stream) {
    && BufferInv(s) && GoesTerminal(s, a) && NoneElse(s.tasks, -1, x)
    && SoleRun(Step(s, a), acts, |s.tasks|, x) && CancelTask(|s.tasks|) !in acts
    && e == Exec(Step(s, a), acts) && Reporting(e, |s.tasks|)
  }

  lemma TerminalEntry(s: State, a: Action, duty: Duty)
    requires BufferInv(s) && NoneElse(s.tasks, -1, duty.x) && GoesTerminal(s, a)
    requires duty.scan == s.pool[a.d].scan && duty.status == a.status
    requires duty.goal == Delivered(s.wire, duty.x) + At(s.store.buf, duty.x)
    ensures BufferInv(Step(s, a)) && Keeps(Step(s, a), |s.tasks|, duty)
  {
    var raised := s.(pool := s.pool[a.d := s.pool[a.d].(status := a.status)]);
    HandlerStarts(raised, duty);
    BufferStep(s, a);
  }

  lemma DutyDone(e: State, i: nat, duty: Duty)
    requires Keeps(e, i, duty) && e.tasks[i].Posting?
    ensures duty.goal <= Delivered(e.wire, duty.x) + At(e.store.buf, duty.x)
    ensures duty.clean ==> duty.goal <= Delivered(e.wire, duty.x)
    ensures Step(e, SendOk(i)).wire == e.wire + [Critical(StatusMsg(duty.scan, duty.status))]
  {
    assert Delivered(e.wire, duty.x) + [] == Delivered(e.wire, duty.x);
  }

  /** When from a terminal report's entry on no other task holds x, whatever flushers of other streams
      do and whoever else starts to flush, the status message comes after everything of x that was
      delivered or buffered at the entry, in order, or what has not been sent is still buffered in
      order; if none of the report's own sends failed, after all of it. */
  lemma DataBeforeTerminalStatus(s: State, a: Action, acts: seq<Action>, e: State, x: Stream)
    requires AboutToReport(s, a, acts, e, x)
    ensures Delivered(s.wire, x) + At(s.store.buf, x) <= Delivered(e.wire, x) + At(e.store.buf, x)
    ensures SendFail(|s.tasks|) !in acts ==> Delivered(s.wire, x) + At(s.store.buf, x) <= Delivered(e.wire, x)
    ensures Step(e, SendOk(|s.tasks|)).wire == e.wire + [Critical(StatusMsg(s.pool[a.d].scan, a.status))]
  {
    var i := |s.tasks|;
    var duty := Duty(s.pool[a.d].scan, a.status, x, Delivered(s.wire, x) + At(s.store.buf, x), SendFail(i) !in acts);
    TerminalEntry(s, a, duty);
    HandlerRun(Step(s, a), acts, i, duty);
    DutyDone(e, i, duty);
  }
}
