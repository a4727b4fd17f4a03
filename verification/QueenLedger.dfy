/** Conservation of buffered lines, whatever flushers are suspended in send and whatever the line
    handlers append meanwhile. */
module QueenLedger {
  import opened Statuses
  import opened QueenMachine

  // ---------- a flush moves lines between buffer and flusher, and nothing else ----------

  lemma {:induction false} ResumeConserves(sizes: Sizes, store: Store, keys: seq<Stream>, after: After, x: Stream)
    ensures var f := Resume(sizes, store, keys, after);
            HeldBy(f.task, x) + At(f.store.buf, x) == At(store.buf, x)
    decreases after.ThenLogs?, |keys|
  {
    if keys != [] {
      var popped := Pop(store, keys[0]);
      if At(store.buf, keys[0]) == [] {
        ResumeConserves(sizes, popped, keys[1..], after, x);
        assert At(popped.buf, x) == At(store.buf, x);
      }
    } else if after.ThenLogs? {
      ResumeConserves(sizes, store, OfKind(store.order, Logs), ThenStatus(after.scan, after.status), x);
    }
  }

  lemma AfterSendConserves(sizes: Sizes, store: Store, t: Task, x: Stream)
    requires t.Sending?
    ensures var f := AfterSend(sizes, store, t);
            HeldBy(f.task, x) + At(f.store.buf, x) == (if t.cur == x then t.rest else []) + At(store.buf, x)
  {
    if t.rest == [] {
      ResumeConserves(sizes, store, t.keys, t.after, x);
    }
  }

  lemma AfterFailureConserves(sizes: Sizes, store: Store, t: Task, x: Stream)
    requires t.Sending?
    ensures var f := AfterFailure(sizes, store, t);
            HeldBy(f.task, x) + At(f.store.buf, x) == if t.cur == x then HeldBy(t, x) else At(store.buf, x)
  {
    ResumeConserves(sizes, Put(store, t.cur, t.batch + t.rest), t.keys, t.after, x);
  }

  // ---------- the ledger ----------

  /** Line v of stream x: every time it was accepted it is delivered, buffered, held or lost. */
  predicate Balanced(s: State, x: Stream, v: Item) {
    Count(At(s.book.accepted, x), v)
    == Count(Delivered(s.wire, x), v) + Count(At(s.store.buf, x), v)
       + Count(Held(s.tasks, x), v) + Count(At(s.book.lost, x), v)
  }

  /** e differs from s in a new task that took its lines from the buffer. */
  predicate Took(s: State, e: State, x: Stream) {
    && e.wire == s.wire && e.book == s.book
    && |e.tasks| == |s.tasks| + 1 && e.tasks[..|s.tasks|] == s.tasks
    && HeldBy(e.tasks[|s.tasks|], x) + At(e.store.buf, x) == At(s.store.buf, x)
  }

  lemma TookBalanced(s: State, e: State, x: Stream, v: Item)
    requires Took(s, e, x) && Balanced(s, x, v)
    ensures Balanced(e, x, v)
  {
    var t := e.tasks[|s.tasks|];
    assert e.tasks == s.tasks + [t];
    HeldAppend(s.tasks, t, x);
    CountConcat(Held(s.tasks, x), HeldBy(t, x), v);
    CountConcat(HeldBy(t, x), At(e.store.buf, x), v);
  }

  lemma HandleTook(s: State, scan: string, status: ScanStatus, x: Stream)
    ensures Took(s, HandleStatus(s, scan, status), x)
  {
    ResumeConserves(s.sizes, s.store, OfKind(s.store.order, Events), ThenLogs(scan, status), x);
  }

  lemma AfterSendCounts(sizes: Sizes, store: Store, t: Task, x: Stream, v: Item)
    requires t.Sending?
    ensures var f := AfterSend(sizes, store, t);
            Count(HeldBy(f.task, x), v) + Count(At(f.store.buf, x), v) + Count(if t.cur == x then t.batch else [], v)
            == Count(HeldBy(t, x), v) + Count(At(store.buf, x), v)
  {
    var f := AfterSend(sizes, store, t);
    AfterSendConserves(sizes, store, t, x);
    CountConcat(HeldBy(f.task, x), At(f.store.buf, x), v);
    CountConcat(t.batch, t.rest, v);
    CountConcat(if t.cur == x then t.rest else [], At(store.buf, x), v);
  }

  lemma AfterFailureCounts(sizes: Sizes, store: Store, t: Task, x: Stream, v: Item)
    requires t.Sending?
    ensures var f := AfterFailure(sizes, store, t);
            Count(HeldBy(f.task, x), v) + Count(At(f.store.buf, x), v)
            == Count(if t.cur == x then HeldBy(t, x) else At(store.buf, x), v)
  {
    var f := AfterFailure(sizes, store, t);
    AfterFailureConserves(sizes, store, t, x);
    CountConcat(HeldBy(f.task, x), At(f.store.buf, x), v);
  }

  lemma SendOkBalanced(s: State, i: nat, x: Stream, v: Item)
    requires Enabled(s, SendOk(i)) && Balanced(s, x, v)
    ensures Balanced(SendReturns(s, i), x, v)
  {
    var t := s.tasks[i];
    if t.Posting? {
      HeldUpdate(s.tasks, i, Idle, x, v);
      DeliveredAppend(s.wire, Critical(t.notice), x);
    } else {
      var f := AfterSend(s.sizes, s.store, t);
      HeldUpdate(s.tasks, i, f.task, x, v);
      DeliveredAppend(s.wire, Batch(t.cur, t.batch), x);
      AfterSendCounts(s.sizes, s.store, t, x, v);
      CountConcat(Delivered(s.wire, x), t.batch, v);
    }
  }

  lemma SendFailBalanced(s: State, i: nat, x: Stream, v: Item)
    requires Enabled(s, SendFail(i)) && Balanced(s, x, v)
    ensures Balanced(SendRaises(s, i), x, v)
  {
    var t := s.tasks[i];
    if t.Posting? {
      HeldUpdate(s.tasks, i, Idle, x, v);
    } else {
      var f := AfterFailure(s.sizes, s.store, t);
      HeldUpdate(s.tasks, i, f.task, x, v);
      AfterFailureCounts(s.sizes, s.store, t, x, v);
      AtAppendTo(s.book.lost, t.cur, At(s.store.buf, t.cur), x);
      CountConcat(At(s.book.lost, x), At(s.store.buf, x), v);
    }
  }

  lemma CancelBalanced(s: State, i: nat, x: Stream, v: Item)
    requires Enabled(s, CancelTask(i)) && Balanced(s, x, v)
    ensures Balanced(Cancel(s, i), x, v)
  {
    var t := s.tasks[i];
    HeldUpdate(s.tasks, i, Idle, x, v);
    if t.Sending? {
      AtAppendTo(s.book.lost, t.cur, HeldBy(t, t.cur), x);
      CountConcat(At(s.book.lost, x), HeldBy(t, x), v);
    }
  }

  lemma AtAppendTo(m: map<Stream, seq<Item>>, y: Stream, items: seq<Item>, x: Stream)
    ensures At(AppendTo(m, y, items), x) == if x == y then At(m, x) + items else At(m, x)
  {
  }

  lemma AttemptBalanced(s: State, d: nat, status: ScanStatus, x: Stream, v: Item)
    requires d < |s.pool| && Balanced(s, x, v)
    ensures Balanced(Attempt(s, d, status), x, v)
  {
    if Advances(s.pool[d].status, status) {
      var raised := s.(pool := s.pool[d := s.pool[d].(status := status)]);
      HandleTook(raised, s.pool[d].scan, status, x);
      TookBalanced(raised, Attempt(s, d, status), x, v);
    }
  }

  lemma StartBalanced(s: State, scan: string, valid: bool, x: Stream, v: Item)
    requires Balanced(s, x, v)
    ensures Balanced(StartScan(s, scan, valid), x, v)
  {
    HandleTook(s, scan, Failed, x);
    TookBalanced(s, HandleStatus(s, scan, Failed), x, v);
  }

  lemma ReadBalanced(s: State, d: nat, kind: Kind, x: Stream, v: Item)
    requires Enabled(s, Read(d, kind)) && Balanced(s, x, v)
    ensures Balanced(ReadLine(s, d, kind), x, v)
  {
    var line := PipeOf(s.pool[d], kind).unread[..1];
    AtAppendTo(s.book.accepted, Stream(kind, s.pool[d].scan), line, x);
    CountConcat(At(s.store.buf, x), line, v);
    CountConcat(At(s.book.accepted, x), line, v);
  }

  lemma BalancedStep(s: State, a: Action, x: Stream, v: Item)
    requires Balanced(s, x, v)
    ensures Balanced(Step(s, a), x, v)
  {
    if Enabled(s, a) {
      match a
      case CmdStart(scan, valid) => StartBalanced(s, scan, valid, x, v);
      case Report(d, status) => AttemptBalanced(s, d, status, x, v);
      case Read(d, kind) => ReadBalanced(s, d, kind, x, v);
      case BeginFlush(kind) =>
        ResumeConserves(s.sizes, s.store, OfKind(s.store.order, kind), Nothing, x);
        TookBalanced(s, Apply(s, a), x, v);
      case CmdSetMax(_) => TookBalanced(s, Apply(s, a), x, v);
      case SyncState => TookBalanced(s, Apply(s, a), x, v);
      case SendOk(i) => SendOkBalanced(s, i, x, v);
      case SendFail(i) => SendFailBalanced(s, i, x, v);
      case CancelTask(i) => CancelBalanced(s, i, x, v);
      case _ =>
    }
  }

  lemma {:induction false} BalancedRun(sizes: Sizes, maxScans: int, acts: seq<Action>, x: Stream, v: Item)
    ensures Balanced(Exec(Init(sizes, maxScans), acts), x, v)
  {
    if acts != [] {
      BalancedRun(sizes, maxScans, acts[..|acts| - 1], x, v);
      BalancedStep(Exec(Init(sizes, maxScans), acts[..|acts| - 1]), acts[|acts| - 1], x, v);
    }
  }

  /** In every state of every run, for every stream: accepted = delivered + buffered + held + lost. */
  lemma LedgerBalances(sizes: Sizes, maxScans: int, acts: seq<Action>, x: Stream)
    ensures var s := Exec(Init(sizes, maxScans), acts);
            multiset(At(s.book.accepted, x))
            == multiset(Delivered(s.wire, x)) + multiset(At(s.store.buf, x))
               + multiset(Held(s.tasks, x)) + multiset(At(s.book.lost, x))
  {
    var s := Exec(Init(sizes, maxScans), acts);
    var left := multiset(At(s.book.accepted, x));
    var right := multiset(Delivered(s.wire, x)) + multiset(At(s.store.buf, x))
                 + multiset(Held(s.tasks, x)) + multiset(At(s.book.lost, x));
    forall v
      ensures left[v] == right[v]
    {
      BalancedRun(sizes, maxScans, acts, x, v);
      CountIsMultiplicity(At(s.book.accepted, x), v);
      CountIsMultiplicity(Delivered(s.wire, x), v);
      CountIsMultiplicity(At(s.store.buf, x), v);
      CountIsMultiplicity(Held(s.tasks, x), v);
      CountIsMultiplicity(At(s.book.lost, x), v);
    }
  }

  // ---------- what is lost, and when ----------

  /** The action makes a re-buffer assignment hit a re-created list of stream x, or cancels a flusher
      inside its send of x. */
  predicate Loses(s: State, a: Action, x: Stream) {
    && Enabled(s, a)
    && (a.SendFail? || a.CancelTask?)
    && s.tasks[a.i].Sending? && s.tasks[a.i].cur == x
    && (a.SendFail? ==> x in s.store.buf)
  }

  function LossOf(s: State, a: Action, x: Stream): seq<Item> {
    if !Loses(s, a, x) then []
    else if a.SendFail? then At(s.store.buf, x)
    else HeldBy(s.tasks[a.i], x)
  }

  lemma LostGrowsBy(s: State, a: Action, x: Stream)
    ensures At(Step(s, a).book.lost, x) == At(s.book.lost, x) + LossOf(s, a, x)
  {
    if Enabled(s, a) {
      match a
      case SendFail(i) =>
        if s.tasks[i].Sending? { AtAppendTo(s.book.lost, s.tasks[i].cur, At(s.store.buf, s.tasks[i].cur), x); }
      case CancelTask(i) =>
        if s.tasks[i].Sending? { AtAppendTo(s.book.lost, s.tasks[i].cur, HeldBy(s.tasks[i], s.tasks[i].cur), x); }
      case _ =>
    }
  }

  /** No action of the run loses a line of stream x. */
  predicate Lossless(s: State, acts: seq<Action>, x: Stream) {
    if acts == [] then true
    else Lossless(s, acts[..|acts| - 1], x) && !Loses(Exec(s, acts[..|acts| - 1]), acts[|acts| - 1], x)
  }
}
