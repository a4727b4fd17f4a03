/** Order of buffered lines, stream by stream: FIFO while at most one flusher holds the stream,
    whatever flushers of other streams do, and what a second holder breaks. */
module QueenOrder {
  import opened Statuses
  import opened QueenMachine
  import opened QueenLedger
  import opened QueenBuffers
  import opened QueenNumbers

  // ---------- who holds a stream ----------

  /** No task but the i-th holds lines of x. */
  predicate NoneElse(tasks: seq<Task>, i: int, x: Stream) {
    forall j | 0 <= j < |tasks| && j != i :: HeldBy(tasks[j], x) == []
  }

  predicate OneHolder(tasks: seq<Task>, x: Stream) {
    forall i, j | 0 <= i < j < |tasks| :: HeldBy(tasks[i], x) == [] || HeldBy(tasks[j], x) == []
  }

  /** In no state of the run do two flushers hold x; flushers of other streams come and go. */
  ghost predicate OneHolderRun(s: State, acts: seq<Action>, x: Stream) {
    OneHolder(Exec(s, acts).tasks, x) && (acts == [] || OneHolderRun(s, acts[..|acts| - 1], x))
  }

  lemma {:induction false} NoneHeld(tasks: seq<Task>, x: Stream)
    requires NoneElse(tasks, -1, x)
    ensures Held(tasks, x) == []
  {
    if tasks != [] {
      NoneHeld(tasks[..|tasks| - 1], x);
    }
  }

  lemma HeldAlone(tasks: seq<Task>, i: nat, t: Task, x: Stream)
    requires i < |tasks| && NoneElse(tasks, i, x)
    ensures Held(tasks[i := t], x) == HeldBy(t, x)
  {
    HeldSplit(tasks, i, t, x);
    NoneHeld(tasks[..i], x);
    NoneHeld(tasks[i + 1..], x);
  }

  /** One task changes while at most one holds x, before and after: either it alone is concerned, or
      it has nothing to do with x. */
  lemma HeldChanges(tasks: seq<Task>, i: nat, t: Task, x: Stream)
    requires i < |tasks| && OneHolder(tasks, x) && OneHolder(tasks[i := t], x)
    ensures || (Held(tasks, x) == HeldBy(tasks[i], x) && Held(tasks[i := t], x) == HeldBy(t, x))
            || (HeldBy(tasks[i], x) == [] == HeldBy(t, x) && Held(tasks[i := t], x) == Held(tasks, x))
  {
    assert tasks[i := tasks[i]] == tasks;
    if HeldBy(tasks[i], x) != [] || HeldBy(t, x) != [] {
      assert NoneElse(tasks, i, x) by {
        forall j | 0 <= j < |tasks| && j != i
          ensures HeldBy(tasks[j], x) == []
        {
          assert tasks[i := t][j] == tasks[j] && tasks[i := t][i] == t;
        }
      }
      HeldAlone(tasks, i, t, x);
      HeldAlone(tasks, i, tasks[i], x);
    } else {
      HeldSplit(tasks, i, t, x);
      HeldSplit(tasks, i, tasks[i], x);
    }
  }

  // ---------- the line of a stream: delivered, then held, then buffered ----------

  function Line(s: State, x: Stream): seq<Item> {
    Delivered(s.wire, x) + Held(s.tasks, x) + At(s.store.buf, x)
  }

  /** What the action lets the queen accept. */
  function NewLines(s: State, a: Action, x: Stream): seq<Item> {
    if a.Read? && Enabled(s, a) && x == Stream(a.kind, s.pool[a.d].scan) then PipeOf(s.pool[a.d], a.kind).unread[..1]
    else []
  }

  /** The step appends what is accepted, and cuts out what is lost, where it stands. */
  ghost predicate LineStep(s: State, a: Action, e: State, x: Stream) {
    && At(e.book.accepted, x) == At(s.book.accepted, x) + NewLines(s, a, x)
    && exists p, r ::
         && Line(s, x) + NewLines(s, a, x) == p + LossOf(s, a, x) + r
         && Line(e, x) == p + r
  }

  lemma CutOut(s: State, a: Action, e: State, x: Stream, p: seq<Item>, r: seq<Item>)
    requires NewLines(s, a, x) == [] && At(e.book.accepted, x) == At(s.book.accepted, x)
    requires Line(s, x) == p + LossOf(s, a, x) + r && Line(e, x) == p + r
    ensures LineStep(s, a, e, x)
  {
    assert Line(s, x) + [] == p + LossOf(s, a, x) + r;
    assert At(e.book.accepted, x) == At(s.book.accepted, x) + [];
  }

  lemma SameLine(s: State, a: Action, e: State, x: Stream)
    requires NewLines(s, a, x) == [] && LossOf(s, a, x) == []
    requires At(e.book.accepted, x) == At(s.book.accepted, x) && Line(e, x) == Line(s, x)
    ensures LineStep(s, a, e, x)
  {
    assert Line(s, x) + [] + [] == Line(s, x) == Line(s, x) + [];
    CutOut(s, a, e, x, Line(s, x), []);
  }

  lemma TookLine(s: State, e: State, x: Stream)
    requires Took(s, e, x) && OneHolder(e.tasks, x)
    ensures Line(e, x) == Line(s, x)
  {
    var t := e.tasks[|s.tasks|];
    assert e.tasks == s.tasks + [t];
    HeldAppend(s.tasks, t, x);
    var d, held := Delivered(s.wire, x), HeldBy(t, x);
    if held != [] {
      assert forall j | 0 <= j < |s.tasks| :: s.tasks[j] == e.tasks[j];
      NoneHeld(s.tasks, x);
      assert Held(e.tasks, x) == held;
      assert d + held + At(e.store.buf, x) == d + (held + At(e.store.buf, x));
      assert d + [] == d;
    } else {
      assert Held(e.tasks, x) == Held(s.tasks, x) + [];
      assert At(e.store.buf, x) == At(s.store.buf, x);
    }
  }

  lemma Regroup(d: seq<Item>, sent: seq<Item>, rest: seq<Item>, b: seq<Item>, held: seq<Item>, left: seq<Item>)
    requires held + left == rest + b
    ensures (d + sent) + held + left == d + (sent + rest) + b
  {
    assert (d + sent) + held + left == d + sent + (held + left);
    assert d + sent + (rest + b) == d + (sent + rest) + b;
  }

  /** The line before and after one task's step, part by part: delivered, held, buffered. */
  lemma LineMoves(d: seq<Item>, sent: seq<Item>, rest: seq<Item>, held: seq<Item>, b: seq<Item>,
                  mine: seq<Item>, after: seq<Item>, left: seq<Item>)
    requires mine + left == rest + b
    requires (held == sent + rest && after == mine) || (sent + rest == [] == mine && after == held)
    ensures (d + sent) + after + left == d + held + b
  {
    if held == sent + rest && after == mine {
      Regroup(d, sent, rest, b, mine, left);
    } else {
      assert |sent + rest| == |sent| + |rest| == 0;
      assert [] + left == left && [] + b == b && d + [] == d;
    }
  }

  lemma SendOkLine(s: State, i: nat, x: Stream)
    requires Enabled(s, SendOk(i)) && OneHolder(s.tasks, x) && OneHolder(SendReturns(s, i).tasks, x)
    ensures Line(SendReturns(s, i), x) == Line(s, x)
  {
    var t, e := s.tasks[i], SendReturns(s, i);
    HeldChanges(s.tasks, i, e.tasks[i], x);
    if t.Posting? {
      DeliveredAppend(s.wire, Critical(t.notice), x);
    } else {
      BatchSentLine(s, t, Held(s.tasks, x), Held(e.tasks, x), x);
    }
  }

  lemma BatchSentLine(s: State, t: Task, held: seq<Item>, after: seq<Item>, x: Stream)
    requires t.Sending?
    requires var mine := HeldBy(AfterSend(s.sizes, s.store, t).task, x);
             (held == HeldBy(t, x) && after == mine) || (HeldBy(t, x) == [] == mine && after == held)
    ensures Delivered(s.wire + [Batch(t.cur, t.batch)], x) + after + At(AfterSend(s.sizes, s.store, t).store.buf, x)
         == Delivered(s.wire, x) + held + At(s.store.buf, x)
  {
    var f := AfterSend(s.sizes, s.store, t);
    var sent, rest := if t.cur == x then t.batch else [], if t.cur == x then t.rest else [];
    DeliveredAppend(s.wire, Batch(t.cur, t.batch), x);
    AfterSendConserves(s.sizes, s.store, t, x);
    assert Delivered(s.wire + [Batch(t.cur, t.batch)], x) == Delivered(s.wire, x) + sent;
    LineMoves(Delivered(s.wire, x), sent, rest, held, At(s.store.buf, x), HeldBy(f.task, x), after,
              At(f.store.buf, x));
  }

  /** The re-buffered list stands where the flusher's list stood; whatever it hits is gone. */
  lemma Rebuffered(sizes: Sizes, store: Store, t: Task, d: seq<Item>, held: seq<Item>, after: seq<Item>, x: Stream)
    requires t.Sending?
    requires var mine := HeldBy(AfterFailure(sizes, store, t).task, x);
             (held == HeldBy(t, x) && after == mine) || (HeldBy(t, x) == [] == mine && after == held)
    ensures d + after + At(AfterFailure(sizes, store, t).store.buf, x)
         == if t.cur == x then d + held else d + held + At(store.buf, x)
  {
    var f := AfterFailure(sizes, store, t);
    AfterFailureConserves(sizes, store, t, x);
    if t.cur == x {
      LineMoves(d, [], HeldBy(t, x), held, [], HeldBy(f.task, x), after, At(f.store.buf, x));
    } else {
      LineMoves(d, [], [], held, At(store.buf, x), HeldBy(f.task, x), after, At(f.store.buf, x));
    }
    assert d + [] == d;
    assert d + held + [] == d + held;
  }

  lemma SendFailLine(s: State, i: nat, x: Stream)
    requires Enabled(s, SendFail(i)) && OneHolder(s.tasks, x) && OneHolder(SendRaises(s, i).tasks, x)
    ensures LineStep(s, SendFail(i), SendRaises(s, i), x)
  {
    var t, e := s.tasks[i], SendRaises(s, i);
    HeldChanges(s.tasks, i, e.tasks[i], x);
    if t.Posting? {
      SameLine(s, SendFail(i), e, x);
    } else {
      Rebuffered(s.sizes, s.store, t, Delivered(s.wire, x), Held(s.tasks, x), Held(e.tasks, x), x);
      if t.cur == x {
        var kept := Delivered(s.wire, x) + Held(s.tasks, x);
        EndsLine(kept, At(s.store.buf, x));
        CutOut(s, SendFail(i), e, x, kept, []);
      } else {
        SameLine(s, SendFail(i), e, x);
      }
    }
  }

  lemma EndsLine(kept: seq<Item>, lost: seq<Item>)
    ensures kept + lost + [] == kept + lost && kept + [] == kept
  {
  }

  lemma CancelLine(s: State, i: nat, x: Stream)
    requires Enabled(s, CancelTask(i)) && OneHolder(s.tasks, x) && OneHolder(Cancel(s, i).tasks, x)
    ensures LineStep(s, CancelTask(i), Cancel(s, i), x)
  {
    var t, e := s.tasks[i], Cancel(s, i);
    HeldChanges(s.tasks, i, Idle, x);
    if HeldBy(t, x) == [] {
      SameLine(s, CancelTask(i), e, x);
    } else {
      EndsLine(Delivered(s.wire, x), []);
      CutOut(s, CancelTask(i), e, x, Delivered(s.wire, x), At(s.store.buf, x));
    }
  }

  lemma ReadLineStep(s: State, d: nat, kind: Kind, x: Stream)
    requires Enabled(s, Read(d, kind))
    ensures LineStep(s, Read(d, kind), ReadLine(s, d, kind), x)
  {
    var e := ReadLine(s, d, kind);
    var line := PipeOf(s.pool[d], kind).unread[..1];
    AtAppendTo(s.book.accepted, Stream(kind, s.pool[d].scan), line, x);
    if x == Stream(kind, s.pool[d].scan) {
      Associate(Delivered(s.wire, x) + Held(s.tasks, x), At(s.store.buf, x), line);
      EndsLine(Line(e, x), []);
      assert Line(s, x) + line == Line(e, x) + LossOf(s, Read(d, kind), x) + [];
    } else {
      SameLine(s, Read(d, kind), e, x);
    }
  }

  /** Every action that spawns a task takes lines from the buffer only into that task. */
  lemma QuietTook(s: State, a: Action, x: Stream)
    requires Enabled(s, a) && !a.Read? && !a.SendOk? && !a.SendFail? && !a.CancelTask?
    ensures var e := Apply(s, a);
            || Took(s, e, x)
            || (e.wire == s.wire && e.tasks == s.tasks && e.store == s.store && e.book == s.book)
  {
    match a
    case CmdStart(scan, valid) => HandleTook(s, scan, Failed, x);
    case Report(d, status) =>
      HandleTook(s.(pool := s.pool[d := s.pool[d].(status := status)]), s.pool[d].scan, status, x);
    case BeginFlush(kind) => ResumeConserves(s.sizes, s.store, OfKind(s.store.order, kind), Nothing, x);
    case _ =>
  }

  lemma EveryLineStep(s: State, a: Action, x: Stream)
    requires OneHolder(s.tasks, x) && OneHolder(Step(s, a).tasks, x)
    ensures LineStep(s, a, Step(s, a), x)
  {
    if !Enabled(s, a) {
      SameLine(s, a, s, x);
    } else if a.Read? {
      ReadLineStep(s, a.d, a.kind, x);
    } else if a.SendOk? {
      SendOkLine(s, a.i, x);
      SameLine(s, a, SendReturns(s, a.i), x);
    } else if a.SendFail? {
      SendFailLine(s, a.i, x);
    } else if a.CancelTask? {
      CancelLine(s, a.i, x);
    } else {
      var e := Apply(s, a);
      QuietTook(s, a, x);
      if Took(s, e, x) {
        TookLine(s, e, x);
      }
      SameLine(s, a, e, x);
    }
  }

  // ---------- FIFO ----------

  /** For a stream that never has two holders and loses nothing, what was accepted is, in order, what
      is on the wire, then what its flusher holds, then what is buffered.  Flushers of other streams
      and kinds may be suspended in any number. */
  lemma {:induction false} Fifo(sizes: Sizes, maxScans: int, acts: seq<Action>, x: Stream)
    requires OneHolderRun(Init(sizes, maxScans), acts, x) && Lossless(Init(sizes, maxScans), acts, x)
    ensures var s := Exec(Init(sizes, maxScans), acts);
            At(s.book.accepted, x) == Delivered(s.wire, x) + Held(s.tasks, x) + At(s.store.buf, x)
  {
    if acts != [] {
      var init, a := acts[..|acts| - 1], acts[|acts| - 1];
      Fifo(sizes, maxScans, init, x);
      var s, e := Exec(Init(sizes, maxScans), init), Exec(Init(sizes, maxScans), acts);
      assert OneHolder(s.tasks, x);
      EveryLineStep(s, a, x);
      NoLoss(s, a, e, x);
    }
  }

  lemma NoLoss(s: State, a: Action, e: State, x: Stream)
    requires LineStep(s, a, e, x) && LossOf(s, a, x) == []
    ensures Line(e, x) == Line(s, x) + NewLines(s, a, x)
  {
    var p, r :| Line(s, x) + NewLines(s, a, x) == p + LossOf(s, a, x) + r && Line(e, x) == p + r;
    assert p + [] + r == p + r;
  }

  // ---------- with losses: still a subsequence ----------

  ghost predicate Embeds(f: seq<nat>, a: seq<Item>, b: seq<Item>) {
    && |f| == |a|
    && (forall k | 0 <= k < |f| :: f[k] < |b| && a[k] == b[f[k]])
    && (forall k, l | 0 <= k < l < |f| :: f[k] < f[l])
  }

  ghost predicate Subsequence(a: seq<Item>, b: seq<Item>) {
    exists f :: Embeds(f, a, b)
  }

  lemma SubsequenceAppend(a: seq<Item>, b: seq<Item>, c: seq<Item>)
    requires Subsequence(a, b)
    ensures Subsequence(a + c, b + c)
  {
    var f :| Embeds(f, a, b);
    var g := f + seq(|c|, k requires 0 <= k < |c| => |b| + k);
    assert Embeds(g, a + c, b + c);
  }

  lemma SubsequenceDrop(p: seq<Item>, q: seq<Item>, r: seq<Item>, b: seq<Item>)
    requires Subsequence(p + q + r, b)
    ensures Subsequence(p + r, b)
  {
    var f :| Embeds(f, p + q + r, b);
    var g := f[..|p|] + f[|p| + |q|..];
    forall k | 0 <= k < |g|
      ensures g[k] < |b| && (p + r)[k] == b[g[k]]
    {
      var at := if k < |p| then k else k + |q|;
      assert g[k] == f[at] && (p + r)[k] == (p + q + r)[at];
    }
    assert Embeds(g, p + r, b);
  }

  /** Overwritten or dropped lines leave gaps, but never reorder or duplicate what remains. */
  lemma {:induction false} FifoWithGaps(sizes: Sizes, maxScans: int, acts: seq<Action>, x: Stream)
    requires OneHolderRun(Init(sizes, maxScans), acts, x)
    ensures var s := Exec(Init(sizes, maxScans), acts);
            Subsequence(Delivered(s.wire, x) + Held(s.tasks, x) + At(s.store.buf, x), At(s.book.accepted, x))
  {
    if acts == [] {
      assert Line(Init(sizes, maxScans), x) == [];
      assert Embeds([], [], []);
    } else {
      var init, a := acts[..|acts| - 1], acts[|acts| - 1];
      FifoWithGaps(sizes, maxScans, init, x);
      var s, e := Exec(Init(sizes, maxScans), init), Exec(Init(sizes, maxScans), acts);
      assert OneHolder(s.tasks, x);
      EveryLineStep(s, a, x);
      var p, r :| Line(s, x) + NewLines(s, a, x) == p + LossOf(s, a, x) + r && Line(e, x) == p + r;
      SubsequenceAppend(Line(s, x), At(s.book.accepted, x), NewLines(s, a, x));
      SubsequenceDrop(p, LossOf(s, a, x), r, At(e.book.accepted, x));
    }
  }

  // ---------- a second holder ----------

  /** Whichever send succeeds next, the wire stays a prefix of what was accepted. */
  ghost predicate SafeNext(s: State, x: Stream) {
    forall i: nat :: Delivered(Step(s, SendOk(i)).wire, x) <= At(s.book.accepted, x)
  }

  ghost predicate SafeRun(s: State, acts: seq<Action>, x: Stream) {
    SafeNext(Exec(s, acts), x) && (acts == [] || SafeRun(s, acts[..|acts| - 1], x))
  }

  lemma {:induction false} CountOnce(items: seq<Item>, v: Item)
    requires NoRepeats(items)
    ensures Count(items, v) <= 1 && (v !in items ==> Count(items, v) == 0)
  {
    if items != [] {
      CountOnce(items[..|items| - 1], v);
    }
  }

  lemma {:induction false} CountPositive(items: seq<Item>, k: nat)
    requires k < |items|
    ensures Count(items, items[k]) >= 1
  {
    if k < |items| - 1 {
      CountPositive(items[..|items| - 1], k);
    }
  }

  lemma HeldTwice(tasks: seq<Task>, i: nat, j: nat, x: Stream, v: Item)
    requires i < j < |tasks|
    ensures Count(Held(tasks, x), v) >= Count(HeldBy(tasks[i], x), v) + Count(HeldBy(tasks[j], x), v)
  {
    var right := tasks[i + 1..];
    var k := j - i - 1;
    assert tasks[i := tasks[i]] == tasks && right[k := right[k]] == right && right[k] == tasks[j];
    HeldSplit(tasks, i, tasks[i], x);
    HeldSplit(right, k, right[k], x);
    CountAround(Held(tasks[..i], x), HeldBy(tasks[i], x), Held(right, x), v);
    CountAround(Held(right[..k], x), HeldBy(tasks[j], x), Held(right[k + 1..], x), v);
  }

  /** The next send of a holder puts the head of its batch behind what is delivered. */
  lemma NextOut(s: State, i: nat, x: Stream)
    requires BufferInv(s) && i < |s.tasks| && HeldBy(s.tasks[i], x) != []
    ensures s.tasks[i].Sending? && s.tasks[i].batch != []
    ensures Delivered(Step(s, SendOk(i)).wire, x) == Delivered(s.wire, x) + s.tasks[i].batch
  {
    var t := s.tasks[i];
    assert t in s.tasks && TaskOk(s.sizes, t);
    assert Step(s, SendOk(i)).wire == s.wire + [Batch(x, t.batch)];
    DeliveredAppend(s.wire, Batch(x, t.batch), x);
  }

  /** Two batches that start with the same line v make two copies of it. */
  lemma TwoHoldersUnsafe(s: State, i: nat, j: nat, x: Stream)
    requires BufferInv(s) && NoRepeats(At(s.book.accepted, x))
    requires i < j < |s.tasks| && HeldBy(s.tasks[i], x) != [] && HeldBy(s.tasks[j], x) != []
    requires forall v :: Balanced(s, x, v)
    ensures !SafeNext(s, x)
  {
    NextOut(s, i, x);
    NextOut(s, j, x);
    var v := HeldBy(s.tasks[i], x)[0];
    CountPositive(HeldBy(s.tasks[i], x), 0);
    CountPositive(HeldBy(s.tasks[j], x), 0);
    HeldTwice(s.tasks, i, j, x, v);
    CountOnce(At(s.book.accepted, x), v);
    assert Balanced(s, x, v);
    SameNext(Delivered(s.wire, x), s.tasks[i].batch, s.tasks[j].batch, At(s.book.accepted, x));
  }

  lemma SameNext(d: seq<Item>, b: seq<Item>, c: seq<Item>, all: seq<Item>)
    requires b != [] && c != []
    ensures d + b <= all && d + c <= all ==> b[0] == c[0]
  {
    assert (d + b)[|d|] == b[0] && (d + c)[|d|] == c[0];
  }

  /** The next send of task i appends a prefix of what the task holds. */
  lemma NextSend(s: State, i: nat, x: Stream)
    requires i < |s.tasks|
    ensures Delivered(Step(s, SendOk(i)).wire, x) <= Delivered(s.wire, x) + HeldBy(s.tasks[i], x)
  {
    var t, d := s.tasks[i], Delivered(s.wire, x);
    assert d + [] == d;
    if t.Posting? {
      DeliveredAppend(s.wire, Critical(t.notice), x);
    } else if t.Sending? {
      DeliveredAppend(s.wire, Batch(t.cur, t.batch), x);
      assert d + (t.batch + t.rest) == (d + t.batch) + t.rest;
    }
  }

  lemma OneHolderSafe(s: State, x: Stream)
    requires OneHolder(s.tasks, x)
    requires At(s.book.accepted, x) == Line(s, x)
    ensures SafeNext(s, x)
  {
    var d, b := Delivered(s.wire, x), At(s.store.buf, x);
    forall i: nat
      ensures Delivered(Step(s, SendOk(i)).wire, x) <= At(s.book.accepted, x)
    {
      if i < |s.tasks| {
        NextSend(s, i, x);
        if HeldBy(s.tasks[i], x) != [] {
          assert s.tasks[i := s.tasks[i]] == s.tasks;
          HeldAlone(s.tasks, i, s.tasks[i], x);
        } else {
          assert d + [] <= d + Held(s.tasks, x) + b;
        }
      }
    }
  }

  /** FIFO needs exactly this: over a run that loses nothing of x, at every moment no send can
      put a line of x on the wire ahead of an older one, if and only if no two flushers ever
      hold x at a time. */
  lemma {:induction false} OrderSafeIffOneHolder(sizes: Sizes, maxScans: int, acts: seq<Action>, x: Stream)
    requires ValidSizes(sizes) && Lossless(Init(sizes, maxScans), acts, x)
    ensures SafeRun(Init(sizes, maxScans), acts, x) <==> OneHolderRun(Init(sizes, maxScans), acts, x)
  {
    var s := Exec(Init(sizes, maxScans), acts);
    if acts != [] {
      OrderSafeIffOneHolder(sizes, maxScans, acts[..|acts| - 1], x);
    }
    if OneHolderRun(Init(sizes, maxScans), acts, x) {
      Fifo(sizes, maxScans, acts, x);
      OneHolderSafe(s, x);
    } else if SafeRun(Init(sizes, maxScans), acts, x) {
      var i, j :| 0 <= i < j < |s.tasks| && HeldBy(s.tasks[i], x) != [] && HeldBy(s.tasks[j], x) != [];
      BufferRun(sizes, maxScans, acts);
      forall v
        ensures Balanced(s, x, v)
      {
        BalancedRun(sizes, maxScans, acts, x, v);
      }
      AcceptedOnce(sizes, maxScans, acts, x);
      TwoHoldersUnsafe(s, i, j, x);
    }
  }
}
