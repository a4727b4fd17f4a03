/** The buffers and batches of every run are well formed, and what it takes to lose a line. */
module QueenBuffers {
  import opened Statuses
  import opened QueenMachine
  import opened QueenLedger

  // ---------- buffers and batches are well formed in every run ----------

  /** A batch is non-empty, at most the batch size, and full unless it is the last of its list. */
  predicate TaskOk(sizes: Sizes, t: Task) {
    t.Sending? ==>
      && 0 < |t.batch| <= Size(sizes, t.cur.kind)
      && (t.rest != [] ==> |t.batch| == Size(sizes, t.cur.kind))
  }

  ghost predicate BufferInv(s: State) {
    && ValidSizes(s.sizes)
    && StoreOk(s.store)
    && (forall t | t in s.tasks :: TaskOk(s.sizes, t))
    && (forall m | m in s.wire && m.Batch? :: 0 < |m.items| <= Size(s.sizes, m.stream.kind))
  }

  lemma {:induction false} ResumeOk(sizes: Sizes, store: Store, keys: seq<Stream>, after: After)
    requires ValidSizes(sizes) && StoreOk(store)
    ensures var f := Resume(sizes, store, keys, after); StoreOk(f.store) && TaskOk(sizes, f.task)
    decreases after.ThenLogs?, |keys|
  {
    if keys != [] {
      PopOk(store, keys[0]);
      if At(store.buf, keys[0]) == [] {
        ResumeOk(sizes, Pop(store, keys[0]), keys[1..], after);
      }
    } else if after.ThenLogs? {
      ResumeOk(sizes, store, OfKind(store.order, Logs), ThenStatus(after.scan, after.status));
    }
  }

  lemma HandleOk(s: State, scan: string, status: ScanStatus)
    requires BufferInv(s)
    ensures BufferInv(HandleStatus(s, scan, status))
  {
    ResumeOk(s.sizes, s.store, OfKind(s.store.order, Events), ThenLogs(scan, status));
  }

  lemma SendOkOk(s: State, i: nat)
    requires BufferInv(s) && Enabled(s, SendOk(i))
    ensures BufferInv(SendReturns(s, i))
  {
    var t := s.tasks[i];
    assert t in s.tasks;
    if t.Sending? && t.rest == [] {
      ResumeOk(s.sizes, s.store, t.keys, t.after);
    }
  }

  lemma SendFailOk(s: State, i: nat)
    requires BufferInv(s) && Enabled(s, SendFail(i))
    ensures BufferInv(SendRaises(s, i))
  {
    var t := s.tasks[i];
    assert t in s.tasks;
    if t.Sending? {
      PutOk(s.store, t.cur, t.batch + t.rest);
      ResumeOk(s.sizes, Put(s.store, t.cur, t.batch + t.rest), t.keys, t.after);
    }
  }

  lemma BufferStep(s: State, a: Action)
    requires BufferInv(s)
    ensures BufferInv(Step(s, a))
  {
    if Enabled(s, a) {
      match a
      case CmdStart(scan, _) => HandleOk(s, scan, Failed);
      case Report(d, status) => HandleOk(s.(pool := s.pool[d := s.pool[d].(status := status)]), s.pool[d].scan, status);
      case BeginFlush(kind) => ResumeOk(s.sizes, s.store, OfKind(s.store.order, kind), Nothing);
      case Read(d, kind) =>
        var x := Stream(kind, s.pool[d].scan);
        PutOk(s.store, x, At(s.store.buf, x) + PipeOf(s.pool[d], kind).unread[..1]);
      case SendOk(i) => SendOkOk(s, i);
      case SendFail(i) => SendFailOk(s, i);
      case _ =>
    }
  }

  lemma {:induction false} BufferRun(sizes: Sizes, maxScans: int, acts: seq<Action>)
    requires ValidSizes(sizes)
    ensures BufferInv(Exec(Init(sizes, maxScans), acts))
  {
    if acts != [] {
      BufferRun(sizes, maxScans, acts[..|acts| - 1]);
      BufferStep(Exec(Init(sizes, maxScans), acts[..|acts| - 1]), acts[|acts| - 1]);
    }
  }

  /** A losing step loses at least one line. */
  lemma LossIsReal(s: State, a: Action, x: Stream)
    requires BufferInv(s) && Loses(s, a, x)
    ensures LossOf(s, a, x) != []
  {
    assert s.tasks[a.i] in s.tasks;
  }

  /** Nothing of a stream is ever lost if and only if no re-buffer assignment hits a re-created list of
      it and no flusher is cancelled inside a send of it. */
  lemma {:induction false} NothingLostIffLossless(sizes: Sizes, maxScans: int, acts: seq<Action>, x: Stream)
    requires ValidSizes(sizes)
    ensures At(Exec(Init(sizes, maxScans), acts).book.lost, x) == [] <==> Lossless(Init(sizes, maxScans), acts, x)
  {
    if acts != [] {
      var s, a := Exec(Init(sizes, maxScans), acts[..|acts| - 1]), acts[|acts| - 1];
      NothingLostIffLossless(sizes, maxScans, acts[..|acts| - 1], x);
      BufferRun(sizes, maxScans, acts[..|acts| - 1]);
      LostGrowsBy(s, a, x);
      if Loses(s, a, x) {
        LossIsReal(s, a, x);
      }
      assert |At(Step(s, a).book.lost, x)| == |At(s.book.lost, x)| + |LossOf(s, a, x)|;
    }
  }
}
