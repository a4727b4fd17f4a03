/** From a scan process's pipes to the wire, for a drone that shares its scan id with no other. */
module QueenEndToEnd {
  import opened Statuses
  import opened QueenMachine
  import opened QueenLedger
  import opened QueenOrder
  import opened QueenRegistry

  /** Everything a process wrote is accepted or still in its pipe, and events_sent counts the accepted. */
  predicate RecOk(rec: DroneRec, events: seq<Item>, logs: seq<Item>) {
    && rec.out.written == events + rec.out.unread
    && rec.err.written == logs + rec.err.unread
    && rec.eventsSent == |events|
  }

  predicate PipeOk(rec: DroneRec, accepted: map<Stream, seq<Item>>) {
    RecOk(rec, At(accepted, Stream(Events, rec.scan)), At(accepted, Stream(Logs, rec.scan)))
  }

  /** No other drone, earlier or later, has the scan id of drone d. */
  predicate Alone(pool: seq<DroneRec>, d: nat) {
    d < |pool| && forall c | 0 <= c < |pool| && c != d :: pool[c].scan != pool[d].scan
  }

  ghost predicate AllPipesOk(pool: seq<DroneRec>, accepted: map<Stream, seq<Item>>) {
    forall d: nat | Alone(pool, d) :: PipeOk(pool[d], accepted)
  }

  predicate KnownScan(pool: seq<DroneRec>, scan: string) {
    exists d :: 0 <= d < |pool| && pool[d].scan == scan
  }

  predicate AllKnown(pool: seq<DroneRec>, accepted: map<Stream, seq<Item>>) {
    forall x | x in accepted :: KnownScan(pool, x.scan)
  }

  ghost predicate PipesInv(s: State) {
    AllPipesOk(s.pool, s.book.accepted) && AllKnown(s.pool, s.book.accepted)
  }

  lemma StillKnown(pool: seq<DroneRec>, wider: seq<DroneRec>, accepted: map<Stream, seq<Item>>)
    requires AllKnown(pool, accepted) && |pool| <= |wider|
    requires forall d | 0 <= d < |pool| :: wider[d].scan == pool[d].scan
    ensures AllKnown(wider, accepted)
  {
    forall x | x in accepted
      ensures KnownScan(wider, x.scan)
    {
      var d :| 0 <= d < |pool| && pool[d].scan == x.scan;
      assert wider[d].scan == x.scan;
    }
  }

  lemma ReadRec(rec: DroneRec, kind: Kind, accepted: map<Stream, seq<Item>>)
    requires PipeOk(rec, accepted) && PipeOf(rec, kind).unread != []
    ensures var pipe := PipeOf(rec, kind);
            PipeOk(WithPipe(rec, kind, pipe.(unread := pipe.unread[1..]))
                     .(eventsSent := rec.eventsSent + if kind.Events? then 1 else 0),
                   AppendTo(accepted, Stream(kind, rec.scan), pipe.unread[..1]))
  {
    var pipe := PipeOf(rec, kind);
    var before := At(accepted, Stream(kind, rec.scan));
    AtAppendTo(accepted, Stream(kind, rec.scan), pipe.unread[..1], Stream(Events, rec.scan));
    AtAppendTo(accepted, Stream(kind, rec.scan), pipe.unread[..1], Stream(Logs, rec.scan));
    assert before + pipe.unread == (before + pipe.unread[..1]) + pipe.unread[1..];
  }

  lemma OtherRec(rec: DroneRec, x: Stream, line: seq<Item>, accepted: map<Stream, seq<Item>>)
    requires PipeOk(rec, accepted) && rec.scan != x.scan
    ensures PipeOk(rec, AppendTo(accepted, x, line))
  {
    AtAppendTo(accepted, x, line, Stream(Events, rec.scan));
    AtAppendTo(accepted, x, line, Stream(Logs, rec.scan));
  }

  /** The same scan ids, and the same drones or one more. */
  predicate Wider(pool: seq<DroneRec>, wider: seq<DroneRec>) {
    |pool| <= |wider| && forall d | 0 <= d < |pool| :: wider[d].scan == pool[d].scan
  }

  lemma AloneBefore(pool: seq<DroneRec>, wider: seq<DroneRec>, d: nat)
    requires Wider(pool, wider) && Alone(wider, d) && d < |pool|
    ensures Alone(pool, d)
  {
  }

  lemma ReadPipes(s: State, d: nat, kind: Kind)
    requires PipesInv(s) && Enabled(s, Read(d, kind))
    ensures PipesInv(ReadLine(s, d, kind))
  {
    var e, x := ReadLine(s, d, kind), Stream(kind, s.pool[d].scan);
    var line := PipeOf(s.pool[d], kind).unread[..1];
    forall c: nat | Alone(e.pool, c)
      ensures PipeOk(e.pool[c], e.book.accepted)
    {
      AloneBefore(s.pool, e.pool, c);
      if c == d {
        ReadRec(s.pool[d], kind, s.book.accepted);
      } else {
        assert e.pool[d].scan == s.pool[d].scan;
        OtherRec(s.pool[c], x, line, s.book.accepted);
      }
    }
    StillKnown(s.pool, e.pool, s.book.accepted);
    assert KnownScan(e.pool, x.scan) by {
      assert e.pool[d].scan == x.scan;
    }
  }

  lemma AdmitPipes(pool: seq<DroneRec>, accepted: map<Stream, seq<Item>>, scan: string)
    requires AllPipesOk(pool, accepted) && AllKnown(pool, accepted)
    ensures AllPipesOk(pool + [DroneRec(scan, NotStarted, 0, false, FRESH_PIPE, FRESH_PIPE)], accepted)
  {
    var wider := pool + [DroneRec(scan, NotStarted, 0, false, FRESH_PIPE, FRESH_PIPE)];
    forall d: nat | Alone(wider, d)
      ensures PipeOk(wider[d], accepted)
    {
      if d < |pool| {
        AloneBefore(pool, wider, d);
      } else {
        assert !KnownScan(pool, scan) by {
          assert forall c | 0 <= c < |pool| :: wider[c].scan == pool[c].scan;
        }
        assert Stream(Events, scan) !in accepted && Stream(Logs, scan) !in accepted;
        assert [] + FRESH_PIPE.unread == [];
      }
    }
  }

  lemma WriteRec(rec: DroneRec, kind: Kind, line: Item, accepted: map<Stream, seq<Item>>)
    requires PipeOk(rec, accepted)
    ensures var pipe := PipeOf(rec, kind);
            PipeOk(WithPipe(rec, kind, Pipe(pipe.written + [line], pipe.unread + [line])), accepted)
  {
    var pipe, before := PipeOf(rec, kind), At(accepted, Stream(kind, rec.scan));
    assert (before + pipe.unread) + [line] == before + (pipe.unread + [line]);
  }

  lemma WritePipes(s: State, d: nat, kind: Kind, text: string)
    requires PipesInv(s) && Enabled(s, Write(d, kind, text))
    ensures PipesInv(Apply(s, Write(d, kind, text)))
  {
    var e := Apply(s, Write(d, kind, text));
    forall c: nat | Alone(e.pool, c)
      ensures PipeOk(e.pool[c], s.book.accepted)
    {
      AloneBefore(s.pool, e.pool, c);
      WriteRec(s.pool[c], kind, Item(d, |PipeOf(s.pool[d], kind).written|, text), s.book.accepted);
    }
    StillKnown(s.pool, e.pool, s.book.accepted);
  }

  /** Steps that leave the pipes of every drone and what was accepted alone. */
  lemma SamePipes(s: State, e: State)
    requires PipesInv(s) && |e.pool| == |s.pool| && e.book.accepted == s.book.accepted
    requires forall d | 0 <= d < |s.pool| ::
               && e.pool[d].scan == s.pool[d].scan && e.pool[d].eventsSent == s.pool[d].eventsSent
               && e.pool[d].out == s.pool[d].out && e.pool[d].err == s.pool[d].err
    ensures PipesInv(e)
  {
    forall c: nat | Alone(e.pool, c)
      ensures PipeOk(e.pool[c], e.book.accepted)
    {
      AloneBefore(s.pool, e.pool, c);
    }
    StillKnown(s.pool, e.pool, s.book.accepted);
  }

  lemma StartPipes(s: State, scan: string, valid: bool)
    requires PipesInv(s)
    ensures PipesInv(StartScan(s, scan, valid))
  {
    HandleDrones(s, scan, Failed);
    if Refused(s, scan, valid) {
      SamePipes(s, StartScan(s, scan, valid));
    } else {
      AdmitPipes(s.pool, s.book.accepted, scan);
      StillKnown(s.pool, StartScan(s, scan, valid).pool, s.book.accepted);
    }
  }

  lemma AttemptPipes(s: State, d: nat, status: ScanStatus)
    requires PipesInv(s) && d < |s.pool|
    ensures PipesInv(Attempt(s, d, status))
  {
    AttemptPool(s, d, status);
    SamePipes(s, Attempt(s, d, status));
  }

  lemma OtherBook(s: State, a: Action)
    requires Enabled(s, a) && !a.CmdStart? && !a.Report? && !a.Read? && !a.Write? && !a.Close?
    ensures Apply(s, a).pool == s.pool && Apply(s, a).book.accepted == s.book.accepted
  {
  }

  lemma PipesStep(s: State, a: Action)
    requires PipesInv(s)
    ensures PipesInv(Step(s, a))
  {
    if Enabled(s, a) {
      match a
      case CmdStart(scan, valid) => StartPipes(s, scan, valid);
      case Report(d, status) => AttemptPipes(s, d, status);
      case Read(d, kind) => ReadPipes(s, d, kind);
      case Write(d, kind, text) => WritePipes(s, d, kind, text);
      case Close(d) => SamePipes(s, Apply(s, a));
      case _ =>
        OtherBook(s, a);
        SamePipes(s, Apply(s, a));
    }
  }

  lemma {:induction false} PipesInvRun(sizes: Sizes, maxScans: int, acts: seq<Action>)
    ensures PipesInv(Exec(Init(sizes, maxScans), acts))
  {
    if acts != [] {
      PipesInvRun(sizes, maxScans, acts[..|acts| - 1]);
      PipesStep(Exec(Init(sizes, maxScans), acts[..|acts| - 1]), acts[|acts| - 1]);
    }
  }

  /** In every run, for every drone alone with its scan id: what its process wrote is what was accepted
      for the scan followed by what is unread, and events_sent counts the accepted events. */
  lemma PipesRun(sizes: Sizes, maxScans: int, acts: seq<Action>, d: nat)
    requires Alone(Exec(Init(sizes, maxScans), acts).pool, d)
    ensures var s := Exec(Init(sizes, maxScans), acts);
            var rec, events := s.pool[d], At(s.book.accepted, Stream(Events, s.pool[d].scan));
            && rec.out.written == events + rec.out.unread
            && rec.err.written == At(s.book.accepted, Stream(Logs, rec.scan)) + rec.err.unread
            && rec.eventsSent == |events|
  {
    PipesInvRun(sizes, maxScans, acts);
    assert PipeOk(Exec(Init(sizes, maxScans), acts).pool[d], Exec(Init(sizes, maxScans), acts).book.accepted);
  }

  /** The run treats stream x in order: never two flushers hold it, and nothing of it is lost. */
  ghost predicate InOrder(sizes: Sizes, maxScans: int, acts: seq<Action>, x: Stream) {
    OneHolderRun(Init(sizes, maxScans), acts, x) && Lossless(Init(sizes, maxScans), acts, x)
  }

  /** The lines of one kind a process has written are, in order: on the wire, held by the flusher,
      buffered, or still in the pipe, whatever happens to the lines of other kinds and scans. */
  lemma EndToEndFifo(sizes: Sizes, maxScans: int, acts: seq<Action>, d: nat, kind: Kind)
    requires Alone(Exec(Init(sizes, maxScans), acts).pool, d)
    requires InOrder(sizes, maxScans, acts, Stream(kind, Exec(Init(sizes, maxScans), acts).pool[d].scan))
    ensures var s := Exec(Init(sizes, maxScans), acts);
            var x, pipe := Stream(kind, s.pool[d].scan), PipeOf(s.pool[d], kind);
            pipe.written == Delivered(s.wire, x) + Held(s.tasks, x) + At(s.store.buf, x) + pipe.unread
  {
    PipesRun(sizes, maxScans, acts, d);
    Fifo(sizes, maxScans, acts, Stream(kind, Exec(Init(sizes, maxScans), acts).pool[d].scan));
  }
}
