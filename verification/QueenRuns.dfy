/** Runs from the start that break what the code and its comments suggest: two flushers that reorder a
    stream, and terminal statuses that overtake their scan's data. */
module QueenRuns {
  import opened Statuses
  import opened QueenMachine
  import opened QueenLedger
  import opened QueenTerminal
  import opened QueenStatuses

  const FIRST_A := Item(0, 0, "1")
  const SECOND_A := Item(0, 1, "2")
  const FIRST_B := Item(1, 0, "1")
  const FIRST_C := Item(2, 0, "1")

  // ---------- overlapping flushes ----------

  /** Whenever one flusher is suspended with a stream's events and the rest of the buffer is empty,
      one more line, one more flush and one send put that younger line on the wire first, while
      the older ones are still held. */
  lemma OverlapReorders(s: State, i: nat, d: nat) returns (acts: seq<Action>)
    requires ValidSizes(s.sizes) && s.store == Store(map[], [])
    requires d < |s.pool| && s.pool[d].out.unread != []
    requires i < |s.tasks| && s.tasks[i].Sending? && s.tasks[i].cur == Stream(Events, s.pool[d].scan)
    ensures var x := Stream(Events, s.pool[d].scan);
            var line := s.pool[d].out.unread[..1];
            var e := Exec(s, acts);
            && At(e.book.accepted, x) == At(s.book.accepted, x) + line
            && Delivered(e.wire, x) == Delivered(s.wire, x) + line
            && |e.tasks| > i && HeldBy(e.tasks[i], x) == HeldBy(s.tasks[i], x)
  {
    var x := Stream(Events, s.pool[d].scan);
    var line := s.pool[d].out.unread[..1];
    var n := |s.tasks|;
    var read, begin := [Read(d, Events)], [Read(d, Events)] + [BeginFlush(Events)];
    ExecAppend(s, [], Read(d, Events));
    assert [] + [Read(d, Events)] == read;
    var s1 := ReadAlone(s, d);
    ExecAppend(s, read, BeginFlush(Events));
    var s2 := FlushAlone(s1, x, line);
    acts := begin + [SendOk(n)];
    ExecAppend(s, begin, SendOk(n));
    SendAlone(s2, n, x, line);
  }

  lemma ReadAlone(s: State, d: nat) returns (e: State)
    requires s.store == Store(map[], []) && d < |s.pool| && s.pool[d].out.unread != []
    ensures var x, line := Stream(Events, s.pool[d].scan), s.pool[d].out.unread[..1];
            && e == Step(s, Read(d, Events))
            && e.store == Store(map[x := line], [x])
            && e.tasks == s.tasks && e.wire == s.wire && e.sizes == s.sizes
            && At(e.book.accepted, x) == At(s.book.accepted, x) + line
  {
    e := ReadLine(s, d, Events);
    var x, line := Stream(Events, s.pool[d].scan), s.pool[d].out.unread[..1];
    AtAppendTo(s.book.accepted, x, line, x);
    assert At(s.store.buf, x) + line == line;
    assert [] + [x] == [x];
  }

  lemma FlushAlone(s: State, x: Stream, line: seq<Item>) returns (e: State)
    requires ValidSizes(s.sizes) && x.kind.Events? && |line| == 1
    requires s.store == Store(map[x := line], [x])
    ensures e == Step(s, BeginFlush(Events))
    ensures e == s.(store := Store(map[], []), tasks := s.tasks + [Sending([], x, line, [], Nothing)])
  {
    FlushOfOne(s, x, line);
    e := Apply(s, BeginFlush(Events));
  }

  lemma SendAlone(s: State, n: nat, x: Stream, line: seq<Item>)
    requires n < |s.tasks| && s.tasks[n] == Sending([], x, line, [], Nothing)
    ensures var e := Step(s, SendOk(n));
            && Delivered(e.wire, x) == Delivered(s.wire, x) + line
            && e.tasks == s.tasks[n := Idle] && e.book == s.book
  {
    DeliveredAppend(s.wire, Batch(x, line), x);
    assert AfterSend(s.sizes, s.store, s.tasks[n]) == Flush(s.store, Idle);
    assert Step(s, SendOk(n)) == s.(wire := s.wire + [Batch(x, line)], tasks := s.tasks[n := Idle]);
  }

  lemma FlushOfOne(s: State, x: Stream, line: seq<Item>)
    requires ValidSizes(s.sizes) && x.kind.Events? && |line| == 1
    requires s.store == Store(map[x := line], [x])
    ensures Resume(s.sizes, s.store, OfKind(s.store.order, Events), Nothing)
         == Flush(Store(map[], []), Sending([], x, line, [], Nothing))
  {
    assert [x][1..] == [];
    assert OfKind([x], Events) == [x] + OfKind([], Events) == [x];
    assert Without([x], x) == [] + Without([], x) == [];
    assert map[x := line] - {x} == map[];
    assert Cut(line, s.sizes.events) == 1;
    assert line[..1] == line && line[1..] == [];
  }

  // ---------- runs from the start that overlap ----------

  /** No drone has reported anything, and each reader is up to date. */
  ghost predicate OrderlyStart(s: State) {
    && ValidSizes(s.sizes)
    && (forall c | 0 <= c < |s.pool| ::
         !s.pool[c].closed && s.pool[c].out.unread == [] && s.pool[c].status == NotStarted)
  }

  lemma Admits(s: State, scan: string) returns (e: State)
    requires OrderlyStart(s) && scan !in s.drones && |s.drones| < s.maxScans
    ensures e == Step(s, CmdStart(scan, true)) && OrderlyStart(e)
    ensures e.drones == s.drones[scan := |s.pool|] && |e.pool| == |s.pool| + 1
    ensures (forall c | 0 <= c < |s.pool| :: e.pool[c] == s.pool[c])
    ensures e.pool[|s.pool|].scan == scan && e.pool[|s.pool|].out.written == []
    ensures e == s.(drones := e.drones, pool := e.pool)
  {
    e := StartScan(s, scan, true);
  }

  /** A drone's process writes an event and the reader takes it. */
  lemma EventComes(s: State, d: nat, line: Item) returns (e: State)
    requires OrderlyStart(s) && d < |s.pool| && line.d == d && line.n == |s.pool[d].out.written|
    ensures e == Exec(s, [Write(d, Events, line.text), Read(d, Events)]) && OrderlyStart(e)
    ensures |e.pool| == |s.pool| && forall c | 0 <= c < |s.pool| :: e.pool[c].scan == s.pool[c].scan
    ensures e.pool[d].out.written == s.pool[d].out.written + [line]
    ensures forall c | 0 <= c < |s.pool| && c != d :: e.pool[c] == s.pool[c]
    ensures var x := Stream(Events, s.pool[d].scan);
            && e == s.(pool := e.pool, store := Put(s.store, x, At(s.store.buf, x) + [line]), book := e.book)
            && e.book == s.book.(accepted := AppendTo(s.book.accepted, x, [line]))
  {
    var written := WriteOnly(s, d, line);
    e := ReadOnly(written, d, line);
    TwoSteps(s, Write(d, Events, line.text), Read(d, Events));
  }

  lemma TwoSteps(s: State, a: Action, b: Action)
    ensures Exec(s, [a, b]) == Step(Step(s, a), b)
  {
    assert [a, b] == [a] + [b] && [] + [b] == [b];
    ExecFront(s, a, [b]);
    ExecAppend(Step(s, a), [], b);
  }

  lemma WriteOnly(s: State, d: nat, line: Item) returns (e: State)
    requires d < |s.pool| && !s.pool[d].closed && s.pool[d].out.unread == []
    requires line.d == d && line.n == |s.pool[d].out.written|
    ensures e == Step(s, Write(d, Events, line.text))
    ensures e == s.(pool := s.pool[d := s.pool[d].(out := Pipe(s.pool[d].out.written + [line], [line]))])
  {
    assert [] + [line] == [line];
    e := Step(s, Write(d, Events, line.text));
  }

  lemma ReadOnly(s: State, d: nat, line: Item) returns (e: State)
    requires d < |s.pool| && s.pool[d].out.unread == [line]
    ensures e == Step(s, Read(d, Events))
    ensures var x, rec := Stream(Events, s.pool[d].scan), s.pool[d];
            && e == s.(pool := e.pool, store := Put(s.store, x, At(s.store.buf, x) + [line]), book := e.book)
            && e.book == s.book.(accepted := AppendTo(s.book.accepted, x, [line]))
            && e.pool == s.pool[d := rec.(out := Pipe(rec.out.written, []), eventsSent := rec.eventsSent + 1)]
  {
    assert [line][..1] == [line] && [line][1..] == [];
    e := ReadLine(s, d, Events);
  }

  /** From the start: a scan's first event is in the hands of a flusher suspended in its send. */
  lemma FirstFlush(sizes: Sizes, maxScans: int) returns (acts: seq<Action>, s: State)
    requires ValidSizes(sizes) && maxScans > 0
    ensures s == Exec(Init(sizes, maxScans), acts) && OrderlyStart(s)
    ensures s.store == Store(map[], []) && s.wire == [] && s.pool != [] && s.pool[0].scan == "a"
    ensures |s.pool[0].out.written| == 1
    ensures s.tasks == [Sending([], Stream(Events, "a"), [FIRST_A], [], Nothing)]
    ensures At(s.book.accepted, Stream(Events, "a")) == [FIRST_A]
  {
    var s0, x := Init(sizes, maxScans), Stream(Events, "a");
    var s1 := Admits(s0, "a");
    var s2 := EventComes(s1, 0, FIRST_A);
    assert [] + [FIRST_A] == [FIRST_A] && [] + [x] == [x];
    s := FlushAlone(s2, x, [FIRST_A]);
    assert s.tasks == [Sending([], x, [FIRST_A], [], Nothing)];
    acts := [CmdStart("a", true)] + ([Write(0, Events, FIRST_A.text), Read(0, Events)] + [BeginFlush(Events)]);
    ExecFront(s0, CmdStart("a", true), [Write(0, Events, FIRST_A.text), Read(0, Events)] + [BeginFlush(Events)]);
    ExecAppend(s1, [Write(0, Events, FIRST_A.text), Read(0, Events)], BeginFlush(Events));
  }

  /** A run that reorders: the second event is delivered, the first still held. */
  lemma OverlapFromStart(sizes: Sizes, maxScans: int) returns (acts: seq<Action>)
    requires ValidSizes(sizes) && maxScans > 0
    ensures var e, x := Exec(Init(sizes, maxScans), acts), Stream(Events, "a");
            && At(e.book.accepted, x) == [FIRST_A, SECOND_A]
            && Delivered(e.wire, x) == [SECOND_A]
            && |e.tasks| > 0 && HeldBy(e.tasks[0], x) == [FIRST_A]
  {
    var first, s := FirstFlush(sizes, maxScans);
    var written := Step(s, Write(0, Events, SECOND_A.text));
    var rest := OverlapReorders(written, 0, 0);
    ExecFront(s, Write(0, Events, SECOND_A.text), rest);
    acts := first + ([Write(0, Events, SECOND_A.text)] + rest);
    ExecConcat(Init(sizes, maxScans), first, [Write(0, Events, SECOND_A.text)] + rest);
    assert written.pool[0].out.unread == [SECOND_A] && [SECOND_A][..1] == [SECOND_A];
    assert [FIRST_A] + [SECOND_A] == [FIRST_A, SECOND_A] && [] + [SECOND_A] == [SECOND_A];
    assert HeldBy(s.tasks[0], Stream(Events, "a")) == [FIRST_A] + [] == [FIRST_A];
  }

  // ---------- runs from the start in which the status goes first ----------

  /** A stream some flusher holds when a terminal report enters with empty buffers is still held when
      the status message is on the wire. */
  lemma HeldDataMayFollowStatus(s: State, a: Action, i: nat, x: Stream)
    requires s.store == Store(map[], []) && GoesTerminal(s, a)
    requires i < |s.tasks| && HeldBy(s.tasks[i], x) != []
    ensures var e := Step(Step(s, a), SendOk(|s.tasks|));
            && e.wire == s.wire + [Critical(StatusMsg(s.pool[a.d].scan, a.status))]
            && |e.tasks| > i && HeldBy(e.tasks[i], x) == HeldBy(s.tasks[i], x)
  {
    var scan, status := s.pool[a.d].scan, a.status;
    var raised := s.(pool := s.pool[a.d := s.pool[a.d].(status := status)]);
    assert OfKind([], Events) == [] && OfKind([], Logs) == [];
    assert Resume(s.sizes, s.store, [], ThenLogs(scan, status)) ==
           Resume(s.sizes, s.store, [], ThenStatus(scan, status))
        == Flush(s.store, Posting(StatusMsg(scan, status)));
    var mid := HandleStatus(raised, scan, status);
    assert mid.tasks == s.tasks + [Posting(StatusMsg(scan, status))];
  }

  /** A run in which the flusher holds the scan's event when it finishes. */
  lemma HeldFollowsFromStart(sizes: Sizes, maxScans: int) returns (acts: seq<Action>)
    requires ValidSizes(sizes) && maxScans > 0
    ensures var e := Exec(Init(sizes, maxScans), acts);
            && e.wire == [Critical(StatusMsg("a", Finished))]
            && |e.tasks| > 0 && HeldBy(e.tasks[0], Stream(Events, "a")) == [FIRST_A]
  {
    var first, s := FirstFlush(sizes, maxScans);
    assert HeldBy(s.tasks[0], Stream(Events, "a")) == [FIRST_A] + [] == [FIRST_A];
    HeldDataMayFollowStatus(s, Report(0, Finished), 0, Stream(Events, "a"));
    acts := first + [Report(0, Finished)] + [SendOk(1)];
    ExecAppend(Init(sizes, maxScans), first, Report(0, Finished));
    ExecAppend(Init(sizes, maxScans), first + [Report(0, Finished)], SendOk(1));
  }

  /** The three first events of three scans wait in the buffer. */
  lemma ThreeBuffered(sizes: Sizes, maxScans: int) returns (acts: seq<Action>, s: State)
    requires ValidSizes(sizes) && maxScans >= 3
    ensures s == Exec(Init(sizes, maxScans), acts) && OrderlyStart(s)
    ensures |s.pool| == 3 && s.pool[2].scan == "c" && s.tasks == [] && s.wire == []
    ensures var x, y, z := Stream(Events, "a"), Stream(Events, "b"), Stream(Events, "c");
            s.store == Store(map[x := [FIRST_A], y := [FIRST_B], z := [FIRST_C]], [x, y, z])
  {
    var admits, s3 := ThreeAdmitted(sizes, maxScans);
    var x, y, z := Stream(Events, "a"), Stream(Events, "b"), Stream(Events, "c");
    var s4 := EventComes(s3, 0, FIRST_A);
    var s5 := EventComes(s4, 1, FIRST_B);
    s := EventComes(s5, 2, FIRST_C);
    assert [] + [x] + [y] + [z] == [x, y, z];
    assert [] + [FIRST_A] == [FIRST_A] && [] + [FIRST_B] == [FIRST_B] && [] + [FIRST_C] == [FIRST_C];
    var e4, e5, e6 := [Write(0, Events, FIRST_A.text), Read(0, Events)],
                      [Write(1, Events, FIRST_B.text), Read(1, Events)],
                      [Write(2, Events, FIRST_C.text), Read(2, Events)];
    ExecConcat(s3, e4, e5);
    ExecConcat(s3, e4 + e5, e6);
    ExecConcat(Init(sizes, maxScans), admits, e4 + e5 + e6);
    acts := admits + (e4 + e5 + e6);
  }

  lemma ThreeAdmitted(sizes: Sizes, maxScans: int) returns (acts: seq<Action>, s: State)
    requires ValidSizes(sizes) && maxScans >= 3
    ensures s == Exec(Init(sizes, maxScans), acts) && OrderlyStart(s)
    ensures |s.pool| == 3 && s.pool[0].scan == "a" && s.pool[1].scan == "b" && s.pool[2].scan == "c"
    ensures forall c | 0 <= c < 3 :: s.pool[c].out.written == []
    ensures s == Init(sizes, maxScans).(pool := s.pool, drones := s.drones)
  {
    var s0 := Init(sizes, maxScans);
    var s1 := Admits(s0, "a");
    var s2 := Admits(s1, "b");
    s := Admits(s2, "c");
    acts := [CmdStart("a", true), CmdStart("b", true), CmdStart("c", true)];
    ExecFour(s0, acts[0], acts[1], acts[2], SyncState);
  }

  /** A run in which a flusher, suspended on another scan, has the finishing scan's event pending, and
      takes it away while the report itself is suspended on a third scan. */
  lemma PendingFollowsFromStart(sizes: Sizes, maxScans: int) returns (acts: seq<Action>)
    requires ValidSizes(sizes) && maxScans >= 3
    ensures var e, x := Exec(Init(sizes, maxScans), acts), Stream(Events, "c");
            && |e.wire| == 3 && e.wire[2] == Critical(StatusMsg("c", Finished))
            && Delivered(e.wire, x) == [] && |e.tasks| > 0 && HeldBy(e.tasks[0], x) == [FIRST_C]
  {
    var first, s := ThreeBuffered(sizes, maxScans);
    var s1 := FlushSuspends(s);
    var s2 := ReportSuspends(s1);
    var last, e := FlusherGoesFirst(s2);
    ExecFront(s1, Report(2, Finished), last);
    ExecFront(s, BeginFlush(Events), [Report(2, Finished)] + last);
    ExecConcat(Init(sizes, maxScans), first, [BeginFlush(Events)] + ([Report(2, Finished)] + last));
    acts := first + ([BeginFlush(Events)] + ([Report(2, Finished)] + last));
  }

  /** The flusher sends, skips what the report took and takes the finishing scan's event; the report
      sends, finds nothing more, and its status message goes out. */
  lemma FlusherGoesFirst(s: State) returns (acts: seq<Action>, e: State)
    requires ValidSizes(s.sizes)
    requires var x, y, z := Stream(Events, "a"), Stream(Events, "b"), Stream(Events, "c");
             && s.store == Store(map[z := [FIRST_C]], [z]) && s.wire == []
             && s.tasks == [Sending([y, z], x, [FIRST_A], [], Nothing),
                         Sending([z], y, [FIRST_B], [], ThenLogs("c", Finished))]
    ensures e == Exec(s, acts)
    ensures |e.wire| == 3 && e.wire[2] == Critical(StatusMsg("c", Finished))
    ensures Delivered(e.wire, Stream(Events, "c")) == []
    ensures |e.tasks| > 0 && HeldBy(e.tasks[0], Stream(Events, "c")) == [FIRST_C]
  {
    var x, y, z := Stream(Events, "a"), Stream(Events, "b"), Stream(Events, "c");
    var s1 := FlushSkips(s);
    var s2 := ReportPosts(s1);
    e := StatusGoesOut(s2);
    acts := SendsThree(s, 0, 1, 1);
    assert e.wire == [] + [Batch(x, [FIRST_A])] + [Batch(y, [FIRST_B])] + [Critical(StatusMsg("c", Finished))];
    NothingOf(Batch(x, [FIRST_A]), Batch(y, [FIRST_B]), Critical(StatusMsg("c", Finished)), z);
  }

  lemma SendsThree(s: State, i: nat, j: nat, k: nat) returns (acts: seq<Action>)
    ensures Exec(s, acts) == Step(Step(Step(s, SendOk(i)), SendOk(j)), SendOk(k))
  {
    acts := [SendOk(i), SendOk(j), SendOk(k)];
    ExecFour(s, SendOk(i), SendOk(j), SendOk(k), SyncState);
  }

  lemma StatusGoesOut(s: State) returns (e: State)
    requires |s.tasks| == 2 && s.tasks[1] == Posting(StatusMsg("c", Finished))
    requires s.tasks[0] == Sending([], Stream(Events, "c"), [FIRST_C], [], Nothing)
    ensures e == Step(s, SendOk(1)) && e.wire == s.wire + [Critical(StatusMsg("c", Finished))]
    ensures |e.tasks| == 2 && HeldBy(e.tasks[0], Stream(Events, "c")) == [FIRST_C]
  {
    assert [FIRST_C] + [] == [FIRST_C];
    e := Step(s, SendOk(1));
  }

  lemma NothingOf(k: Msg, l: Msg, m: Msg, x: Stream)
    requires forall n | n in [k, l, m] :: !n.Batch? || n.stream != x
    ensures Delivered([] + [k] + [l] + [m], x) == []
  {
    assert k in [k, l, m] && l in [k, l, m] && m in [k, l, m];
    DeliveredAppend([], k, x);
    DeliveredAppend([] + [k], l, x);
    DeliveredAppend([] + [k] + [l], m, x);
  }

  /** One list of one line, at the head of the keys: the flush takes it and suspends in its send. */
  lemma TakesHead(sizes: Sizes, store: Store, keys: seq<Stream>, after: After, line: Item)
    requires ValidSizes(sizes) && keys != [] && At(store.buf, keys[0]) == [line]
    ensures Resume(sizes, store, keys, after)
         == Flush(Pop(store, keys[0]), Sending(keys[1..], keys[0], [line], [], after))
  {
    assert Cut([line], Size(sizes, keys[0].kind)) == 1;
    assert [line][..1] == [line] && [line][1..] == [];
  }

  lemma FlushSuspends(s: State) returns (e: State)
    requires ValidSizes(s.sizes)
    requires var x, y, z := Stream(Events, "a"), Stream(Events, "b"), Stream(Events, "c");
             s.store == Store(map[x := [FIRST_A], y := [FIRST_B], z := [FIRST_C]], [x, y, z])
    ensures var x, y, z := Stream(Events, "a"), Stream(Events, "b"), Stream(Events, "c");
            && e == Step(s, BeginFlush(Events))
            && e == s.(store := Store(map[y := [FIRST_B], z := [FIRST_C]], [y, z]),
                       tasks := s.tasks + [Sending([y, z], x, [FIRST_A], [], Nothing)])
  {
    var x, y, z := Stream(Events, "a"), Stream(Events, "b"), Stream(Events, "c");
    KeysOfThree(x, y, z);
    TakesHead(s.sizes, s.store, [x, y, z], Nothing, FIRST_A);
    assert [x, y, z][1..] == [y, z];
    assert s.store.buf - {x} == map[y := [FIRST_B], z := [FIRST_C]] by {
      assert x != y && x != z && y != z;
      assert (s.store.buf - {x}).Keys == {y, z};
    }
    e := Step(s, BeginFlush(Events));
  }

  lemma KeysOfThree(x: Stream, y: Stream, z: Stream)
    requires x.kind.Events? && y.kind.Events? && z.kind.Events? && x != y && y != z && x != z
    ensures OfKind([x, y, z], Events) == [x, y, z] && OfKind([y, z], Events) == [y, z]
    ensures Without([x, y, z], x) == [y, z] && Without([y, z], y) == [z] && Without([z], z) == []
  {
    assert [x, y, z][1..] == [y, z] && [y, z][1..] == [z] && [z][1..] == [];
    assert OfKind([z], Events) == [z] + OfKind([], Events) == [z];
    assert OfKind([y, z], Events) == [y] + OfKind([z], Events) == [y, z];
    assert OfKind([x, y, z], Events) == [x] + OfKind([y, z], Events) == [x, y, z];
    assert Without([z], x) == [z] + Without([], x) == [z];
    assert Without([y, z], x) == [y] + Without([z], x) == [y, z];
    assert Without([x, y, z], x) == [] + Without([y, z], x) == [y, z];
    assert Without([z], y) == [z] + Without([], y) == [z];
    assert Without([y, z], y) == [] + Without([z], y) == [z];
    assert Without([z], z) == [] + Without([], z) == [];
  }

  lemma ReportSuspends(s: State) returns (e: State)
    requires ValidSizes(s.sizes) && |s.pool| == 3 && s.pool[2].scan == "c" && s.pool[2].status == NotStarted
    requires s.store == Store(map[Stream(Events, "b") := [FIRST_B], Stream(Events, "c") := [FIRST_C]],
                              [Stream(Events, "b"), Stream(Events, "c")])
    ensures var y, z := Stream(Events, "b"), Stream(Events, "c");
            && e == Step(s, Report(2, Finished))
            && e.store == Store(map[z := [FIRST_C]], [z]) && e.wire == s.wire && e.sizes == s.sizes
            && e.tasks == s.tasks + [Sending([z], y, [FIRST_B], [], ThenLogs("c", Finished))]
  {
    var y, z := Stream(Events, "b"), Stream(Events, "c");
    KeysOfThree(Stream(Events, "a"), y, z);
    TakesFirstOfTwo(s.sizes, s.store, y, z, ThenLogs("c", Finished));
    e := Reports(s, 2, Finished);
  }

  /** A terminal report, as far as buffers, tasks and wire go. */
  lemma Reports(s: State, d: nat, status: ScanStatus) returns (e: State)
    requires d < |s.pool| && s.pool[d].status == NotStarted && IsTerminal(status)
    ensures e == Step(s, Report(d, status)) && e.wire == s.wire && e.sizes == s.sizes
    ensures var f := Resume(s.sizes, s.store, OfKind(s.store.order, Events), ThenLogs(s.pool[d].scan, status));
            e.store == f.store && e.tasks == s.tasks + [f.task]
    ensures e.pool == s.pool[d := s.pool[d].(status := status)]
  {
    e := Attempt(s, d, status);
  }

  lemma TakesFirstOfTwo(sizes: Sizes, store: Store, y: Stream, z: Stream, after: After)
    requires ValidSizes(sizes) && y != z && y.kind.Events? && z.kind.Events?
    requires store == Store(map[y := [FIRST_B], z := [FIRST_C]], [y, z])
    ensures Resume(sizes, store, [y, z], after)
         == Flush(Store(map[z := [FIRST_C]], [z]), Sending([z], y, [FIRST_B], [], after))
  {
    TakesHead(sizes, store, [y, z], after, FIRST_B);
    assert [y, z][1..] == [z] && [z][1..] == [];
    assert Without([z], y) == [z] + Without([], y) == [z];
    assert Without([y, z], y) == [] + Without([z], y) == [z];
    assert map[y := [FIRST_B], z := [FIRST_C]] - {y} == map[z := [FIRST_C]];
  }

  lemma FlushSkips(s: State) returns (e: State)
    requires ValidSizes(s.sizes)
    requires var x, y, z := Stream(Events, "a"), Stream(Events, "b"), Stream(Events, "c");
             && s.store == Store(map[z := [FIRST_C]], [z]) && s.wire == []
             && s.tasks == [Sending([y, z], x, [FIRST_A], [], Nothing),
                         Sending([z], y, [FIRST_B], [], ThenLogs("c", Finished))]
    ensures var x, y, z := Stream(Events, "a"), Stream(Events, "b"), Stream(Events, "c");
            && e == Step(s, SendOk(0)) && e.sizes == s.sizes
            && e.store == Store(map[], []) && e.wire == [Batch(x, [FIRST_A])]
            && e.tasks == [Sending([], z, [FIRST_C], [], Nothing),
                        Sending([z], y, [FIRST_B], [], ThenLogs("c", Finished))]
  {
    SkipsThenTakes(s.sizes, Stream(Events, "b"), Stream(Events, "c"));
    e := Step(s, SendOk(0));
  }

  lemma SkipsThenTakes(sizes: Sizes, y: Stream, z: Stream)
    requires ValidSizes(sizes) && y != z
    ensures Resume(sizes, Store(map[z := [FIRST_C]], [z]), [y, z], Nothing)
         == Flush(Store(map[], []), Sending([], z, [FIRST_C], [], Nothing))
  {
    var store := Store(map[z := [FIRST_C]], [z]);
    assert [y, z][1..] == [z] && [z][1..] == [];
    assert Without([z], y) == [z] + Without([], y) == [z];
    assert Without([z], z) == [] + Without([], z) == [];
    assert Pop(store, y) == store;
    TakesHead(sizes, store, [z], Nothing, FIRST_C);
    assert map[z := [FIRST_C]] - {z} == map[];
    assert Resume(sizes, store, [y, z], Nothing) == Resume(sizes, store, [z], Nothing);
  }

  lemma ReportPosts(s: State) returns (e: State)
    requires s.store == Store(map[], []) && |s.tasks| == 2
    requires s.tasks[1] == Sending([Stream(Events, "c")], Stream(Events, "b"), [FIRST_B], [], ThenLogs("c", Finished))
    ensures e == Step(s, SendOk(1)) && e.wire == s.wire + [Batch(Stream(Events, "b"), [FIRST_B])]
    ensures e.tasks == [s.tasks[0], Posting(StatusMsg("c", Finished))]
  {
    var z := Stream(Events, "c");
    var posted := Flush(s.store, Posting(StatusMsg("c", Finished)));
    assert [z][1..] == [] && s.store.buf - {z} == s.store.buf && Without([], z) == [] && OfKind([], Logs) == [];
    assert Pop(s.store, z) == s.store;
    assert Resume(s.sizes, s.store, [], ThenStatus("c", Finished)) == posted;
    assert Resume(s.sizes, s.store, [], ThenLogs("c", Finished)) == posted;
    assert Resume(s.sizes, s.store, [z], ThenLogs("c", Finished)) == posted;
    e := Step(s, SendOk(1));
  }

  // ---------- a report suspended in its flush ----------

  /** A scan's drone reports a terminal status while its event is buffered: the report suspends in the
      send of the event. */
  lemma ReportTakesEvent(sizes: Sizes, maxScans: int, status: ScanStatus) returns (acts: seq<Action>, s: State)
    requires ValidSizes(sizes) && maxScans > 0 && IsTerminal(status)
    ensures s == Exec(Init(sizes, maxScans), acts) && s.sizes == sizes
    ensures s.store == Store(map[], []) && s.wire == []
    ensures |s.pool| == 1 && s.pool[0].scan == "a" && s.pool[0].status == status
    ensures s.tasks == [Sending([], Stream(Events, "a"), [FIRST_A], [], ThenLogs("a", status))]
  {
    var s1 := Admits(Init(sizes, maxScans), "a");
    var s2 := EventComes(s1, 0, FIRST_A);
    assert [] + [FIRST_A] == [FIRST_A] && [] + [Stream(Events, "a")] == [Stream(Events, "a")];
    s := TerminalSuspends(s2, status);
    var lines := [Write(0, Events, FIRST_A.text), Read(0, Events)];
    ExecAppend(s1, lines, Report(0, status));
    ExecFront(Init(sizes, maxScans), CmdStart("a", true), lines + [Report(0, status)]);
    acts := [CmdStart("a", true)] + (lines + [Report(0, status)]);
  }

  lemma TerminalSuspends(s: State, status: ScanStatus) returns (e: State)
    requires ValidSizes(s.sizes) && |s.pool| == 1 && s.pool[0].scan == "a" && s.pool[0].status == NotStarted
    requires var x := Stream(Events, "a"); s.store == Store(map[x := [FIRST_A]], [x]) && s.tasks == [] && s.wire == []
    requires IsTerminal(status)
    ensures e == Step(s, Report(0, status)) && e.store == Store(map[], []) && e.wire == [] && e.sizes == s.sizes
    ensures |e.pool| == 1 && e.pool[0].scan == "a" && e.pool[0].status == status
    ensures e.tasks == [Sending([], Stream(Events, "a"), [FIRST_A], [], ThenLogs("a", status))]
  {
    var x := Stream(Events, "a");
    assert [x][1..] == [] && OfKind([x], Events) == [x] + OfKind([], Events) == [x];
    assert Without([x], x) == [] + Without([], x) == [];
    assert s.store.buf - {x} == map[];
    TakesHead(s.sizes, s.store, [x], ThenLogs("a", status), FIRST_A);
    e := Reports(s, 0, status);
  }

  /** A run in which ABORTED overtakes FAILED: its report finds nothing to flush while the report of
      FAILED is still suspended in its flush. */
  lemma AbortedOvertakesFailed(sizes: Sizes, maxScans: int) returns (acts: seq<Action>)
    requires ValidSizes(sizes) && maxScans > 0
    ensures var e := Exec(Init(sizes, maxScans), acts);
            e.wire == [Critical(StatusMsg("a", Aborted)), Batch(Stream(Events, "a"), [FIRST_A]),
                       Critical(StatusMsg("a", Failed))]
  {
    var first, s := ReportTakesEvent(sizes, maxScans, Failed);
    var s2 := AbortedGoesOut(s);
    var s4 := FailedGoesOut(s2);
    var last := [Report(0, Aborted), SendOk(1), SendOk(0), SendOk(0)];
    ExecFour(s, last[0], last[1], last[2], last[3]);
    ExecConcat(Init(sizes, maxScans), first, last);
    acts := first + last;
  }

  lemma NothingToFlush(sizes: Sizes, scan: string, status: ScanStatus)
    ensures Resume(sizes, Store(map[], []), [], ThenLogs(scan, status))
         == Flush(Store(map[], []), Posting(StatusMsg(scan, status)))
  {
    assert OfKind([], Logs) == [];
    assert Resume(sizes, Store(map[], []), [], ThenLogs(scan, status))
        == Resume(sizes, Store(map[], []), [], ThenStatus(scan, status));
  }

  lemma AbortedGoesOut(s: State) returns (e: State)
    requires s.store == Store(map[], []) && |s.tasks| == 1
    requires |s.pool| == 1 && s.pool[0].scan == "a" && s.pool[0].status == Failed
    ensures e == Step(Step(s, Report(0, Aborted)), SendOk(1))
    ensures e.store == s.store && e.tasks == [s.tasks[0], Idle] && e.sizes == s.sizes
    ensures e.wire == s.wire + [Critical(StatusMsg("a", Aborted))]
  {
    NothingToFlush(s.sizes, "a", Aborted);
    assert OfKind([], Events) == [];
    var mid := Step(s, Report(0, Aborted));
    assert mid.tasks == [s.tasks[0], Posting(StatusMsg("a", Aborted))];
    e := Step(mid, SendOk(1));
  }

  lemma FailedGoesOut(s: State) returns (e: State)
    requires s.store == Store(map[], []) && |s.tasks| == 2
    requires s.tasks[0] == Sending([], Stream(Events, "a"), [FIRST_A], [], ThenLogs("a", Failed))
    ensures e == Step(Step(s, SendOk(0)), SendOk(0))
    ensures e.wire == s.wire + [Batch(Stream(Events, "a"), [FIRST_A])] + [Critical(StatusMsg("a", Failed))]
  {
    NothingToFlush(s.sizes, "a", Failed);
    var mid := Step(s, SendOk(0));
    assert mid.tasks[0] == Posting(StatusMsg("a", Failed));
    e := Step(mid, SendOk(0));
  }

  /** A run in which the report's own send fails: the event goes back to the buffer, and the status
      goes out before it. */
  lemma OwnFailureFromStart(sizes: Sizes, maxScans: int) returns (acts: seq<Action>)
    requires ValidSizes(sizes) && maxScans > 0
    ensures var e := Exec(Init(sizes, maxScans), acts);
            e.wire == [Critical(StatusMsg("a", Finished))] && At(e.store.buf, Stream(Events, "a")) == [FIRST_A]
  {
    var first, s := ReportTakesEvent(sizes, maxScans, Finished);
    var mid := SendFails(s);
    var e := Posts(mid, 0, Finished);
    TwoSteps(s, SendFail(0), SendOk(0));
    acts := first + [SendFail(0), SendOk(0)];
    ExecConcat(Init(sizes, maxScans), first, [SendFail(0), SendOk(0)]);
  }

  lemma SendFails(s: State) returns (e: State)
    requires s.store == Store(map[], [])
    requires s.tasks == [Sending([], Stream(Events, "a"), [FIRST_A], [], ThenLogs("a", Finished))]
    ensures e == Step(s, SendFail(0)) && e.wire == s.wire
    ensures e.tasks == [Posting(StatusMsg("a", Finished))] && At(e.store.buf, Stream(Events, "a")) == [FIRST_A]
  {
    var x := Stream(Events, "a");
    var put := Store(map[x := [FIRST_A]], [x]);
    assert Put(s.store, x, [FIRST_A] + []) == put by {
      assert [] + [x] == [x] && [FIRST_A] + [] == [FIRST_A];
    }
    assert [x][1..] == [] && OfKind([x], Logs) == [] + OfKind([], Logs) == [];
    assert Resume(s.sizes, put, [], ThenLogs("a", Finished)) == Resume(s.sizes, put, [], ThenStatus("a", Finished));
    e := Step(s, SendFail(0));
  }

  // ---------- a refused start ----------

  /** One more step of a run that never owes two messages of the scan. */
  lemma OneMore(init: State, acts: seq<Action>, a: Action, e: State, scan: string) returns (longer: seq<Action>)
    requires OneOwesRun(init, acts, scan) && e == Step(Exec(init, acts), a) && OneOwes(e.tasks, scan)
    ensures longer == acts + [a] && e == Exec(init, longer) && OneOwesRun(init, longer, scan)
  {
    longer := acts + [a];
    assert longer[..|acts|] == acts;
  }

  /** A run in which FAILED, reported for a second start command, goes out before the running drone's
      FINISHED, though never two reports have their message to send at a time. */
  lemma RefusalOvertakesFinished(sizes: Sizes, maxScans: int) returns (acts: seq<Action>)
    requires ValidSizes(sizes) && maxScans > 0
    ensures acts == [CmdStart("a", true), CmdStart("a", true), SendOk(0), Report(0, Finished), SendOk(1)]
    ensures Exec(Init(sizes, maxScans), acts).wire
         == [Critical(StatusMsg("a", Failed)), Critical(StatusMsg("a", Finished))]
    ensures OneOwesRun(Init(sizes, maxScans), acts, "a")
  {
    var first, s3 := RefusalGoesOut(sizes, maxScans);
    var s4 := FinishedPosts(s3);
    var s5 := Posts(s4, 1, Finished);
    acts := first;
    acts := OneMore(Init(sizes, maxScans), acts, Report(0, Finished), s4, "a");
    acts := OneMore(Init(sizes, maxScans), acts, SendOk(1), s5, "a");
  }

  lemma RefusalGoesOut(sizes: Sizes, maxScans: int) returns (acts: seq<Action>, s: State)
    requires ValidSizes(sizes) && maxScans > 0
    ensures acts == [CmdStart("a", true), CmdStart("a", true), SendOk(0)]
    ensures s == Exec(Init(sizes, maxScans), acts) && OneOwesRun(Init(sizes, maxScans), acts, "a")
    ensures s.store == Store(map[], []) && s.tasks == [Idle] && s.wire == [Critical(StatusMsg("a", Failed))]
    ensures |s.pool| == 1 && s.pool[0].scan == "a" && s.pool[0].status == NotStarted
  {
    var s0 := Init(sizes, maxScans);
    var s1, s2 := RefusalSteps(s0);
    s := Posts(s2, 0, Failed);
    acts := ThreeMore(s0, CmdStart("a", true), CmdStart("a", true), SendOk(0), s1, s2, s, "a");
  }

  lemma ThreeMore(init: State, a: Action, b: Action, c: Action, s1: State, s2: State, s3: State, scan: string)
      returns (acts: seq<Action>)
    requires OneOwes(init.tasks, scan)
    requires s1 == Step(init, a) && OneOwes(s1.tasks, scan)
    requires s2 == Step(s1, b) && OneOwes(s2.tasks, scan)
    requires s3 == Step(s2, c) && OneOwes(s3.tasks, scan)
    ensures acts == [a, b, c] && s3 == Exec(init, acts) && OneOwesRun(init, acts, scan)
  {
    acts := OneMore(init, [], a, s1, scan);
    acts := OneMore(init, acts, b, s2, scan);
    acts := OneMore(init, acts, c, s3, scan);
  }

  lemma RefusalSteps(s: State) returns (s1: State, s2: State)
    requires OrderlyStart(s) && s.drones == map[] && s.pool == [] && s.maxScans > 0
    requires s.store == Store(map[], []) && s.tasks == []
    ensures s1 == Step(s, CmdStart("a", true)) && s2 == Step(s1, CmdStart("a", true))
    ensures s1.tasks == [] && s2.tasks == [Posting(StatusMsg("a", Failed))]
    ensures s2.store == s.store && s2.wire == s.wire
    ensures |s2.pool| == 1 && s2.pool[0].scan == "a" && s2.pool[0].status == NotStarted
  {
    s1 := Admits(s, "a");
    s2 := RefusedAgain(s1);
  }

  lemma RefusedAgain(s: State) returns (e: State)
    requires s.store == Store(map[], []) && "a" in s.drones && s.tasks == []
    ensures e == Step(s, CmdStart("a", true))
    ensures e.pool == s.pool && e.store == s.store && e.wire == s.wire
    ensures e.tasks == [Posting(StatusMsg("a", Failed))]
  {
    NothingToFlush(s.sizes, "a", Failed);
    assert OfKind([], Events) == [];
    e := Step(s, CmdStart("a", true));
  }

  lemma Posts(s: State, i: nat, status: ScanStatus) returns (e: State)
    requires i < |s.tasks| && s.tasks[i] == Posting(StatusMsg("a", status))
    ensures e == Step(s, SendOk(i))
    ensures e == s.(wire := s.wire + [Critical(StatusMsg("a", status))], tasks := s.tasks[i := Idle])
  {
    e := Step(s, SendOk(i));
  }

  lemma FinishedPosts(s: State) returns (e: State)
    requires s.store == Store(map[], []) && s.tasks == [Idle]
    requires |s.pool| == 1 && s.pool[0].scan == "a" && s.pool[0].status == NotStarted
    ensures e == Step(s, Report(0, Finished))
    ensures e.wire == s.wire && e.tasks == [Idle, Posting(StatusMsg("a", Finished))]
  {
    NothingToFlush(s.sizes, "a", Finished);
    assert OfKind([], Events) == [];
    e := Step(s, Report(0, Finished));
  }
}
