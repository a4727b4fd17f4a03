/** The queen as a step system: her registry of drones, the moving capacity limit, the event and
    log buffers, and any number of tasks suspended inside channel.send.

    As in DroneMachine, a run is any sequence of actions, a disabled action changes nothing, and
    the code between two suspending awaits is one action. */
module QueenMachine {
  import opened Statuses

  /** A line: the n-th a process of drone d wrote to one of its pipes. */
  datatype Item = Item(d: nat, n: nat, text: string)

  datatype Kind = Events | Logs

  /** The lines of one kind that belong to one scan: one key of _event_buffer or _log_buffer. */
  datatype Stream = Stream(kind: Kind, scan: string)

  /** Messages sent one by one with critical priority. */
  datatype Notice =
    | StatusMsg(scan: string, status: ScanStatus)
    | StateSync(maxScans: int, available: int, active: map<string, ScanStatus>)

  datatype Msg = Batch(stream: Stream, items: seq<Item>) | Critical(notice: Notice)

  // ---------- the buffers ----------

  /** A Python dict from streams to lists: order is its iteration order. */
  datatype Store = Store(buf: map<Stream, seq<Item>>, order: seq<Stream>)

  function At(m: map<Stream, seq<Item>>, x: Stream): seq<Item> {
    if x in m then m[x] else []
  }

  function Put(store: Store, x: Stream, items: seq<Item>): Store {
    Store(store.buf[x := items], if x in store.buf then store.order else store.order + [x])
  }

  function Without(order: seq<Stream>, x: Stream): seq<Stream> {
    if order == [] then []
    else (if order[0] == x then [] else [order[0]]) + Without(order[1..], x)
  }

  function Pop(store: Store, x: Stream): Store {
    Store(store.buf - {x}, Without(store.order, x))
  }

  function OfKind(order: seq<Stream>, kind: Kind): seq<Stream> {
    if order == [] then []
    else (if order[0].kind == kind then [order[0]] else []) + OfKind(order[1..], kind)
  }

  // ---------- tasks ----------

  /** What a flush is followed by: nothing, or the rest of a terminal status report. */
  datatype After = Nothing | ThenLogs(scan: string, status: ScanStatus) | ThenStatus(scan: string, status: ScanStatus)

  datatype Task =
    | Idle
    | Sending(keys: seq<Stream>, cur: Stream, batch: seq<Item>, rest: seq<Item>, after: After)
    | Posting(notice: Notice)

  datatype Sizes = Sizes(events: nat, logs: nat)

  function Size(sizes: Sizes, kind: Kind): nat {
    if kind.Events? then sizes.events else sizes.logs
  }

  predicate ValidSizes(sizes: Sizes) {
    sizes.events >= 1 && sizes.logs >= 1
  }

  function Cut(items: seq<Item>, size: nat): nat {
    if size < |items| then size else |items|
  }

  /** The head of the while loop of a flush: cut the next batch and suspend in its send. */
  function NextBatch(sizes: Sizes, keys: seq<Stream>, x: Stream, items: seq<Item>, after: After): Task {
    var n := Cut(items, Size(sizes, x.kind));
    Sending(keys, x, items[..n], items[n..], after)
  }

  datatype Flush = Flush(store: Store, task: Task)

  /** A flush from the head of its for loop, with keys still to visit, to its next suspension. */
  function Resume(sizes: Sizes, store: Store, keys: seq<Stream>, after: After): Flush
    decreases after.ThenLogs?, |keys|
  {
    if keys == [] then
      match after
      case Nothing => Flush(store, Idle)
      case ThenLogs(scan, status) => Resume(sizes, store, OfKind(store.order, Logs), ThenStatus(scan, status))
      case ThenStatus(scan, status) => Flush(store, Posting(StatusMsg(scan, status)))
    else
      var items := At(store.buf, keys[0]);
      var popped := Pop(store, keys[0]);
      if items == [] then Resume(sizes, popped, keys[1..], after)
      else Flush(popped, NextBatch(sizes, keys[1..], keys[0], items, after))
  }

  /** The send of a batch returned. */
  function AfterSend(sizes: Sizes, store: Store, t: Task): Flush
    requires t.Sending?
  {
    if t.rest != [] then Flush(store, NextBatch(sizes, t.keys, t.cur, t.rest, t.after))
    else Resume(sizes, store, t.keys, t.after)
  }

  /** The send of a batch raised ConnectionError: assign the unsent list back, and go on. */
  function AfterFailure(sizes: Sizes, store: Store, t: Task): Flush
    requires t.Sending?
  {
    Resume(sizes, Put(store, t.cur, t.batch + t.rest), t.keys, t.after)
  }

  // ---------- state ----------

  /** One Drone object as the queen sees it, with the two pipes its readers drain.
      written: every line its process has written so far. */
  datatype DroneRec = DroneRec(scan: string, status: ScanStatus, eventsSent: nat, closed: bool,
                               out: Pipe, err: Pipe)
  datatype Pipe = Pipe(written: seq<Item>, unread: seq<Item>)

  /** How many lines of a pipe have been read. */
  function Taken(pipe: Pipe): int {
    |pipe.written| - |pipe.unread|
  }

  function PipeOf(rec: DroneRec, kind: Kind): Pipe {
    if kind.Events? then rec.out else rec.err
  }

  function WithPipe(rec: DroneRec, kind: Kind, pipe: Pipe): DroneRec {
    if kind.Events? then rec.(out := pipe) else rec.(err := pipe)
  }

  /** accepted and lost are ledgers: what the line handlers took in, and what a re-buffer
      overwrote or a cancelled flusher dropped. */
  datatype Book = Book(accepted: map<Stream, seq<Item>>, lost: map<Stream, seq<Item>>)

  datatype State = State(
    sizes: Sizes,
    store: Store,
    tasks: seq<Task>,
    wire: seq<Msg>,
    book: Book,
    drones: map<string, nat>,
    pool: seq<DroneRec>,
    maxScans: int
  )

  function Init(sizes: Sizes, maxScans: int): State {
    State(sizes, Store(map[], []), [], [], Book(map[], map[]), map[], [], maxScans)
  }

  function Available(s: State): int {
    s.maxScans - |s.drones|
  }

  /** The payload of _build_state_sync. */
  function Snapshot(s: State): Notice
    requires forall k | k in s.drones :: s.drones[k] < |s.pool|
  {
    StateSync(s.maxScans, Available(s), map k | k in s.drones :: s.pool[s.drones[k]].status)
  }

  // ---------- the atomic regions ----------

  function Spawn(s: State, f: Flush): State {
    s.(store := f.store, tasks := s.tasks + [f.task])
  }

  /** _handle_scan_status_change up to its first suspension: pop before anything can fail. */
  function HandleStatus(s: State, scan: string, status: ScanStatus): State {
    if IsTerminal(status) then
      Spawn(s.(drones := s.drones - {scan}),
            Resume(s.sizes, s.store, OfKind(s.store.order, Events), ThenLogs(scan, status)))
    else s.(tasks := s.tasks + [Posting(StatusMsg(scan, status))])
  }

  /** The start_scan command. valid: the scan id is acceptable to ScanCgroup. */
  function StartScan(s: State, scan: string, valid: bool): State {
    if scan in s.drones || Available(s) <= 0 || !valid then HandleStatus(s, scan, Failed)
    else
      s.(drones := s.drones[scan := |s.pool|],
         pool := s.pool + [DroneRec(scan, NotStarted, 0, false, Pipe([], []), Pipe([], []))])
  }

  function Attempt(s: State, d: nat, status: ScanStatus): State
    requires d < |s.pool|
  {
    if !Advances(s.pool[d].status, status) then s
    else HandleStatus(s.(pool := s.pool[d := s.pool[d].(status := status)]), s.pool[d].scan, status)
  }

  function AppendTo(m: map<Stream, seq<Item>>, x: Stream, items: seq<Item>): map<Stream, seq<Item>> {
    m[x := At(m, x) + items]
  }

  /** A reader takes the next line off its pipe and hands it to the queen's buffer. */
  function ReadLine(s: State, d: nat, kind: Kind): State
    requires d < |s.pool| && PipeOf(s.pool[d], kind).unread != []
  {
    var rec := s.pool[d];
    var pipe := PipeOf(rec, kind);
    var x := Stream(kind, rec.scan);
    var line := pipe.unread[..1];
    s.(pool := s.pool[d := WithPipe(rec, kind, pipe.(unread := pipe.unread[1..]))
                           .(eventsSent := rec.eventsSent + if kind.Events? then 1 else 0)],
       store := Put(s.store, x, At(s.store.buf, x) + line),
       book := s.book.(accepted := AppendTo(s.book.accepted, x, line)))
  }

  function SendReturns(s: State, i: nat): State
    requires i < |s.tasks| && !s.tasks[i].Idle?
  {
    var t := s.tasks[i];
    if t.Posting? then s.(wire := s.wire + [Critical(t.notice)], tasks := s.tasks[i := Idle])
    else
      var f := AfterSend(s.sizes, s.store, t);
      s.(wire := s.wire + [Batch(t.cur, t.batch)], store := f.store, tasks := s.tasks[i := f.task])
  }

  function SendRaises(s: State, i: nat): State
    requires i < |s.tasks| && !s.tasks[i].Idle?
  {
    var t := s.tasks[i];
    if t.Posting? then s.(tasks := s.tasks[i := Idle])
    else
      var f := AfterFailure(s.sizes, s.store, t);
      s.(store := f.store, tasks := s.tasks[i := f.task],
         book := s.book.(lost := AppendTo(s.book.lost, t.cur, At(s.store.buf, t.cur))))
  }

  function Cancel(s: State, i: nat): State
    requires i < |s.tasks| && !s.tasks[i].Idle?
  {
    var t := s.tasks[i];
    if t.Posting? then s.(tasks := s.tasks[i := Idle])
    else s.(tasks := s.tasks[i := Idle],
            book := s.book.(lost := AppendTo(s.book.lost, t.cur, t.batch + t.rest)))
  }

  // ---------- actions ----------

  datatype Action =
    | CmdStart(scan: string, valid: bool)
    | CmdSetMax(limit: int)
    | SyncState
    | Write(d: nat, kind: Kind, text: string)
    | Close(d: nat)
    | Read(d: nat, kind: Kind)
    | Report(d: nat, status: ScanStatus)
    | BeginFlush(kind: Kind)
    | SendOk(i: nat)
    | SendFail(i: nat)
    | CancelTask(i: nat)

  predicate Enabled(s: State, a: Action) {
    match a
    case CmdStart(_, _) => true
    case CmdSetMax(_) => forall k | k in s.drones :: s.drones[k] < |s.pool|
    case SyncState => forall k | k in s.drones :: s.drones[k] < |s.pool|
    case Write(d, _, _) => d < |s.pool| && !s.pool[d].closed
    case Close(d) => d < |s.pool|
    case Read(d, kind) => d < |s.pool| && PipeOf(s.pool[d], kind).unread != []
    case Report(d, _) => d < |s.pool|
    case BeginFlush(_) => true
    case SendOk(i) => i < |s.tasks| && !s.tasks[i].Idle?
    case SendFail(i) => i < |s.tasks| && !s.tasks[i].Idle?
    case CancelTask(i) => i < |s.tasks| && !s.tasks[i].Idle?
  }

  function Apply(s: State, a: Action): State
    requires Enabled(s, a)
  {
    match a
    case CmdStart(scan, valid) => StartScan(s, scan, valid)
    case CmdSetMax(limit) =>
      var limited := s.(maxScans := limit);
      limited.(tasks := s.tasks + [Posting(Snapshot(limited))])
    case SyncState => s.(tasks := s.tasks + [Posting(Snapshot(s))])
    case Write(d, kind, text) =>
      var pipe := PipeOf(s.pool[d], kind);
      var line := Item(d, |pipe.written|, text);
      s.(pool := s.pool[d := WithPipe(s.pool[d], kind, Pipe(pipe.written + [line], pipe.unread + [line]))])
    case Close(d) => s.(pool := s.pool[d := s.pool[d].(closed := true)])
    case Read(d, kind) => ReadLine(s, d, kind)
    case Report(d, status) => Attempt(s, d, status)
    case BeginFlush(kind) => Spawn(s, Resume(s.sizes, s.store, OfKind(s.store.order, kind), Nothing))
    case SendOk(i) => SendReturns(s, i)
    case SendFail(i) => SendRaises(s, i)
    case CancelTask(i) => Cancel(s, i)
  }

  function Step(s: State, a: Action): State {
    if Enabled(s, a) then Apply(s, a) else s
  }

  function Exec(s: State, acts: seq<Action>): State {
    if acts == [] then s else Step(Exec(s, acts[..|acts| - 1]), acts[|acts| - 1])
  }

  lemma ExecAppend(s: State, acts: seq<Action>, a: Action)
    ensures Exec(s, acts + [a]) == Step(Exec(s, acts), a)
  {
    assert (acts + [a])[..|acts|] == acts;
  }

  lemma {:induction false} ExecConcat(s: State, first: seq<Action>, rest: seq<Action>)
    ensures Exec(s, first + rest) == Exec(Exec(s, first), rest)
  {
    if rest == [] {
      assert first + rest == first;
    } else {
      var init, last := rest[..|rest| - 1], rest[|rest| - 1];
      assert first + rest == (first + init) + [last];
      ExecConcat(s, first, init);
      ExecAppend(s, first + init, last);
    }
  }

  /** The first action of a run, then the rest. */
  lemma ExecFront(s: State, a: Action, rest: seq<Action>)
    ensures Exec(s, [a] + rest) == Exec(Step(s, a), rest)
  {
    ExecConcat(s, [a], rest);
    assert [] + [a] == [a];
    ExecAppend(s, [], a);
  }

  lemma ExecFour(s: State, a: Action, b: Action, c: Action, d: Action)
    ensures Exec(s, [a, b, c]) == Step(Step(Step(s, a), b), c)
    ensures Exec(s, [a, b, c, d]) == Step(Step(Step(Step(s, a), b), c), d)
  {
    assert [a] == [] + [a] && [a, b] == [a] + [b] && [a, b, c] == [a, b] + [c] && [a, b, c, d] == [a, b, c] + [d];
    ExecAppend(s, [], a);
    ExecAppend(s, [a], b);
    ExecAppend(s, [a, b], c);
    ExecAppend(s, [a, b, c], d);
  }

  // ---------- what is where ----------

  /** What the wire carries of a stream, in order. */
  function Delivered(wire: seq<Msg>, x: Stream): seq<Item> {
    if wire == [] then []
    else
      var last := wire[|wire| - 1];
      Delivered(wire[..|wire| - 1], x) + if last.Batch? && last.stream == x then last.items else []
  }

  lemma DeliveredAppend(wire: seq<Msg>, m: Msg, x: Stream)
    ensures Delivered(wire + [m], x) ==
            if m.Batch? && m.stream == x then Delivered(wire, x) + m.items else Delivered(wire, x)
  {
    assert (wire + [m])[..|wire|] == wire;
    assert Delivered(wire, x) + [] == Delivered(wire, x);
  }

  function HeldBy(t: Task, x: Stream): seq<Item> {
    if t.Sending? && t.cur == x then t.batch + t.rest else []
  }

  /** What the suspended flushers hold of a stream. */
  function Held(tasks: seq<Task>, x: Stream): seq<Item> {
    if tasks == [] then [] else Held(tasks[..|tasks| - 1], x) + HeldBy(tasks[|tasks| - 1], x)
  }

  lemma HeldAppend(tasks: seq<Task>, t: Task, x: Stream)
    ensures Held(tasks + [t], x) == Held(tasks, x) + HeldBy(t, x)
  {
    assert (tasks + [t])[..|tasks|] == tasks;
  }

  lemma Associate(a: seq<Item>, b: seq<Item>, c: seq<Item>)
    ensures (a + b) + c == a + (b + c)
  {
  }

  lemma {:induction false} HeldConcat(left: seq<Task>, right: seq<Task>, x: Stream)
    ensures Held(left + right, x) == Held(left, x) + Held(right, x)
  {
    if right == [] {
      assert left + right == left;
    } else {
      var init, last := right[..|right| - 1], right[|right| - 1];
      assert left + right == (left + init) + [last];
      assert right == init + [last];
      HeldAppend(left + init, last, x);
      HeldConcat(left, init, x);
      HeldAppend(init, last, x);
      Associate(Held(left, x), Held(init, x), HeldBy(last, x));
    }
  }

  /** Task i's share, and the shares of the tasks before and after it. */
  lemma HeldSplit(tasks: seq<Task>, i: nat, t: Task, x: Stream)
    requires i < |tasks|
    ensures Held(tasks[i := t], x) == Held(tasks[..i], x) + HeldBy(t, x) + Held(tasks[i + 1..], x)
  {
    assert tasks[i := t] == (tasks[..i] + [t]) + tasks[i + 1..];
    HeldConcat(tasks[..i] + [t], tasks[i + 1..], x);
    HeldAppend(tasks[..i], t, x);
  }

  function Count(items: seq<Item>, v: Item): nat {
    if items == [] then 0
    else Count(items[..|items| - 1], v) + if items[|items| - 1] == v then 1 else 0
  }

  lemma {:induction false} CountConcat(left: seq<Item>, right: seq<Item>, v: Item)
    ensures Count(left + right, v) == Count(left, v) + Count(right, v)
  {
    if right == [] {
      assert left + right == left;
    } else {
      CountConcat(left, right[..|right| - 1], v);
      assert (left + right)[..|left + right| - 1] == left + right[..|right| - 1];
    }
  }

  lemma {:induction false} CountIsMultiplicity(items: seq<Item>, v: Item)
    ensures multiset(items)[v] == Count(items, v)
  {
    if items != [] {
      CountIsMultiplicity(items[..|items| - 1], v);
      assert items == items[..|items| - 1] + [items[|items| - 1]];
    }
  }

  lemma HeldUpdate(tasks: seq<Task>, i: nat, t: Task, x: Stream, v: Item)
    requires i < |tasks|
    ensures Count(Held(tasks[i := t], x), v) + Count(HeldBy(tasks[i], x), v)
         == Count(Held(tasks, x), v) + Count(HeldBy(t, x), v)
  {
    HeldSplit(tasks, i, t, x);
    HeldSplit(tasks, i, tasks[i], x);
    assert tasks[i := tasks[i]] == tasks;
    CountAround(Held(tasks[..i], x), HeldBy(t, x), Held(tasks[i + 1..], x), v);
    CountAround(Held(tasks[..i], x), HeldBy(tasks[i], x), Held(tasks[i + 1..], x), v);
  }

  lemma CountAround(left: seq<Item>, mid: seq<Item>, right: seq<Item>, v: Item)
    ensures Count(left + mid + right, v) == Count(left, v) + Count(mid, v) + Count(right, v)
  {
    CountConcat(left + mid, right, v);
    CountConcat(left, mid, v);
  }

  // ---------- the buffers' own invariant ----------

  ghost predicate NoDup(order: seq<Stream>) {
    forall i, j | 0 <= i < j < |order| :: order[i] != order[j]
  }

  ghost predicate StoreOk(store: Store) {
    && NoDup(store.order)
    && (forall x :: x in store.order <==> x in store.buf)
    && (forall x | x in store.buf :: store.buf[x] != [])
  }

  lemma NoDupSplit(order: seq<Stream>)
    requires NoDup(order) && order != []
    ensures NoDup(order[1..]) && order[0] !in order[1..]
  {
    assert forall i | 0 <= i < |order[1..]| :: order[1..][i] == order[i + 1];
  }

  lemma {:induction false} WithoutProps(order: seq<Stream>, x: Stream)
    ensures forall y :: y in Without(order, x) <==> y in order && y != x
    ensures NoDup(order) ==> NoDup(Without(order, x))
  {
    if order != [] {
      WithoutProps(order[1..], x);
      assert order == [order[0]] + order[1..];
      if NoDup(order) {
        NoDupSplit(order);
      }
    }
  }

  lemma {:induction false} OfKindProps(order: seq<Stream>, kind: Kind)
    ensures forall y :: y in OfKind(order, kind) <==> y in order && y.kind == kind
    ensures NoDup(order) ==> NoDup(OfKind(order, kind))
  {
    if order != [] {
      OfKindProps(order[1..], kind);
      assert order == [order[0]] + order[1..];
      if NoDup(order) {
        NoDupSplit(order);
      }
    }
  }

  lemma PopOk(store: Store, x: Stream)
    requires StoreOk(store)
    ensures StoreOk(Pop(store, x))
  {
    WithoutProps(store.order, x);
  }

  lemma PutOk(store: Store, x: Stream, items: seq<Item>)
    requires StoreOk(store) && items != []
    ensures StoreOk(Put(store, x, items))
  {
  }
}
