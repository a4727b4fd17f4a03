/** The queen object: her dictionaries updated in place, her flush loops, and her handlers, each run
    to its end without interference. */
module QueenObject {
  import opened Statuses
  import opened QueenMachine
  import opened QueenFlush
  import QueenRegistry

  datatype Outcome = Done | ConnectionError

  class Queen {
    const sizes: Sizes                  // event_batch_size, log_batch_size
    const fate: nat -> bool             // which sends of the channel succeed
    var store: Store                    // _event_buffer and _log_buffer
    var drones: map<string, nat>        // _drones
    var pool: seq<DroneRec>             // the Drone objects
    var maxScans: int                   // _max_concurrent_scans
    ghost var book: Book
    ghost var wire: seq<Msg>
    var attempts: nat

    /** The step system's state of a queen with no task suspended in send. */
    ghost function View(): State
      reads this
    {
      State(sizes, store, [], wire, book, drones, pool, maxScans)
    }

    ghost function Link(): Net
      reads this
    {
      Net(wire, attempts)
    }

    ghost predicate Valid()
      reads this
    {
      ValidSizes(sizes) && StoreOk(store) && QueenRegistry.Agrees(drones, pool)
    }

    constructor (sizes: Sizes, maxScans: int, fate: nat -> bool)
      requires ValidSizes(sizes)
      ensures Valid() && View() == Init(sizes, maxScans) && attempts == 0
    {
      this.sizes, this.fate, this.maxScans := sizes, fate, maxScans;
      store, drones, pool := Store(map[], []), map[], [];
      book, wire, attempts := Book(map[], map[]), [], 0;
    }

    /** channel.send: deliver once and return, or raise ConnectionError and deliver nothing. */
    method Send(m: Msg) returns (r: Outcome)
      modifies this`wire, this`attempts
      ensures attempts == old(attempts) + 1
      ensures r == if fate(old(attempts)) then Done else ConnectionError
      ensures wire == if r.Done? then old(wire) + [m] else old(wire)
    {
      r := if fate(attempts) then Done else ConnectionError;
      attempts := attempts + 1;
      if r.Done? {
        wire := wire + [m];
      }
    }

    /** _handle_scan_event and _handle_scan_log_line. */
    method Accept(x: Stream, line: Item)
      modifies this`store, this`book
      ensures At(store.buf, x) == At(old(store.buf), x) + [line]
      ensures forall y | y != x :: At(store.buf, y) == At(old(store.buf), y)
      ensures store == Put(old(store), x, At(old(store.buf), x) + [line])
      ensures StoreOk(old(store)) ==> StoreOk(store)
      ensures book == old(book).(accepted := AppendTo(old(book.accepted), x, [line]))
    {
      if x !in store.buf {
        store := Put(store, x, []);
      }
      store := Put(store, x, store.buf[x] + [line]);
      if StoreOk(old(store)) {
        PutOk(old(store), x, At(old(store.buf), x) + [line]);
      }
      book := book.(accepted := AppendTo(book.accepted, x, [line]));
    }

    /** The inner loop: send the popped list in batches; a failed send assigns the rest back and ends it. */
    method FlushList(x: Stream, popped: seq<Item>)
      requires ValidSizes(sizes)
      modifies this`store, this`wire, this`attempts
      ensures var sent := SendList(fate, Size(sizes, x.kind), x, popped, old(Link()));
              && Link() == sent.net
              && store == if sent.left == [] then old(store) else Put(old(store), x, sent.left)
    {
      var items, size := popped, Size(sizes, x.kind);
      while items != []
        invariant store == old(store)
        invariant SendList(fate, size, x, items, Link()) == SendList(fate, size, x, popped, old(Link()))
        decreases |items|
      {
        var n := Cut(items, size);
        var batch, rest := items[..n], items[n..];
        assert batch + rest == items;
        var r := Send(Batch(x, batch));
        if r.ConnectionError? {
          store := Put(store, x, batch + rest);
          break;
        }
        items := rest;
      }
    }

    /** Every send from the k-th on succeeds. */
    ghost predicate Connected(k: nat) {
      forall n | k <= n :: fate(n)
    }

    /** _flush_events and _flush_logs: every list buffered at entry, in dict order.  While the channel is
        connected, everything buffered of the kind is delivered, behind what was delivered before, and
        nothing is left; the other kind is never touched. */
    method FlushBuffer(kind: Kind)
      requires ValidSizes(sizes) && StoreOk(store)
      modifies this`store, this`wire, this`attempts
      ensures Flushed(store, Link()) == FlushKind(fate, sizes, kind, old(store), old(Link()))
      ensures StoreOk(store) && attempts >= old(attempts)
      ensures forall y: Stream | y.kind != kind ::
                At(store.buf, y) == At(old(store.buf), y) && Delivered(wire, y) == Delivered(old(wire), y)
      ensures Connected(old(attempts)) ==> forall y: Stream | y.kind == kind ::
                At(store.buf, y) == [] && Delivered(wire, y) == Delivered(old(wire), y) + At(old(store.buf), y)
    {
      var keys := OfKind(store.order, kind);
      var k := 0;
      while k < |keys|
        invariant k <= |keys|
        invariant FlushKeys(fate, sizes, keys[k..], store, Link())
               == FlushKind(fate, sizes, kind, old(store), old(Link()))
      {
        var x := keys[k];
        var items := At(store.buf, x);
        store := Pop(store, x);
        FlushList(x, items);
        assert keys[k..][1..] == keys[k + 1..];
        k := k + 1;
      }
      forall y: Stream
        ensures var f, net := FlushKind(fate, sizes, kind, old(store), old(Link())), old(Link());
                && StoreOk(f.store) && f.net.attempts >= net.attempts
                && (y.kind != kind ==> && At(f.store.buf, y) == At(old(store.buf), y)
                                       && Delivered(f.net.wire, y) == Delivered(net.wire, y))
                && (y.kind == kind && Connected(net.attempts) ==>
                      && At(f.store.buf, y) == []
                      && Delivered(f.net.wire, y) == Delivered(net.wire, y) + At(old(store.buf), y))
      {
        FlushKindDelivers(fate, sizes, kind, old(store), old(Link()), y);
      }
      FlushKindDelivers(fate, sizes, kind, old(store), old(Link()), Stream(kind, ""));
    }

    /** The two flushes of a terminal status report. */
    method FlushBoth()
      requires ValidSizes(sizes) && StoreOk(store)
      modifies this`store, this`wire, this`attempts
      ensures var events := FlushKind(fate, sizes, Events, old(store), old(Link()));
              Flushed(store, Link()) == FlushKind(fate, sizes, Logs, events.store, events.net)
      ensures StoreOk(store) && attempts >= old(attempts)
      ensures Connected(old(attempts)) ==> forall y ::
                At(store.buf, y) == [] && Delivered(wire, y) == Delivered(old(wire), y) + At(old(store.buf), y)
    {
      FlushBuffer(Events);
      FlushBuffer(Logs);
    }

    /** _handle_scan_status_change: untrack a terminal scan before anything can fail, flush what is
        buffered, then send the status.  A raising send changes nothing of that.  While the channel is
        connected, a terminal status is preceded by everything that was buffered, of every scan. */
    method HandleStatusChange(scan: string, status: ScanStatus) returns (r: Outcome)
      requires ValidSizes(sizes) && StoreOk(store)
      requires QueenRegistry.Agrees(if IsTerminal(status) then drones - {scan} else drones, pool)
      modifies this`drones, this`store, this`wire, this`attempts
      ensures Valid()
      ensures drones == if IsTerminal(status) then old(drones) - {scan} else old(drones)
      ensures var events := if IsTerminal(status) then FlushKind(fate, sizes, Events, old(store), old(Link()))
                            else Flushed(old(store), old(Link()));
              var logs := if IsTerminal(status) then FlushKind(fate, sizes, Logs, events.store, events.net) else events;
              && store == logs.store
              && attempts == logs.net.attempts + 1
              && r == (if fate(logs.net.attempts) then Done else ConnectionError)
              && wire == if r.Done? then logs.net.wire + [Critical(StatusMsg(scan, status))] else logs.net.wire
      ensures attempts > old(attempts) && r == if fate(attempts - 1) then Done else ConnectionError
      ensures r.Done? ==> wire != [] && wire[|wire| - 1] == Critical(StatusMsg(scan, status))
      ensures !IsTerminal(status) ==> store == old(store)
      ensures !IsTerminal(status) ==>
                wire == if r.Done? then old(wire) + [Critical(StatusMsg(scan, status))] else old(wire)
      ensures Connected(old(attempts)) && IsTerminal(status) ==> r.Done? && forall y ::
                At(store.buf, y) == [] && Delivered(wire, y) == Delivered(old(wire), y) + At(old(store.buf), y)
    {
      if IsTerminal(status) && scan in drones {
        drones := drones - {scan};
      }
      if IsTerminal(status) {
        FlushBoth();
      }
      ghost var flushed := wire;
      r := Send(Critical(StatusMsg(scan, status)));
      forall y
        ensures Delivered(wire, y) == Delivered(flushed, y)
      {
        DeliveredAppend(flushed, Critical(StatusMsg(scan, status)), y);
      }
      assert old(drones) - {scan} == if scan in old(drones) then old(drones) - {scan} else old(drones);
    }

    /** The start_scan command: admit a new drone, or report FAILED for the scan id; the report, if its send
        succeeds, is the last on the wire. */
    method HandleStart(scan: string, valid: bool) returns (admitted: bool)
      requires Valid()
      modifies this
      ensures Valid()
      ensures admitted <==> scan !in old(drones) && |old(drones)| < maxScans && valid
      ensures drones == StartScan(old(View()), scan, valid).drones && pool == StartScan(old(View()), scan, valid).pool
      ensures admitted ==> View() == StartScan(old(View()), scan, valid) && attempts == old(attempts)
      ensures maxScans == old(maxScans) && book == old(book)
      ensures !admitted ==> attempts > old(attempts)
      ensures !admitted && fate(attempts - 1) ==> wire != [] && wire[|wire| - 1] == Critical(StatusMsg(scan, Failed))
    {
      if scan in drones || maxScans - |drones| <= 0 || !valid {
        admitted := false;
        QueenRegistry.HandleDrones(View(), scan, Failed);
        QueenRegistry.FewerAgree(drones, pool, scan);
        var r := HandleStatusChange(scan, Failed);
      } else {
        admitted := true;
        var rec := DroneRec(scan, NotStarted, 0, false, Pipe([], []), Pipe([], []));
        QueenRegistry.MoreAgree(drones, pool, rec);
        drones := drones[scan := |pool|];
        pool := pool + [rec];
      }
    }

    /** set_max_scans, then the state_sync that tells the hive. */
    method SetMaxScans(limit: int) returns (r: Outcome)
      requires Valid()
      modifies this`maxScans, this`wire, this`attempts
      ensures Valid() && maxScans == limit && attempts == old(attempts) + 1
      ensures r.ConnectionError? ==> wire == old(wire)
      ensures r.Done? ==>
        exists n :: wire == old(wire) + [Critical(n)] && n.StateSync? && n.maxScans == limit
                    && n.available == limit - |drones| && n.active.Keys == drones.Keys
                    && forall k | k in drones :: n.active[k] == pool[drones[k]].status
    {
      maxScans := limit;
      ghost var n := Snapshot(View());
      assert n.active.Keys == drones.Keys;
      r := Send(Critical(StateSync(maxScans, maxScans - |drones|,
                                   map k | k in drones :: pool[drones[k]].status)));
    }
  }
}
