/** One flush run to its end without interference: the meaning of the nested loops of
    _flush_events and _flush_logs, and its agreement with the step system, which is the same
    loops cut at their awaits. */
module QueenFlush {
  import opened QueenMachine

  /** The channel: what is on the wire, and how many sends were attempted. fate(k) tells whether
      the k-th send delivers, or raises ConnectionError and delivers nothing. */
  datatype Net = Net(wire: seq<Msg>, attempts: nat)

  datatype Sent = Sent(net: Net, left: seq<Item>)

  /** The while loop over one scan's list: what it sends and what it leaves. */
  function SendList(fate: nat -> bool, size: nat, x: Stream, items: seq<Item>, net: Net): Sent
    requires size >= 1
    decreases |items|
  {
    if items == [] then Sent(net, [])
    else if fate(net.attempts) then
      var n := Cut(items, size);
      SendList(fate, size, x, items[n..], Net(net.wire + [Batch(x, items[..n])], net.attempts + 1))
    else Sent(Net(net.wire, net.attempts + 1), items)
  }

  datatype Flushed = Flushed(store: Store, net: Net)

  /** The for loop over the keys. */
  function FlushKeys(fate: nat -> bool, sizes: Sizes, keys: seq<Stream>, store: Store, net: Net): Flushed
    requires ValidSizes(sizes)
    decreases |keys|
  {
    if keys == [] then Flushed(store, net)
    else
      var x := keys[0];
      var sent := SendList(fate, Size(sizes, x.kind), x, At(store.buf, x), net);
      FlushKeys(fate, sizes, keys[1..], AfterKey(store, x, sent.left), sent.net)
  }

  function FlushKind(fate: nat -> bool, sizes: Sizes, kind: Kind, store: Store, net: Net): Flushed
    requires ValidSizes(sizes)
  {
    FlushKeys(fate, sizes, OfKind(store.order, kind), store, net)
  }

  // ---------- batching ----------

  function Chunks(x: Stream, items: seq<Item>, size: nat): seq<Msg>
    requires size >= 1
    decreases |items|
  {
    if items == [] then []
    else [Batch(x, items[..Cut(items, size)])] + Chunks(x, items[Cut(items, size)..], size)
  }

  /** The least number of batches of the given size that n lines need. */
  ghost predicate IsCeiling(count: nat, n: nat, size: nat) {
    count * size >= n && (count > 0 ==> (count - 1) * size < n)
  }

  /** c is a proper batching of items: non-empty batches of at most the batch size, all but the last
      full, as many as the division rounded up says, and together the items in order. */
  ghost predicate Batches(c: seq<Msg>, x: Stream, items: seq<Item>, size: nat) {
    && (forall k | 0 <= k < |c| :: c[k].Batch? && c[k].stream == x && 0 < |c[k].items| <= size)
    && (forall k | 0 <= k < |c| - 1 :: |c[k].items| == size)
    && IsCeiling(|c|, |items|, size)
    && Delivered(c, x) == items
  }

  lemma {:induction false} ChunksShape(x: Stream, items: seq<Item>, size: nat)
    requires size >= 1
    ensures Batches(Chunks(x, items, size), x, items, size)
    decreases |items|
  {
    if items != [] {
      var n := Cut(items, size);
      ChunksShape(x, items[n..], size);
      BatchesFront(x, items[..n], items[n..], Chunks(x, items[n..], size), size);
      assert items[..n] + items[n..] == items;
    }
  }

  lemma BatchesFront(x: Stream, first: seq<Item>, rest: seq<Item>, tail: seq<Msg>, size: nat)
    requires 0 < |first| <= size && (if rest == [] then tail == [] else |first| == size)
    requires Batches(tail, x, rest, size)
    ensures Batches([Batch(x, first)] + tail, x, first + rest, size)
  {
    var c := [Batch(x, first)] + tail;
    DeliveredFront(Batch(x, first), tail, x);
    CeilingStep(|tail|, |first + rest|, |first|, size);
    assert forall k | 1 <= k < |c| :: c[k] == tail[k - 1];
  }

  lemma CeilingStep(count: nat, total: nat, n: nat, size: nat)
    requires size >= 1 && total > 0 && n == (if size < total then size else total)
    requires IsCeiling(count, total - n, size)
    ensures IsCeiling(count + 1, total, size)
  {
    assert (count + 1) * size == count * size + size;
    if count == 0 {
      assert 0 * size == 0;
    } else {
      assert (count - 1) * size == count * size - size;
    }
  }

  lemma {:induction false} DeliveredFront(m: Msg, wire: seq<Msg>, x: Stream)
    requires m.Batch? && m.stream == x
    ensures Delivered([m] + wire, x) == m.items + Delivered(wire, x)
  {
    if wire == [] {
      assert [m] + wire == [] + [m];
      DeliveredAppend([], m, x);
    } else {
      var init, last := wire[..|wire| - 1], wire[|wire| - 1];
      assert [m] + wire == ([m] + init) + [last];
      assert wire == init + [last];
      DeliveredFront(m, init, x);
      DeliveredAppend([m] + init, last, x);
      DeliveredAppend(init, last, x);
      var more := if last.Batch? && last.stream == x then last.items else [];
      Associate(m.items, Delivered(init, x), more);
    }
  }

  /** What SendList made of items: sent is what it put on the wire, in full batches if it stopped early. */
  ghost predicate Batched(fate: nat -> bool, size: nat, x: Stream, items: seq<Item>, net: Net, r: Sent, sent: seq<Item>)
    requires size >= 1
  {
    var c := Chunks(x, sent, size);
    && items == sent + r.left
    && r.net.wire == net.wire + c
    && (forall k | net.attempts <= k < net.attempts + |c| :: fate(k))
    && (if r.left == [] then r.net.attempts == net.attempts + |c|
        else r.net.attempts == net.attempts + |c| + 1 && !fate(r.net.attempts - 1) && |sent| == |c| * size)
  }

  lemma BatchedExtends(fate: nat -> bool, size: nat, x: Stream, items: seq<Item>, net: Net, r: Sent, rest: seq<Item>)
      returns (sent: seq<Item>)
    requires size >= 1 && items != [] && fate(net.attempts)
    requires var n := Cut(items, size);
             Batched(fate, size, x, items[n..], Net(net.wire + [Batch(x, items[..n])], net.attempts + 1), r, rest)
    ensures Batched(fate, size, x, items, net, r, sent)
  {
    var n := Cut(items, size);
    sent := items[..n] + rest;
    assert items[..n] + items[n..] == items;
    FrontChunk(x, items, rest, size);
    var head := [Batch(x, items[..n])];
    assert net.wire + head + Chunks(x, rest, size) == net.wire + (head + Chunks(x, rest, size));
    assert (|Chunks(x, rest, size)| + 1) * size == |Chunks(x, rest, size)| * size + size;
  }

  /** The loop puts batches on the wire while its sends succeed, and leaves exactly the unsent suffix;
      when one fails, a whole number of full batches is out. */
  lemma {:induction false} SendListBatches(fate: nat -> bool, size: nat, x: Stream, items: seq<Item>, net: Net)
      returns (sent: seq<Item>)
    requires size >= 1
    ensures Batched(fate, size, x, items, net, SendList(fate, size, x, items, net), sent)
    decreases |items|
  {
    if items == [] || !fate(net.attempts) {
      sent := [];
      assert net.wire + [] == net.wire && [] + items == items;
      assert 0 * size == 0;
    } else {
      var n := Cut(items, size);
      var next := Net(net.wire + [Batch(x, items[..n])], net.attempts + 1);
      var rest := SendListBatches(fate, size, x, items[n..], next);
      sent := BatchedExtends(fate, size, x, items, net, SendList(fate, size, x, items[n..], next), rest);
    }
  }

  /** Chunks of a list that starts with its first full (or only) batch. */
  lemma FrontChunk(x: Stream, items: seq<Item>, rest: seq<Item>, size: nat)
    requires size >= 1 && items != [] && rest <= items[Cut(items, size)..]
    ensures Chunks(x, items[..Cut(items, size)] + rest, size) ==
            [Batch(x, items[..Cut(items, size)])] + Chunks(x, rest, size)
  {
    var n := Cut(items, size);
    var sent := items[..n] + rest;
    assert Cut(sent, size) == n;
    assert sent[..n] == items[..n] && sent[n..] == rest;
  }

  /** n sends of empty batches. */
  function Empties(x: Stream, n: nat): seq<Msg> {
    if n == 0 then [] else Empties(x, n - 1) + [Batch(x, [])]
  }

  function Sends(i: nat, n: nat): seq<Action> {
    if n == 0 then [] else Sends(i, n - 1) + [SendOk(i)]
  }

  /** Why the batch size must be positive: with 0, which the configuration does not exclude, a flusher
      with lines to send is, after any number of successful sends, exactly where it was, and all it has
      put on the wire is empty batches. */
  lemma {:induction false} ZeroBatchSizeNeverEnds(s: State, i: nat, n: nat)
    requires i < |s.tasks| && s.tasks[i].Sending? && Size(s.sizes, s.tasks[i].cur.kind) == 0
    requires s.tasks[i].batch == [] && s.tasks[i].rest != []
    ensures Exec(s, Sends(i, n)) == s.(wire := s.wire + Empties(s.tasks[i].cur, n))
  {
    var t := s.tasks[i];
    if n == 0 {
      assert s.wire + [] == s.wire;
    } else {
      ZeroBatchSizeNeverEnds(s, i, n - 1);
      ExecAppend(s, Sends(i, n - 1), SendOk(i));
      assert t.rest[..0] == [] && t.rest[0..] == t.rest;
      assert s.tasks[i := t] == s.tasks;
      assert s.wire + Empties(t.cur, n) == (s.wire + Empties(t.cur, n - 1)) + [Batch(t.cur, [])];
    }
  }

  // ---------- conservation, order, retry ----------

  lemma Rejoin(d: seq<Item>, items: seq<Item>, n: nat)
    requires n <= |items|
    ensures d + items[..n] + items[n..] == d + items
  {
    assert items[..n] + items[n..] == items;
  }

  lemma {:induction false} SendListConserves(fate: nat -> bool, size: nat, x: Stream, items: seq<Item>,
        net: Net, y: Stream)
    requires size >= 1
    ensures var r := SendList(fate, size, x, items, net);
            Delivered(r.net.wire, y) + (if y == x then r.left else [])
            == Delivered(net.wire, y) + (if y == x then items else [])
    decreases |items|
  {
    if items != [] && fate(net.attempts) {
      var n := Cut(items, size);
      SendListConserves(fate, size, x, items[n..], Net(net.wire + [Batch(x, items[..n])], net.attempts + 1), y);
      DeliveredAppend(net.wire, Batch(x, items[..n]), y);
      Rejoin(Delivered(net.wire, y), items, n);
    }
  }

  /** One round of the for loop. */
  function AfterKey(store: Store, x: Stream, left: seq<Item>): Store {
    if left == [] then Pop(store, x) else Put(Pop(store, x), x, left)
  }

  lemma AfterKeyAt(store: Store, x: Stream, left: seq<Item>, y: Stream)
    ensures At(AfterKey(store, x, left).buf, y) == if y == x then left else At(store.buf, y)
  {
  }

  /** Whatever the failures, a flush of any keys keeps delivered ++ buffered of every stream, in order. */
  lemma {:induction false} FlushConserves(fate: nat -> bool, sizes: Sizes, keys: seq<Stream>, store: Store,
        net: Net, y: Stream)
    requires ValidSizes(sizes)
    ensures var f := FlushKeys(fate, sizes, keys, store, net);
            Delivered(f.net.wire, y) + At(f.store.buf, y) == Delivered(net.wire, y) + At(store.buf, y)
    decreases |keys|
  {
    if keys != [] {
      var x := keys[0];
      var r := SendList(fate, Size(sizes, x.kind), x, At(store.buf, x), net);
      SendListConserves(fate, Size(sizes, x.kind), x, At(store.buf, x), net, y);
      AfterKeyAt(store, x, r.left, y);
      FlushConserves(fate, sizes, keys[1..], AfterKey(store, x, r.left), r.net, y);
      assert Delivered(r.net.wire, y) + [] == Delivered(r.net.wire, y);
      assert Delivered(net.wire, y) + [] == Delivered(net.wire, y);
    }
  }

  lemma {:induction false} SendListSends(fate: nat -> bool, size: nat, x: Stream, items: seq<Item>, net: Net)
    requires size >= 1
    requires forall k | net.attempts <= k :: fate(k)
    ensures var r := SendList(fate, size, x, items, net); r.left == [] && r.net.attempts >= net.attempts
    decreases |items|
  {
    if items != [] {
      var n := Cut(items, size);
      SendListSends(fate, size, x, items[n..], Net(net.wire + [Batch(x, items[..n])], net.attempts + 1));
    }
  }

  /** Without failures a flush empties every key it visits. */
  lemma {:induction false} FlushEmpties(fate: nat -> bool, sizes: Sizes, keys: seq<Stream>, store: Store,
        net: Net, y: Stream)
    requires ValidSizes(sizes)
    requires forall k | net.attempts <= k :: fate(k)
    requires y in keys || At(store.buf, y) == []
    ensures At(FlushKeys(fate, sizes, keys, store, net).store.buf, y) == []
    decreases |keys|
  {
    if keys != [] {
      var x := keys[0];
      var r := SendList(fate, Size(sizes, x.kind), x, At(store.buf, x), net);
      SendListSends(fate, Size(sizes, x.kind), x, At(store.buf, x), net);
      assert keys == [x] + keys[1..];
      AfterKeyAt(store, x, r.left, y);
      FlushEmpties(fate, sizes, keys[1..], AfterKey(store, x, r.left), r.net, y);
    }
  }

  // ---------- one flush of a kind ----------

  lemma {:induction false} SendListTries(fate: nat -> bool, size: nat, x: Stream, items: seq<Item>, net: Net)
    requires size >= 1
    ensures var r := SendList(fate, size, x, items, net);
            && r.net.attempts >= net.attempts
            && (items != [] ==> r.net.attempts > net.attempts)
            && (items != [] && !fate(net.attempts) ==> r.left == items && r.net.wire == net.wire)
            && (items != [] && fate(net.attempts) ==>
                  Delivered(net.wire, x) + items[..Cut(items, size)] <= Delivered(r.net.wire, x))
    decreases |items|
  {
    if items != [] && fate(net.attempts) {
      var n := Cut(items, size);
      var next := Net(net.wire + [Batch(x, items[..n])], net.attempts + 1);
      DeliveredAppend(net.wire, Batch(x, items[..n]), x);
      SendListTries(fate, size, x, items[n..], next);
      SendListGrows(fate, size, x, items[n..], next);
    }
  }

  lemma {:induction false} SendListGrows(fate: nat -> bool, size: nat, x: Stream, items: seq<Item>, net: Net)
    requires size >= 1
    ensures Delivered(net.wire, x) <= Delivered(SendList(fate, size, x, items, net).net.wire, x)
    decreases |items|
  {
    if items != [] && fate(net.attempts) {
      var n := Cut(items, size);
      DeliveredAppend(net.wire, Batch(x, items[..n]), x);
      SendListGrows(fate, size, x, items[n..], Net(net.wire + [Batch(x, items[..n])], net.attempts + 1));
    }
  }

  /** A flush leaves the streams alone that it does not visit. */
  lemma {:induction false} FlushOthers(fate: nat -> bool, sizes: Sizes, keys: seq<Stream>, store: Store,
        net: Net, y: Stream)
    requires ValidSizes(sizes) && y !in keys
    ensures var f := FlushKeys(fate, sizes, keys, store, net);
            At(f.store.buf, y) == At(store.buf, y) && Delivered(f.net.wire, y) == Delivered(net.wire, y)
    ensures FlushKeys(fate, sizes, keys, store, net).net.attempts >= net.attempts
    decreases |keys|
  {
    if keys != [] {
      var x := keys[0];
      var r := SendList(fate, Size(sizes, x.kind), x, At(store.buf, x), net);
      assert x in keys && forall k | k in keys[1..] :: k in keys;
      SendListConserves(fate, Size(sizes, x.kind), x, At(store.buf, x), net, y);
      SendListTries(fate, Size(sizes, x.kind), x, At(store.buf, x), net);
      AfterKeyAt(store, x, r.left, y);
      FlushOthers(fate, sizes, keys[1..], AfterKey(store, x, r.left), r.net, y);
      assert Delivered(r.net.wire, y) + [] == Delivered(r.net.wire, y);
      assert Delivered(net.wire, y) + [] == Delivered(net.wire, y);
    }
  }

  lemma {:induction false} FlushOk(fate: nat -> bool, sizes: Sizes, keys: seq<Stream>, store: Store, net: Net)
    requires ValidSizes(sizes) && StoreOk(store)
    ensures StoreOk(FlushKeys(fate, sizes, keys, store, net).store)
    decreases |keys|
  {
    if keys != [] {
      var x := keys[0];
      var r := SendList(fate, Size(sizes, x.kind), x, At(store.buf, x), net);
      PopOk(store, x);
      if r.left != [] {
        PutOk(Pop(store, x), x, r.left);
      }
      FlushOk(fate, sizes, keys[1..], AfterKey(store, x, r.left), r.net);
    }
  }

  /** If every send succeeds, a flush of a kind delivers everything that was buffered of it, behind what
      was delivered before, and leaves nothing; streams of the other kind it never touches. */
  lemma FlushKindDelivers(fate: nat -> bool, sizes: Sizes, kind: Kind, store: Store, net: Net, y: Stream)
    requires ValidSizes(sizes) && StoreOk(store)
    ensures var f := FlushKind(fate, sizes, kind, store, net);
            && StoreOk(f.store) && f.net.attempts >= net.attempts
            && (y.kind != kind ==>
                  At(f.store.buf, y) == At(store.buf, y) && Delivered(f.net.wire, y) == Delivered(net.wire, y))
            && (y.kind == kind && (forall k | net.attempts <= k :: fate(k)) ==>
                  && At(f.store.buf, y) == []
                  && Delivered(f.net.wire, y) == Delivered(net.wire, y) + At(store.buf, y))
  {
    var keys := OfKind(store.order, kind);
    OfKindProps(store.order, kind);
    FlushOk(fate, sizes, keys, store, net);
    FlushOthers(fate, sizes, keys, store, net, Stream(if kind.Events? then Logs else Events, ""));
    if y.kind != kind {
      FlushOthers(fate, sizes, keys, store, net, y);
    } else if forall k | net.attempts <= k :: fate(k) {
      FlushEmpties(fate, sizes, keys, store, net, y);
      FlushConserves(fate, sizes, keys, store, net, y);
      var done := FlushKeys(fate, sizes, keys, store, net).net.wire;
      assert Delivered(done, y) + [] == Delivered(done, y);
    }
  }

  /** What the k-th send of a flush did for stream y, buffered with these lines: it was the first of y's
      batches, or, failing, it put them all back. */
  ghost predicate Offered(fate: nat -> bool, sizes: Sizes, y: Stream, items: seq<Item>, net: Net, f: Flushed, k: nat) {
    && net.attempts <= k < f.net.attempts
    && if fate(k) then Delivered(net.wire, y) + items[..Cut(items, Size(sizes, y.kind))] <= Delivered(f.net.wire, y)
       else At(f.store.buf, y) == items && Delivered(f.net.wire, y) == Delivered(net.wire, y)
  }

  /** Each stream has a send of its own. */
  ghost predicate EachOffered(fate: nat -> bool, sizes: Sizes, keys: seq<Stream>, store: Store, net: Net, f: Flushed,
                              turns: map<Stream, nat>) {
    && (forall y | y in keys && At(store.buf, y) != [] ::
          y in turns && Offered(fate, sizes, y, At(store.buf, y), net, f, turns[y]))
    && (forall y, z | y in turns && z in turns && y != z :: turns[y] != turns[z])
    && (forall y | y in turns :: y in keys && turns[y] >= net.attempts)
  }

  lemma FirstTurn(fate: nat -> bool, sizes: Sizes, keys: seq<Stream>, store: Store, net: Net)
    requires ValidSizes(sizes) && keys != [] && At(store.buf, keys[0]) != [] && keys[0] !in keys[1..]
    ensures Offered(fate, sizes, keys[0], At(store.buf, keys[0]), net, FlushKeys(fate, sizes, keys, store, net),
                    net.attempts)
  {
    var x := keys[0];
    var r := SendList(fate, Size(sizes, x.kind), x, At(store.buf, x), net);
    SendListTries(fate, Size(sizes, x.kind), x, At(store.buf, x), net);
    FlushOthers(fate, sizes, keys[1..], AfterKey(store, x, r.left), r.net, x);
    AfterKeyAt(store, x, r.left, x);
  }

  /** Whatever fails: a flush goes on to the next stream, and every list it finds is offered to a send of
      its own, as long as the keys are distinct. */
  lemma {:induction false} FlushOffersEach(fate: nat -> bool, sizes: Sizes, keys: seq<Stream>, store: Store, net: Net)
      returns (turns: map<Stream, nat>)
    requires ValidSizes(sizes) && NoDup(keys)
    ensures EachOffered(fate, sizes, keys, store, net, FlushKeys(fate, sizes, keys, store, net), turns)
    decreases |keys|
  {
    if keys == [] {
      turns := map[];
    } else {
      var x := keys[0];
      var r := SendList(fate, Size(sizes, x.kind), x, At(store.buf, x), net);
      var next := AfterKey(store, x, r.left);
      NoDupSplit(keys);
      SendListTries(fate, Size(sizes, x.kind), x, At(store.buf, x), net);
      var later := FlushOffersEach(fate, sizes, keys[1..], next, r.net);
      LaterTurns(fate, sizes, keys, store, net, later);
      if At(store.buf, x) == [] {
        turns := later;
      } else {
        FirstTurn(fate, sizes, keys, store, net);
        turns := later[x := net.attempts];
      }
    }
  }

  /** A later stream's turn, seen from before the first. */
  lemma LaterTurns(fate: nat -> bool, sizes: Sizes, keys: seq<Stream>, store: Store, net: Net, later: map<Stream, nat>)
    requires ValidSizes(sizes) && keys != [] && keys[0] !in keys[1..]
    requires var r := SendList(fate, Size(sizes, keys[0].kind), keys[0], At(store.buf, keys[0]), net);
             EachOffered(fate, sizes, keys[1..], AfterKey(store, keys[0], r.left), r.net,
                         FlushKeys(fate, sizes, keys, store, net), later)
    ensures forall y | y in keys[1..] && At(store.buf, y) != [] ::
              && y in later
              && Offered(fate, sizes, y, At(store.buf, y), net, FlushKeys(fate, sizes, keys, store, net), later[y])
    ensures forall y | y in later :: y in keys && y != keys[0] && later[y] >= net.attempts
    ensures At(store.buf, keys[0]) != [] ==> forall y | y in later :: later[y] > net.attempts
  {
    var x := keys[0];
    var r := SendList(fate, Size(sizes, x.kind), x, At(store.buf, x), net);
    var f, next := FlushKeys(fate, sizes, keys, store, net), AfterKey(store, x, r.left);
    SendListTries(fate, Size(sizes, x.kind), x, At(store.buf, x), net);
    assert keys == [x] + keys[1..];
    forall y | y in keys[1..] && At(store.buf, y) != []
      ensures y in later && Offered(fate, sizes, y, At(store.buf, y), net, f, later[y])
    {
      AfterKeyAt(store, x, r.left, y);
      SendListConserves(fate, Size(sizes, x.kind), x, At(store.buf, x), net, y);
      assert Delivered(r.net.wire, y) + [] == Delivered(r.net.wire, y);
      assert Delivered(net.wire, y) + [] == Delivered(net.wire, y);
      assert Offered(fate, sizes, y, At(next.buf, y), r.net, f, later[y]);
    }
  }

  /** So a flush of a kind offers every list of it that is buffered, each to a send of its own. */
  lemma FlushKindOffersAll(fate: nat -> bool, sizes: Sizes, kind: Kind, store: Store, net: Net)
      returns (turns: map<Stream, nat>)
    requires ValidSizes(sizes) && StoreOk(store)
    ensures forall y | y in store.buf && y.kind == kind ::
              && y in turns
              && net.attempts <= turns[y] < FlushKind(fate, sizes, kind, store, net).net.attempts
              && Offered(fate, sizes, y, At(store.buf, y), net, FlushKind(fate, sizes, kind, store, net), turns[y])
    ensures forall y, z | y in turns && z in turns && y != z :: turns[y] != turns[z]
  {
    OfKindProps(store.order, kind);
    turns := FlushOffersEach(fate, sizes, OfKind(store.order, kind), store, net);
  }

  /** Flush the same kind a number of times. */
  function Retry(times: nat, fate: nat -> bool, sizes: Sizes, kind: Kind, store: Store, net: Net): Flushed
    requires ValidSizes(sizes)
  {
    if times == 0 then Flushed(store, net)
    else
      var f := FlushKind(fate, sizes, kind, store, net);
      Retry(times - 1, fate, sizes, kind, f.store, f.net)
  }

  lemma {:induction false} RetryConserves(times: nat, fate: nat -> bool, sizes: Sizes, kind: Kind,
        store: Store, net: Net, y: Stream)
    requires ValidSizes(sizes)
    ensures var f := Retry(times, fate, sizes, kind, store, net);
            Delivered(f.net.wire, y) + At(f.store.buf, y) == Delivered(net.wire, y) + At(store.buf, y)
  {
    if times > 0 {
      var f := FlushKind(fate, sizes, kind, store, net);
      FlushConserves(fate, sizes, OfKind(store.order, kind), store, net, y);
      RetryConserves(times - 1, fate, sizes, kind, f.store, f.net, y);
    }
  }

  /** Repeated flushes under any failure schedule, once they have emptied a stream, have delivered
      exactly what was buffered of it, behind what was delivered before: what one failure-free
      flush delivers. */
  lemma RetryDeliversTheSame(times: nat, fate: nat -> bool, perfect: nat -> bool, sizes: Sizes, kind: Kind,
                             store: Store, net: Net, y: Stream)
    requires ValidSizes(sizes) && StoreOk(store) && y.kind == kind
    requires forall k | net.attempts <= k :: perfect(k)
    requires At(Retry(times, fate, sizes, kind, store, net).store.buf, y) == []
    ensures Delivered(Retry(times, fate, sizes, kind, store, net).net.wire, y)
         == Delivered(net.wire, y) + At(store.buf, y)
         == Delivered(FlushKind(perfect, sizes, kind, store, net).net.wire, y)
  {
    RetryConserves(times, fate, sizes, kind, store, net, y);
    FlushKindDelivers(perfect, sizes, kind, store, net, y);
    var done := Retry(times, fate, sizes, kind, store, net).net.wire;
    assert Delivered(done, y) + [] == Delivered(done, y);
  }

  /** And the first of them that meets no failure empties the stream for good. */
  lemma {:induction false} RetryEmpties(times: nat, fate: nat -> bool, sizes: Sizes, kind: Kind,
        store: Store, net: Net, y: Stream)
    requires ValidSizes(sizes) && StoreOk(store) && y.kind == kind && times > 0
    requires forall k | Retry(times - 1, fate, sizes, kind, store, net).net.attempts <= k :: fate(k)
    ensures At(Retry(times, fate, sizes, kind, store, net).store.buf, y) == []
    decreases times
  {
    var f := FlushKind(fate, sizes, kind, store, net);
    FlushKindDelivers(fate, sizes, kind, store, net, y);
    if times > 1 {
      RetryEmpties(times - 1, fate, sizes, kind, f.store, f.net, y);
    } else {
      assert Retry(0, fate, sizes, kind, f.store, f.net) == f;
    }
  }

  // ---------- the step system runs these loops ----------

  lemma {:induction false} ResumeAdvances(sizes: Sizes, store: Store, keys: seq<Stream>)
    requires ValidSizes(sizes)
    ensures var t := Resume(sizes, store, keys, Nothing).task;
            t.Idle? || (t.Sending? && t.after == Nothing && |t.keys| < |keys| && t.batch != [])
    decreases |keys|
  {
    if keys != [] && At(store.buf, keys[0]) == [] {
      ResumeAdvances(sizes, Pop(store, keys[0]), keys[1..]);
    }
  }

  /** A periodic flusher of the step system, undisturbed, each send turning out as fate says. */
  function Drive(fate: nat -> bool, sizes: Sizes, f: Flush, net: Net): Flushed
    requires ValidSizes(sizes)
    requires f.task.Sending? ==> f.task.after == Nothing && f.task.batch != []
    decreases if f.task.Sending? then |f.task.keys| + 1 else 0, if f.task.Sending? then |f.task.rest| else 0
  {
    if !f.task.Sending? then Flushed(f.store, net)
    else
      var t := f.task;
      ResumeAdvances(sizes, f.store, t.keys);
      ResumeAdvances(sizes, Put(f.store, t.cur, t.batch + t.rest), t.keys);
      if fate(net.attempts) then
        Drive(fate, sizes, AfterSend(sizes, f.store, t), Net(net.wire + [Batch(t.cur, t.batch)], net.attempts + 1))
      else
        Drive(fate, sizes, AfterFailure(sizes, f.store, t), Net(net.wire, net.attempts + 1))
  }

  /** From the middle of a list: finish it, then flush the remaining keys. */
  lemma {:induction false} DriveFinishesList(fate: nat -> bool, sizes: Sizes, store: Store, keys: seq<Stream>,
        x: Stream, items: seq<Item>, net: Net)
    requires ValidSizes(sizes) && items != [] && x !in store.buf
    ensures var sent := SendList(fate, Size(sizes, x.kind), x, items, net);
            Drive(fate, sizes, Flush(store, NextBatch(sizes, keys, x, items, Nothing)), net)
            == FlushKeys(fate, sizes, keys, if sent.left == [] then store else Put(store, x, sent.left), sent.net)
    decreases |keys|, 1, |items|
  {
    var n := Cut(items, Size(sizes, x.kind));
    assert items[..n] + items[n..] == items;
    var next := Net(net.wire + [Batch(x, items[..n])], net.attempts + 1);
    if fate(net.attempts) {
      if items[n..] != [] {
        DriveFinishesList(fate, sizes, store, keys, x, items[n..], next);
      } else {
        DriveIsFlush(fate, sizes, store, keys, next);
      }
    } else {
      DriveIsFlush(fate, sizes, Put(store, x, items), keys, Net(net.wire, net.attempts + 1));
    }
  }

  /** The step system's flusher, left alone, computes the nested loops. */
  lemma {:induction false} DriveIsFlush(fate: nat -> bool, sizes: Sizes, store: Store, keys: seq<Stream>, net: Net)
    requires ValidSizes(sizes)
    ensures (ResumeAdvances(sizes, store, keys);
             Drive(fate, sizes, Resume(sizes, store, keys, Nothing), net)) == FlushKeys(fate, sizes, keys, store, net)
    decreases |keys|, 0, 0
  {
    ResumeAdvances(sizes, store, keys);
    if keys != [] {
      var x := keys[0];
      if At(store.buf, x) == [] {
        DriveIsFlush(fate, sizes, Pop(store, x), keys[1..], net);
      } else {
        DriveFinishesList(fate, sizes, Pop(store, x), keys[1..], x, At(store.buf, x), net);
      }
    }
  }
}
