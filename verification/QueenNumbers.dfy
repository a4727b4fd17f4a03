/** Lines have an identity: no line is ever accepted twice, whatever its text. */
module QueenNumbers {
  import opened Statuses
  import opened QueenMachine
  import opened QueenLedger
  import QueenRegistry

  ghost predicate NoRepeats(items: seq<Item>) {
    forall k, l | 0 <= k < l < |items| :: items[k] != items[l]
  }

  /** The unread lines of drone d carry the numbers that follow those read. */
  predicate PipeNumbered(d: nat, pipe: Pipe) {
    && |pipe.unread| <= |pipe.written|
    && forall k | 0 <= k < |pipe.unread| :: pipe.unread[k].d == d && pipe.unread[k].n == Taken(pipe) + k
  }

  predicate PoolNumbered(pool: seq<DroneRec>) {
    forall d | 0 <= d < |pool| :: PipeNumbered(d, pool[d].out) && PipeNumbered(d, pool[d].err)
  }

  /** The line has been read from its drone's pipe of this kind. */
  predicate WasTaken(pool: seq<DroneRec>, kind: Kind, v: Item) {
    v.d < |pool| && v.n < Taken(PipeOf(pool[v.d], kind))
  }

  ghost predicate StreamNumbered(pool: seq<DroneRec>, accepted: map<Stream, seq<Item>>, x: Stream) {
    NoRepeats(At(accepted, x)) && forall v | v in At(accepted, x) :: WasTaken(pool, x.kind, v)
  }

  ghost predicate Numbered(s: State) {
    PoolNumbered(s.pool) && forall x :: StreamNumbered(s.pool, s.book.accepted, x)
  }

  /** As many lines read from every pipe as before, or more. */
  predicate TakenGrows(pool: seq<DroneRec>, later: seq<DroneRec>) {
    && |pool| <= |later|
    && forall d | 0 <= d < |pool| ::
         Taken(pool[d].out) <= Taken(later[d].out) && Taken(pool[d].err) <= Taken(later[d].err)
  }

  lemma SameAccepted(s: State, e: State)
    requires Numbered(s) && PoolNumbered(e.pool) && TakenGrows(s.pool, e.pool) && e.book.accepted == s.book.accepted
    ensures Numbered(e)
  {
    forall x
      ensures StreamNumbered(e.pool, e.book.accepted, x)
    {
      assert StreamNumbered(s.pool, s.book.accepted, x);
    }
  }

  lemma ReadNumbered(s: State, d: nat, kind: Kind)
    requires Numbered(s) && Enabled(s, Read(d, kind))
    ensures Numbered(ReadLine(s, d, kind))
  {
    var e, pipe, y := ReadLine(s, d, kind), PipeOf(s.pool[d], kind), Stream(kind, s.pool[d].scan);
    assert pipe.unread[0].d == d && pipe.unread[0].n == Taken(pipe);
    assert PoolNumbered(e.pool) && TakenGrows(s.pool, e.pool);
    forall x
      ensures StreamNumbered(e.pool, e.book.accepted, x)
    {
      assert StreamNumbered(s.pool, s.book.accepted, x);
      AtAppendTo(s.book.accepted, y, pipe.unread[..1], x);
      if x == y {
        NewLine(At(s.book.accepted, x), pipe.unread[0], s.pool, e.pool, kind);
        assert pipe.unread[..1] == [pipe.unread[0]];
      }
    }
  }

  lemma NewLine(items: seq<Item>, v: Item, pool: seq<DroneRec>, later: seq<DroneRec>, kind: Kind)
    requires NoRepeats(items) && (forall u | u in items :: WasTaken(pool, kind, u)) && TakenGrows(pool, later)
    requires !WasTaken(pool, kind, v) && WasTaken(later, kind, v)
    ensures NoRepeats(items + [v]) && forall u | u in items + [v] :: WasTaken(later, kind, u)
  {
    assert forall k | 0 <= k < |items| :: items[k] in items;
    assert v !in items;
  }

  lemma OtherNumbered(s: State, a: Action)
    requires Numbered(s) && Enabled(s, a) && !a.Read?
    ensures PoolNumbered(Apply(s, a).pool) && TakenGrows(s.pool, Apply(s, a).pool)
    ensures Apply(s, a).book.accepted == s.book.accepted
  {
    match a
    case CmdStart(scan, _) => QueenRegistry.HandleDrones(s, scan, Failed);
    case Report(d, status) => QueenRegistry.AttemptPool(s, d, status);
    case Write(d, kind, text) => WriteNumbered(s, d, kind, text);
    case _ =>
  }

  lemma WriteNumbered(s: State, d: nat, kind: Kind, text: string)
    requires PoolNumbered(s.pool) && Enabled(s, Write(d, kind, text))
    ensures var e := Apply(s, Write(d, kind, text));
            PoolNumbered(e.pool) && TakenGrows(s.pool, e.pool) && e.book == s.book
  {
    var e := Apply(s, Write(d, kind, text));
    OneMoreLine(d, PipeOf(s.pool[d], kind), text);
    assert forall c | 0 <= c < |s.pool| && c != d :: e.pool[c] == s.pool[c];
  }

  lemma OneMoreLine(d: nat, pipe: Pipe, text: string)
    requires PipeNumbered(d, pipe)
    ensures var line := Item(d, |pipe.written|, text);
            var e := Pipe(pipe.written + [line], pipe.unread + [line]);
            PipeNumbered(d, e) && Taken(e) == Taken(pipe)
  {
  }

  lemma {:induction false} NumberedRun(sizes: Sizes, maxScans: int, acts: seq<Action>)
    ensures Numbered(Exec(Init(sizes, maxScans), acts))
  {
    if acts != [] {
      var s, a := Exec(Init(sizes, maxScans), acts[..|acts| - 1]), acts[|acts| - 1];
      NumberedRun(sizes, maxScans, acts[..|acts| - 1]);
      if Enabled(s, a) {
        if a.Read? {
          ReadNumbered(s, a.d, a.kind);
        } else {
          OtherNumbered(s, a);
          SameAccepted(s, Apply(s, a));
        }
      }
    }
  }

  /** No line is accepted twice for a scan, though its text may be. */
  lemma AcceptedOnce(sizes: Sizes, maxScans: int, acts: seq<Action>, x: Stream)
    ensures NoRepeats(At(Exec(Init(sizes, maxScans), acts).book.accepted, x))
  {
    NumberedRun(sizes, maxScans, acts);
    assert StreamNumbered(Exec(Init(sizes, maxScans), acts).pool, Exec(Init(sizes, maxScans), acts).book.accepted, x);
  }
}
