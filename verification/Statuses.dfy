/** Scan statuses and the forward-only ratchet every actor of a drone goes through.

    A drone's status is written by the stdout reader, the exit monitor, any number of stop
    calls and the failsafe's task, in whatever order the event loop picks.  The lemmas here say
    what is left of that order: nothing for the final status, and for the callbacks only which
    attempts beat everything before them. */
module Statuses {

  datatype ScanStatus =
    | NotStarted | Starting | Running | Finishing | Aborting
    | Finished | Failed | Aborted

  function Code(s: ScanStatus): nat {
    match s
    case NotStarted => 0
    case Starting => 2
    case Running => 3
    case Finishing => 4
    case Aborting => 5
    case Finished => 6
    case Failed => 7
    case Aborted => 8
  }

  predicate IsTerminal(s: ScanStatus) {
    s.Finished? || s.Failed? || s.Aborted?
  }

  /** The decision taken by one attempt to set the status. */
  predicate Advances(current: ScanStatus, attempt: ScanStatus) {
    Code(current) < Code(attempt)
  }

  function Ratchet(current: ScanStatus, attempt: ScanStatus): ScanStatus {
    if Advances(current, attempt) then attempt else current
  }

  function Final(attempts: seq<ScanStatus>): ScanStatus {
    if attempts == [] then NotStarted
    else Ratchet(Final(attempts[..|attempts| - 1]), attempts[|attempts| - 1])
  }

  /** The status-change callbacks fired by a sequence of attempts. */
  function Announced(attempts: seq<ScanStatus>): seq<ScanStatus> {
    if attempts == [] then []
    else
      var before, last := attempts[..|attempts| - 1], attempts[|attempts| - 1];
      Announced(before) + if Advances(Final(before), last) then [last] else []
  }

  lemma FinalAppend(attempts: seq<ScanStatus>, s: ScanStatus)
    ensures Final(attempts + [s]) == Ratchet(Final(attempts), s)
    ensures Announced(attempts + [s]) ==
            Announced(attempts) + if Advances(Final(attempts), s) then [s] else []
  {
    assert (attempts + [s])[..|attempts|] == attempts;
  }

  // ---------- the final status is the join of the attempts ----------

  /** s is the largest of NotStarted and the attempts.  Mentions no order. */
  ghost predicate IsJoin(s: ScanStatus, attempts: multiset<ScanStatus>) {
    && (s == NotStarted || s in attempts)
    && forall a | a in attempts :: Code(a) <= Code(s)
  }

  lemma {:induction false} FinalIsJoin(attempts: seq<ScanStatus>)
    ensures IsJoin(Final(attempts), multiset(attempts))
  {
    if attempts != [] {
      var before, last := attempts[..|attempts| - 1], attempts[|attempts| - 1];
      FinalIsJoin(before);
      assert attempts == before + [last];
    }
  }

  lemma JoinIsUnique(s: ScanStatus, t: ScanStatus, attempts: multiset<ScanStatus>)
    requires IsJoin(s, attempts) && IsJoin(t, attempts)
    ensures s == t
  {
    assert Code(s) == Code(t);
  }

  /** Whatever order the actors run in, the drone ends in the same status. */
  lemma FinalIgnoresOrder(attempts: seq<ScanStatus>, shuffled: seq<ScanStatus>)
    requires multiset(attempts) == multiset(shuffled)
    ensures Final(attempts) == Final(shuffled)
  {
    FinalIsJoin(attempts);
    FinalIsJoin(shuffled);
    JoinIsUnique(Final(attempts), Final(shuffled), multiset(attempts));
  }

  // ---------- the callbacks are the strict left-to-right maxima ----------

  ghost predicate BeatsAllBefore(attempts: seq<ScanStatus>, i: nat)
    requires i < |attempts|
  {
    && Code(attempts[i]) > Code(NotStarted)
    && forall j | 0 <= j < i :: Code(attempts[j]) < Code(attempts[i])
  }

  /** positions lists, in order, exactly the indices that beat everything before them. */
  ghost predicate ListsMaxima(attempts: seq<ScanStatus>, positions: seq<nat>) {
    && (forall k | 0 <= k < |positions| ::
         positions[k] < |attempts| && BeatsAllBefore(attempts, positions[k]))
    && (forall k, l | 0 <= k < l < |positions| :: positions[k] < positions[l])
    && (forall i: nat | i < |attempts| && BeatsAllBefore(attempts, i) :: i in positions)
  }

  lemma BeatsIsAdvances(attempts: seq<ScanStatus>, i: nat)
    requires i < |attempts|
    ensures BeatsAllBefore(attempts, i) <==> Advances(Final(attempts[..i]), attempts[i])
  {
    var before := attempts[..i];
    FinalIsJoin(before);
    if BeatsAllBefore(attempts, i) {
      if Final(before) != NotStarted {
        var j :| 0 <= j < |before| && before[j] == Final(before);
        assert attempts[j] == before[j];
      }
    } else if Code(attempts[i]) != Code(NotStarted) {
      var j :| 0 <= j < i && Code(attempts[j]) >= Code(attempts[i]);
      assert before[j] in multiset(before);
    }
  }

  lemma BeatsInPrefix(before: seq<ScanStatus>, s: ScanStatus, i: nat)
    requires i < |before|
    ensures BeatsAllBefore(before + [s], i) == BeatsAllBefore(before, i)
  {
    var attempts := before + [s];
    assert forall j | 0 <= j <= i :: attempts[j] == before[j];
  }

  /** One more attempt extends the list of maxima by its own position, or leaves it alone. */
  lemma {:induction false} MaximaExtend(before: seq<ScanStatus>, positions: seq<nat>, s: ScanStatus, extended: seq<nat>)
    requires ListsMaxima(before, positions)
    requires extended == if BeatsAllBefore(before + [s], |before|) then positions + [|before|] else positions
    ensures ListsMaxima(before + [s], extended)
  {
    var attempts := before + [s];
    forall k | 0 <= k < |extended|
      ensures extended[k] < |attempts| && BeatsAllBefore(attempts, extended[k])
    {
      if k < |positions| {
        BeatsInPrefix(before, s, positions[k]);
      }
    }
    forall i: nat | i < |attempts| && BeatsAllBefore(attempts, i)
      ensures i in extended
    {
      if i < |before| {
        BeatsInPrefix(before, s, i);
        assert i in positions;
      } else {
        assert extended[|positions|] == i;
      }
    }
  }

  lemma {:induction false} AnnouncedAreMaxima(attempts: seq<ScanStatus>) returns (positions: seq<nat>)
    ensures ListsMaxima(attempts, positions)
    ensures |positions| == |Announced(attempts)|
    ensures forall k | 0 <= k < |positions| :: Announced(attempts)[k] == attempts[positions[k]]
  {
    if attempts == [] {
      positions := [];
    } else {
      var before, last := attempts[..|attempts| - 1], attempts[|attempts| - 1];
      var earlier := AnnouncedAreMaxima(before);
      assert attempts == before + [last];
      positions := MaximaOfAppend(before, last, earlier);
    }
  }

  lemma {:induction false} MaximaOfAppend(before: seq<ScanStatus>, last: ScanStatus, earlier: seq<nat>)
    returns (positions: seq<nat>)
    requires ListsMaxima(before, earlier) && |earlier| == |Announced(before)|
    requires forall k | 0 <= k < |earlier| :: Announced(before)[k] == before[earlier[k]]
    ensures ListsMaxima(before + [last], positions) && |positions| == |Announced(before + [last])|
    ensures forall k | 0 <= k < |positions| :: Announced(before + [last])[k] == (before + [last])[positions[k]]
  {
    var attempts := before + [last];
    FinalAppend(before, last);
    assert attempts[..|before|] == before;
    BeatsIsAdvances(attempts, |before|);
    positions := if Advances(Final(before), last) then earlier + [|before|] else earlier;
    MaximaExtend(before, earlier, last, positions);
  }

  ghost predicate Rising(s: seq<ScanStatus>) {
    forall i, j | 0 <= i < j < |s| :: Code(s[i]) < Code(s[j])
  }

  lemma RisingAppend(climb: seq<ScanStatus>, last: ScanStatus)
    requires climb != [] && Rising(climb)
    requires Advances(climb[|climb| - 1], last)
    ensures Rising(climb + [last])
  {
    forall i, j | 0 <= i < j < |climb + [last]|
      ensures Code((climb + [last])[i]) < Code((climb + [last])[j])
    {
      var top := climb[|climb| - 1];
      assert Code(climb[i]) <= Code(top);
    }
  }

  /** The announced statuses rise strictly, up to the final one. */
  lemma {:induction false} AnnouncedRise(attempts: seq<ScanStatus>)
    ensures Rising([NotStarted] + Announced(attempts))
    ensures ([NotStarted] + Announced(attempts))[|Announced(attempts)|] == Final(attempts)
  {
    if attempts != [] {
      var before, last := attempts[..|attempts| - 1], attempts[|attempts| - 1];
      AnnouncedRise(before);
      assert attempts == before + [last];
      FinalAppend(before, last);
      if Advances(Final(before), last) {
        RisingAppend([NotStarted] + Announced(before), last);
        assert [NotStarted] + Announced(attempts) == ([NotStarted] + Announced(before)) + [last];
      } else {
        assert Announced(attempts) == Announced(before);
      }
    }
  }

  function Terminals(s: seq<ScanStatus>): seq<ScanStatus> {
    if s == [] then []
    else Terminals(s[..|s| - 1]) + if IsTerminal(s[|s| - 1]) then [s[|s| - 1]] else []
  }

  lemma {:induction false} TerminalsOfRising(s: seq<ScanStatus>)
    requires Rising(s)
    ensures |Terminals(s)| <= 3
    ensures s != [] ==> |Terminals(s)| + 5 <= Code(s[|s| - 1]) || Terminals(s) == []
  {
    if s != [] {
      TerminalsOfRising(s[..|s| - 1]);
    }
  }

  /** A status is announced at most once, and a drone announces at most three terminal ones. */
  lemma AnnouncedOnce(attempts: seq<ScanStatus>)
    ensures forall i, j | 0 <= i < j < |Announced(attempts)| :: Announced(attempts)[i] != Announced(attempts)[j]
    ensures |Terminals(Announced(attempts))| <= 3
  {
    AnnouncedRise(attempts);
    var climb := [NotStarted] + Announced(attempts);
    assert forall i | 0 <= i < |Announced(attempts)| :: Announced(attempts)[i] == climb[i + 1];
    TerminalsOfRising(Announced(attempts));
  }

  /** Attempts that rise are announced in full. */
  lemma {:induction false} RisingIsAnnounced(attempts: seq<ScanStatus>)
    requires Rising([NotStarted] + attempts)
    ensures Announced(attempts) == attempts
    ensures Final(attempts) == ([NotStarted] + attempts)[|attempts|]
  {
    if attempts != [] {
      var before, last := attempts[..|attempts| - 1], attempts[|attempts| - 1];
      var climb := [NotStarted] + attempts;
      assert forall i | 0 <= i < |attempts| :: ([NotStarted] + before)[i] == climb[i];
      RisingIsAnnounced(before);
      assert attempts == before + [last];
      FinalAppend(before, last);
      assert Code(climb[|attempts| - 1]) < Code(climb[|attempts|]);
    }
  }

  /** The statuses of a scan's life, in the order of their codes. */
  const LIFE := [NotStarted, Starting, Running, Finishing, Aborting, Finished, Failed, Aborted]

  /** A scan that goes through its life, skipping what it likes, has each of its statuses announced: any
      selection of the statuses in that order is. */
  lemma LivesAreAnnounced(picks: seq<nat>)
    requires forall k | 0 <= k < |picks| :: 0 < picks[k] < 8
    requires forall k, l | 0 <= k < l < |picks| :: picks[k] < picks[l]
    ensures var life := seq(|picks|, k requires 0 <= k < |picks| => LIFE[picks[k]]); Announced(life) == life
  {
    var life := seq(|picks|, k requires 0 <= k < |picks| => LIFE[picks[k]]);
    LifeRises();
    forall i, j | 0 <= i < j < |[NotStarted] + life|
      ensures Code(([NotStarted] + life)[i]) < Code(([NotStarted] + life)[j])
    {
      assert ([NotStarted] + life)[j] == LIFE[picks[j - 1]];
      assert i > 0 ==> ([NotStarted] + life)[i] == LIFE[picks[i - 1]];
    }
    RisingIsAnnounced(life);
  }

  lemma LifeRises()
    ensures Rising(LIFE)
  {
  }

  // ---------- what "terminal" does and does not mean ----------

  /** ABORTED is final: later attempts change nothing and announce nothing. */
  lemma {:induction false} AbortedIsFinal(attempts: seq<ScanStatus>, later: seq<ScanStatus>)
    requires Final(attempts) == Aborted
    ensures Final(attempts + later) == Aborted
    ensures Announced(attempts + later) == Announced(attempts)
  {
    if later == [] {
      assert attempts + later == attempts;
    } else {
      var rest, last := later[..|later| - 1], later[|later| - 1];
      AbortedIsFinal(attempts, rest);
      assert attempts + later == (attempts + rest) + [last];
      FinalAppend(attempts + rest, last);
    }
  }

  /** A terminal status is final exactly when it is ABORTED; FINISHED and FAILED can still be overtaken. */
  lemma TerminalIsFinalIffAborted(s: ScanStatus)
    requires IsTerminal(s)
    ensures (forall later :: !Advances(s, later)) <==> s == Aborted
  {
    if s != Aborted {
      assert Advances(s, Aborted);
    }
  }
}
