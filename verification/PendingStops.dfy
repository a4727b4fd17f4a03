/** The queen's bookkeeping of fire-and-forget stop tasks, keyed by scan id. */
module PendingStops {

  /** tasks[t] is the scan of stop task t; running and called back are sets of task numbers. */
  datatype State = State(
    tasks: seq<string>,
    running: set<nat>,
    calledBack: set<nat>,
    pending: map<string, nat>     // _pending_stops
  )

  const START := State([], {}, {}, map[])

  datatype Action =
    | SpawnStop(scan: string)     // the stop_scan command
    | Finish(task: nat)           // returned, raised or cancelled
    | CallBack(task: nat)         // _on_stop_done

  predicate Enabled(s: State, a: Action) {
    match a
    case SpawnStop(_) => true
    case Finish(t) => t in s.running
    case CallBack(t) => t < |s.tasks| && t !in s.running && t !in s.calledBack
  }

  function Step(s: State, a: Action): State {
    if !Enabled(s, a) then s
    else
      match a
      case SpawnStop(scan) =>
        var t := |s.tasks|;
        s.(tasks := s.tasks + [scan], running := s.running + {t}, pending := s.pending[scan := t])
      case Finish(t) => s.(running := s.running - {t})
      case CallBack(t) => s.(calledBack := s.calledBack + {t}, pending := s.pending - {s.tasks[t]})
  }

  function Exec(acts: seq<Action>): State {
    if acts == [] then START else Step(Exec(acts[..|acts| - 1]), acts[|acts| - 1])
  }

  /** Spawned and not yet called back: what the queen still owes attention. */
  predicate InFlight(s: State, t: nat) {
    t < |s.tasks| && t !in s.calledBack
  }

  ghost predicate Inv(s: State) {
    && (forall t | t in s.running :: t < |s.tasks| && t !in s.calledBack)
    && (forall t | t in s.calledBack :: t < |s.tasks|)
    && (forall k | k in s.pending :: InFlight(s, s.pending[k]) && s.tasks[s.pending[k]] == k)
  }

  /** No finished stop whose callback has run is ever listed. */
  lemma {:induction false} NoStaleEntry(acts: seq<Action>)
    ensures Inv(Exec(acts))
    ensures var s := Exec(acts);
            forall k | k in s.pending :: s.pending[k] !in s.calledBack && s.tasks[s.pending[k]] == k
  {
    if acts != [] {
      NoStaleEntry(acts[..|acts| - 1]);
    }
  }

  /** shutdown's gather over the listed tasks covers everything in flight. */
  ghost predicate GatherCovers(s: State) {
    forall t | 0 <= t < |s.tasks| && InFlight(s, t) :: s.tasks[t] in s.pending && s.pending[s.tasks[t]] == t
  }

  /** The action spawns a stop for a scan that has one in flight. */
  ghost predicate Overlaps(s: State, a: Action) {
    a.SpawnStop? && exists t :: 0 <= t < |s.tasks| && InFlight(s, t) && s.tasks[t] == a.scan
  }

  /** From a state that covers everything, a step keeps the cover exactly when it spawns no second
      stop for a scan with one in flight. */
  lemma CoverStepIff(s: State, a: Action)
    requires Inv(s) && GatherCovers(s)
    ensures GatherCovers(Step(s, a)) <==> !Overlaps(s, a)
  {
    var e := Step(s, a);
    if Overlaps(s, a) {
      var t :| 0 <= t < |s.tasks| && InFlight(s, t) && s.tasks[t] == a.scan;
      assert InFlight(e, t) && e.tasks[t] == a.scan && e.pending[a.scan] == |s.tasks|;
    } else {
      forall t | 0 <= t < |e.tasks| && InFlight(e, t)
        ensures e.tasks[t] in e.pending && e.pending[e.tasks[t]] == t
      {
        if t < |s.tasks| {
          assert InFlight(s, t) && e.tasks[t] == s.tasks[t];
        }
      }
    }
  }

  ghost predicate NeverOverlaps(acts: seq<Action>) {
    acts == [] || (&& NeverOverlaps(acts[..|acts| - 1])
                   && !Overlaps(Exec(acts[..|acts| - 1]), acts[|acts| - 1]))
  }

  /** Every state of the run, from the first to the last, is covered. */
  ghost predicate AlwaysCovers(acts: seq<Action>) {
    GatherCovers(Exec(acts)) && (acts == [] || AlwaysCovers(acts[..|acts| - 1]))
  }

  /** With at most one stop in flight per scan the entries are exactly the stops in flight, at every
      point of the run, and only then: what shutdown gathers is everything if and only if stops of
      one scan never overlap. */
  lemma {:induction false} EntriesAreInFlightIff(acts: seq<Action>)
    ensures AlwaysCovers(acts) <==> NeverOverlaps(acts)
  {
    if acts != [] {
      var init := acts[..|acts| - 1];
      EntriesAreInFlightIff(init);
      NoStaleEntry(init);
      if AlwaysCovers(init) {
        CoverStepIff(Exec(init), acts[|acts| - 1]);
      }
    }
  }

  /** _pending_stops as the queen keeps it. */
  class StopTable {
    var pending: map<string, nat>
    ghost var tasks: seq<string>
    ghost var running: set<nat>
    ghost var calledBack: set<nat>
    var spawned: nat

    ghost function View(): State
      reads this
    {
      State(tasks, running, calledBack, pending)
    }

    ghost predicate Valid()
      reads this
    {
      Inv(View()) && spawned == |tasks|
    }

    constructor ()
      ensures Valid() && View() == START
    {
      pending, tasks, running, calledBack, spawned := map[], [], {}, {}, 0;
    }

    /** The stop_scan command: spawn, list, and never wait. */
    method StopScan(scan: string) returns (task: nat)
      requires Valid()
      modifies this
      ensures Valid() && View() == Step(old(View()), SpawnStop(scan))
      ensures scan in pending && pending[scan] == task && InFlight(View(), task)
    {
      task := spawned;
      spawned := spawned + 1;
      tasks, running := tasks + [scan], running + {task};
      pending := pending[scan := task];
    }

    /** _on_stop_done: forget whatever is listed under the scan. */
    method OnStopDone(scan: string, task: nat)
      requires Valid() && Enabled(View(), CallBack(task)) && tasks[task] == scan
      modifies this`pending, this`calledBack
      ensures Valid() && View() == Step(old(View()), CallBack(task))
      ensures scan !in pending
    {
      calledBack := calledBack + {task};
      pending := pending - {scan};
    }

    /** The tasks shutdown gathers. */
    method Gathered() returns (listed: set<nat>)
      requires Valid()
      ensures listed == pending.Values
      ensures forall t | t in listed :: InFlight(View(), t)
      ensures GatherCovers(View()) <==> forall t | 0 <= t < |tasks| && InFlight(View(), t) :: t in listed
    {
      listed := pending.Values;
      forall t | 0 <= t < |tasks| && InFlight(View(), t) && t in listed
        ensures tasks[t] in pending && pending[tasks[t]] == t
      {
        var k :| k in pending && pending[k] == t;
      }
    }
  }
}
