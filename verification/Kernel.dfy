/** The part of Linux the bee relies on: processes, their parents, and cgroup v2 membership.

    A zombie still counts as a member of its cgroup until it is reaped.  The bee is the reaper of
    orphans (PID 1 of its pod). */
module Kernel {

  type Pid = nat

  const BEE: Pid := 1

  /** Dying: SIGKILL has been delivered, the process runs no more code but has not exited. */
  datatype Life = Alive | Dying | Zombie

  /** home: the name of the scan cgroup the process is a member of, "" for the bee's own cgroup. */
  datatype Proc = Proc(parent: Pid, home: string, life: Life)

  type Table = map<Pid, Proc>

  // ---------- what processes do by themselves ----------

  datatype Event =
    | Fork(parent: Pid, child: Pid)
    | Exit(pid: Pid)
    | Reap(pid: Pid)

  predicate Runs(t: Table, p: Pid) {
    p in t && t[p].life.Alive?
  }

  /** The parent may reap: the bee always, another process while it runs. */
  predicate Reapable(t: Table, p: Pid) {
    p in t && t[p].life.Zombie? && (t[p].parent == BEE || Runs(t, t[p].parent))
  }

  predicate Can(t: Table, e: Event) {
    match e
    case Fork(p, c) => Runs(t, p) && c !in t && c != BEE
    case Exit(p) => p in t && !t[p].life.Zombie?
    case Reap(p) => Reapable(t, p)
  }

  /** An exiting process turns zombie and its children go to the bee. */
  function ExitOf(t: Table, p: Pid): Table
    requires p in t
  {
    map q | q in t ::
      if q == p then t[q].(life := Zombie)
      else if t[q].parent == p then t[q].(parent := BEE)
      else t[q]
  }

  function Happen(t: Table, e: Event): Table {
    if !Can(t, e) then t
    else
      match e
      case Fork(p, c) => t[c := Proc(p, t[p].home, Alive)]
      case Exit(p) => ExitOf(t, p)
      case Reap(p) => t - {p}
  }

  function Run(t: Table, events: seq<Event>): Table {
    if events == [] then t else Happen(Run(t, events[..|events| - 1]), events[|events| - 1])
  }

  lemma RunAppend(t: Table, events: seq<Event>, e: Event)
    ensures Run(t, events + [e]) == Happen(Run(t, events), e)
  {
    assert (events + [e])[..|events|] == events;
  }

  lemma {:induction false} RunConcat(t: Table, first: seq<Event>, rest: seq<Event>)
    ensures Run(t, first + rest) == Run(Run(t, first), rest)
  {
    if rest == [] {
      assert first + rest == first;
    } else {
      var init, last := rest[..|rest| - 1], rest[|rest| - 1];
      RunConcat(t, first, init);
      assert first + rest == (first + init) + [last];
      RunAppend(t, first + init, last);
    }
  }

  // ---------- what the bee does to processes ----------

  function Members(t: Table, dir: string): set<Pid> {
    set p | p in t && t[p].home == dir
  }

  /** Writing a pid to cgroup.procs. */
  function Enroll(t: Table, p: Pid, dir: string): Table {
    if Runs(t, p) then t[p := t[p].(home := dir)] else t
  }

  /** Writing 1 to cgroup.kill: SIGKILL to every member at once. */
  function KillAll(t: Table, dir: string): Table {
    map p | p in t :: if t[p].home == dir && t[p].life.Alive? then t[p].(life := Dying) else t[p]
  }

  function ZombieChildren(t: Table): set<Pid> {
    set p | p in t && t[p].life.Zombie? && t[p].parent == BEE
  }

  function Children(t: Table): set<Pid> {
    set p | p in t && t[p].parent == BEE
  }

  // ---------- SIGKILL is final ----------

  /** No member of dir runs. */
  predicate Still(t: Table, dir: string) {
    forall p | p in t && t[p].home == dir :: !t[p].life.Alive?
  }

  lemma {:induction false} StillForever(t: Table, dir: string, events: seq<Event>)
    requires Still(t, dir)
    ensures Still(Run(t, events), dir)
  {
    if events != [] {
      StillForever(t, dir, events[..|events| - 1]);
    }
  }

  /** Whoever has been killed by now was killed before, except members of cgroups in sweep. */
  predicate KilledOnlyIn(before: Table, after: Table, sweep: string -> bool) {
    forall p | p in after && after[p].life.Dying? && !sweep(after[p].home) ::
      p in before && before[p].life.Dying? && before[p].home == after[p].home
  }

  /** Processes never kill each other: only the bee delivers SIGKILL here. */
  lemma {:induction false} RunKillsNobody(t: Table, events: seq<Event>, sweep: string -> bool)
    ensures KilledOnlyIn(t, Run(t, events), sweep)
  {
    if events != [] {
      RunKillsNobody(t, events[..|events| - 1], sweep);
    }
  }

  lemma KilledOnlyInEither(before: Table, mid: Table, after: Table, dir: string, sweep: string -> bool)
    requires KilledOnlyIn(before, mid, sweep) && KilledOnlyIn(mid, after, d => d == dir) && sweep(dir)
    ensures KilledOnlyIn(before, after, sweep)
  {
  }

  lemma KillAllKills(t: Table, dir: string, sweep: string -> bool)
    requires sweep(dir)
    ensures KilledOnlyIn(t, KillAll(t, dir), sweep)
    ensures Still(KillAll(t, dir), dir) && forall d | Still(t, d) :: Still(KillAll(t, dir), d)
  {
  }

  // ---------- orphans go to the bee ----------

  /** Everybody's parent is the bee, or a process that has not exited. */
  predicate Parented(t: Table) {
    forall p | p in t ::
      t[p].parent == BEE || (t[p].parent in t && t[p].parent != p && !t[t[p].parent].life.Zombie?)
  }

  /** An exiting process leaves its children to the bee, so nobody ever has a zombie for a parent. */
  lemma {:induction false} ParentedRun(t: Table, events: seq<Event>)
    requires Parented(t)
    ensures Parented(Run(t, events))
  {
    if events != [] {
      var before, e := Run(t, events[..|events| - 1]), events[|events| - 1];
      ParentedRun(t, events[..|events| - 1]);
      ParentedStep(before, e);
    }
  }

  lemma ParentedStep(t: Table, e: Event)
    requires Parented(t)
    ensures Parented(Happen(t, e))
  {
  }

  /** Every member has exited, and has the bee or another member for a parent. */
  predicate AllExited(t: Table, dir: string) {
    forall p | p in t && t[p].home == dir ::
      && t[p].life.Zombie?
      && (t[p].parent == BEE || (t[p].parent in t && t[t[p].parent].home == dir))
  }

  /** Once every member of a cgroup has exited, in whatever order, all of them are zombies for the bee
      to reap. */
  lemma ExitedMembersAreReapable(t: Table, dir: string, events: seq<Event>)
    requires Parented(t) && AllExited(Run(t, events), dir)
    ensures Members(Run(t, events), dir) <= ZombieChildren(Run(t, events))
  {
    ParentedRun(t, events);
    var e := Run(t, events);
    forall p | p in e && e[p].home == dir
      ensures p in ZombieChildren(e)
    {
      var q := e[p].parent;
      var zombie := q in e && e[q].life.Zombie?;
      assert q == BEE || !zombie;
    }
  }
}
