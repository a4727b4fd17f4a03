/** Containment of one scan's process tree in its cgroup, from spawn to the monitor's kill.

    tree is the scan process and everything forked, directly or not, by it; membership is by
    descent at the time of the fork, so a daemonised grandchild stays in the tree. */
module Containment {
  import opened Kernel

  datatype State = State(
    procs: Table,
    dir: string,          // the scan's cgroup directory
    made: bool,           // it exists
    root: Pid,            // the scan process, once spawned
    tree: set<Pid>,
    strayed: bool         // some process of the tree forked while outside dir
  )

  function Init(procs: Table, dir: string): State {
    State(procs, dir, false, BEE, {}, false)
  }

  datatype Action =
    | MakeDir                         // ScanCgroup.create
    | SpawnRoot(pid: Pid)             // create_subprocess_exec
    | SelfEnroll(ok: bool)            // the scan process writes its own pid
    | Populate(ok: bool)              // the drone writes the scan process's pid
    | KillTree                        // ScanCgroup.kill
    | RemoveDir                       // ScanCgroup.cleanup
    | Happens(event: Event)           // anything processes do by themselves

  predicate Enabled(s: State, a: Action) {
    match a
    case MakeDir => !s.made && s.root == BEE
    case SpawnRoot(p) => s.made && s.root == BEE && p !in s.procs && p != BEE
    case SelfEnroll(_) => s.root != BEE && s.root in s.tree && Runs(s.procs, s.root)
    case Populate(_) => s.root != BEE && s.root in s.tree
    case KillTree => s.made
    case RemoveDir => s.made && Members(s.procs, s.dir) == {}
    case Happens(e) => Can(s.procs, e)
  }

  function Enrolled(s: State, ok: bool): State {
    if ok && s.made then s.(procs := Enroll(s.procs, s.root, s.dir)) else s
  }

  function Happened(s: State, e: Event): State
    requires Can(s.procs, e)
  {
    var after := s.(procs := Happen(s.procs, e));
    match e
    case Fork(p, c) =>
      if p in s.tree then
        after.(tree := s.tree + {c}, strayed := s.strayed || s.procs[p].home != s.dir)
      else after
    case Exit(_) => after
    case Reap(p) => after.(tree := s.tree - {p})
  }

  function Apply(s: State, a: Action): State
    requires Enabled(s, a)
  {
    match a
    case MakeDir => s.(made := true)
    case SpawnRoot(p) => s.(root := p, tree := {p}, procs := s.procs[p := Proc(BEE, "", Alive)])
    case SelfEnroll(ok) => Enrolled(s, ok)
    case Populate(ok) => Enrolled(s, ok)
    case KillTree => s.(procs := KillAll(s.procs, s.dir))
    case RemoveDir => s.(made := false)
    case Happens(e) => Happened(s, e)
  }

  function Step(s: State, a: Action): State {
    if Enabled(s, a) then Apply(s, a) else s
  }

  function Exec(s: State, acts: seq<Action>): State {
    if acts == [] then s else Step(Exec(s, acts[..|acts| - 1]), acts[|acts| - 1])
  }

  // ---------- containment ----------

  /** Every process of the tree, running or not, is a member of the scan's cgroup. */
  predicate Contained(s: State) {
    forall p | p in s.tree :: p in s.procs && s.procs[p].home == s.dir
  }

  predicate RootInside(s: State) {
    s.root != BEE && (s.root in s.tree ==> s.root in s.procs && s.procs[s.root].home == s.dir)
  }

  predicate TreeInv(s: State) {
    && (forall p | p in s.tree :: p in s.procs)
    && (!s.strayed ==> forall p | p in s.tree && p != s.root :: s.procs[p].home == s.dir)
    && (s.root == BEE ==> s.tree == {} && !s.strayed)
    && BEE !in s.procs && s.dir != ""
  }

  lemma TreeStep(s: State, a: Action)
    requires TreeInv(s)
    ensures TreeInv(Step(s, a))
  {
  }

  lemma {:induction false} TreeRun(s: State, acts: seq<Action>)
    requires TreeInv(s)
    ensures TreeInv(Exec(s, acts)) && Exec(s, acts).dir == s.dir
  {
    if acts != [] {
      TreeRun(s, acts[..|acts| - 1]);
      TreeStep(Exec(s, acts[..|acts| - 1]), acts[|acts| - 1]);
    }
  }

  /** From then on nobody strays: a fork inherits the membership. */
  lemma InsideStep(s: State, a: Action)
    requires TreeInv(s) && RootInside(s) && !s.strayed
    ensures RootInside(Step(s, a)) && !Step(s, a).strayed
  {
  }

  lemma {:induction false} InsideRun(s: State, acts: seq<Action>)
    requires TreeInv(s) && RootInside(s) && !s.strayed
    ensures TreeInv(Exec(s, acts)) && RootInside(Exec(s, acts)) && !Exec(s, acts).strayed
  {
    if acts != [] {
      var before := Exec(s, acts[..|acts| - 1]);
      InsideRun(s, acts[..|acts| - 1]);
      TreeStep(before, acts[|acts| - 1]);
      InsideStep(before, acts[|acts| - 1]);
    }
  }

  /** If the scan process is enrolled, by itself or by populate, before it has forked anything, then in
      every interleaving with everything else every process of its tree is in its cgroup, always. */
  lemma EnrolledBeforeForking(s: State, a: Action, acts: seq<Action>)
    requires TreeInv(s) && !s.strayed && s.made
    requires Enabled(s, a) && (a == SelfEnroll(true) || a == Populate(true)) && Runs(s.procs, s.root)
    ensures Contained(Exec(Step(s, a), acts))
  {
    TreeStep(s, a);
    InsideRun(Step(s, a), acts);
  }

  // ---------- the kill ----------

  /** No process of the tree runs. */
  predicate TreeDead(s: State) {
    forall p | p in s.tree && p in s.procs :: !s.procs[p].life.Alive?
  }

  /** A kill leaves no running process of the tree exactly when every running one is a member. */
  lemma KillSweepsTreeIff(s: State)
    requires TreeInv(s) && s.made
    ensures TreeDead(Step(s, KillTree)) <==>
            forall p | p in s.tree && s.procs[p].life.Alive? :: s.procs[p].home == s.dir
  {
    var after := KillAll(s.procs, s.dir);
    assert forall p | p in s.procs :: p in after &&
             (after[p].life.Alive? <==> s.procs[p].life.Alive? && s.procs[p].home != s.dir);
  }

  lemma DeadStep(s: State, a: Action)
    requires TreeInv(s) && TreeDead(s) && s.root != BEE
    ensures TreeDead(Step(s, a)) && Step(s, a).root != BEE
  {
  }

  lemma {:induction false} DeadRun(s: State, acts: seq<Action>)
    requires TreeInv(s) && TreeDead(s) && s.root != BEE
    ensures TreeDead(Exec(s, acts)) && Exec(s, acts).root != BEE && TreeInv(Exec(s, acts))
  {
    if acts != [] {
      var before := Exec(s, acts[..|acts| - 1]);
      DeadRun(s, acts[..|acts| - 1]);
      TreeStep(before, acts[|acts| - 1]);
      DeadStep(before, acts[|acts| - 1]);
    }
  }

  /** Enrolled before forking, then killed at any later moment while the directory exists: no process
      of the tree ever runs again, whatever forks, exits and reaps happen. */
  lemma NothingSurvivesTheKill(s: State, a: Action, acts: seq<Action>, later: seq<Action>)
    requires TreeInv(s) && !s.strayed && s.made
    requires Enabled(s, a) && (a == SelfEnroll(true) || a == Populate(true)) && Runs(s.procs, s.root)
    requires Exec(Step(s, a), acts).made
    ensures TreeDead(Exec(Step(Exec(Step(s, a), acts), KillTree), later))
  {
    var full := Exec(Step(s, a), acts);
    TreeStep(s, a);
    InsideRun(Step(s, a), acts);
    EnrolledBeforeForking(s, a, acts);
    KillSweepsTreeIff(full);
    TreeStep(full, KillTree);
    DeadRun(Step(full, KillTree), later);
  }

  /** Why enrolment must come first: a child forked before it stays outside, and outlives the kill. */
  lemma EarlyForkEscapes(s: State, child: Pid)
    requires TreeInv(s) && s.made && s.root in s.tree && Runs(s.procs, s.root)
    requires s.procs[s.root].home != s.dir && child !in s.procs && child != BEE
    ensures var e := Step(Step(Step(s, Happens(Fork(s.root, child))), Populate(true)), KillTree);
            child in e.tree && Runs(e.procs, child) && !TreeDead(e)
  {
    var forked := Step(s, Happens(Fork(s.root, child)));
    assert forked.procs[child] == Proc(s.root, s.procs[s.root].home, Alive);
    var enrolled := Step(forked, Populate(true));
    assert enrolled.procs[child] == forked.procs[child];
    var e := Step(enrolled, KillTree);
    assert e.procs[child] == forked.procs[child];
  }
}
