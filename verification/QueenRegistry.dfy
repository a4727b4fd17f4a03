/** The queen's registry of drones: agreement with the drones themselves, the moving capacity
    limit, and what state_sync tells the hive. */
module QueenRegistry {
  import opened Statuses
  import opened QueenMachine
  import opened Sets

  // ---------- agreement at every suspension point ----------

  /** Every tracked scan id maps to a drone of that scan with a non-terminal status. */
  predicate Agrees(drones: map<string, nat>, pool: seq<DroneRec>) {
    forall k | k in drones ::
      && drones[k] < |pool|
      && pool[drones[k]].scan == k
      && !IsTerminal(pool[drones[k]].status)
  }

  /** A state_sync whose capacity figures add up and that lists no terminal scan. */
  predicate SyncOk(n: Notice) {
    n.StateSync? ==>
      && n.available == n.maxScans - |n.active|
      && forall k | k in n.active :: !IsTerminal(n.active[k])
  }

  predicate NoticesOk(s: State) {
    && (forall t | t in s.tasks && t.Posting? :: SyncOk(t.notice))
    && (forall m | m in s.wire && m.Critical? :: SyncOk(m.notice))
  }

  predicate RegistryInv(s: State) {
    Agrees(s.drones, s.pool) && NoticesOk(s)
  }

  lemma SnapshotOk(s: State)
    requires Agrees(s.drones, s.pool)
    ensures SyncOk(Snapshot(s))
  {
    assert Snapshot(s).active.Keys == s.drones.Keys;
    assert |Snapshot(s).active| == |Snapshot(s).active.Keys| == |s.drones.Keys| == |s.drones|;
  }

  lemma {:induction false} ResumePostsStatus(sizes: Sizes, store: Store, keys: seq<Stream>, after: After)
    ensures var t := Resume(sizes, store, keys, after).task; t.Posting? ==> t.notice.StatusMsg?
    decreases after.ThenLogs?, |keys|
  {
    if keys == [] {
      if after.ThenLogs? {
        ResumePostsStatus(sizes, store, OfKind(store.order, Logs), ThenStatus(after.scan, after.status));
      }
    } else if At(store.buf, keys[0]) == [] {
      ResumePostsStatus(sizes, Pop(store, keys[0]), keys[1..], after);
    }
  }

  /** Popping a terminal scan restores agreement even if its drone has just gone terminal. */
  lemma HandleAgrees(s: State, scan: string, status: ScanStatus)
    requires NoticesOk(s)
    requires Agrees(if IsTerminal(status) then s.drones - {scan} else s.drones, s.pool)
    ensures RegistryInv(HandleStatus(s, scan, status))
  {
    ResumePostsStatus(s.sizes, s.store, OfKind(s.store.order, Events), ThenLogs(scan, status));
  }

  lemma AttemptAgrees(s: State, d: nat, status: ScanStatus)
    requires RegistryInv(s) && d < |s.pool|
    ensures RegistryInv(Attempt(s, d, status))
  {
    if Advances(s.pool[d].status, status) {
      HandleAgrees(s.(pool := s.pool[d := s.pool[d].(status := status)]), s.pool[d].scan, status);
    }
  }

  lemma FewerAgree(drones: map<string, nat>, pool: seq<DroneRec>, k: string)
    requires Agrees(drones, pool)
    ensures Agrees(drones - {k}, pool)
  {
  }

  lemma MoreAgree(drones: map<string, nat>, pool: seq<DroneRec>, rec: DroneRec)
    requires Agrees(drones, pool) && !IsTerminal(rec.status)
    ensures Agrees(drones[rec.scan := |pool|], pool + [rec])
  {
  }

  predicate Refused(s: State, scan: string, valid: bool) {
    scan in s.drones || Available(s) <= 0 || !valid
  }

  lemma StartAgrees(s: State, scan: string, valid: bool)
    requires RegistryInv(s)
    ensures RegistryInv(StartScan(s, scan, valid))
  {
    if Refused(s, scan, valid) {
      FewerAgree(s.drones, s.pool, scan);
      HandleAgrees(s, scan, Failed);
    } else {
      MoreAgree(s.drones, s.pool, DroneRec(scan, NotStarted, 0, false, Pipe([], []), Pipe([], [])));
    }
  }

  lemma SendAgrees(s: State, i: nat)
    requires RegistryInv(s) && i < |s.tasks| && !s.tasks[i].Idle?
    ensures RegistryInv(SendReturns(s, i)) && RegistryInv(SendRaises(s, i)) && RegistryInv(Cancel(s, i))
  {
    var t := s.tasks[i];
    assert t in s.tasks;
    if t.Sending? {
      ResumePostsStatus(s.sizes, s.store, t.keys, t.after);
      ResumePostsStatus(s.sizes, Put(s.store, t.cur, t.batch + t.rest), t.keys, t.after);
    }
  }

  lemma RegistryStep(s: State, a: Action)
    requires RegistryInv(s)
    ensures RegistryInv(Step(s, a))
  {
    if Enabled(s, a) {
      match a
      case CmdStart(scan, valid) => StartAgrees(s, scan, valid);
      case Report(d, status) => AttemptAgrees(s, d, status);
      case CmdSetMax(limit) => SnapshotOk(s.(maxScans := limit));
      case SyncState => SnapshotOk(s);
      case BeginFlush(kind) => ResumePostsStatus(s.sizes, s.store, OfKind(s.store.order, kind), Nothing);
      case SendOk(i) => SendAgrees(s, i);
      case SendFail(i) => SendAgrees(s, i);
      case CancelTask(i) => SendAgrees(s, i);
      case _ =>
    }
  }

  /** In every state of every run, whatever sends raise and whatever is cancelled: tracked scans are
      drones of that scan that are not terminal, and every state_sync ever sent adds up. */
  lemma {:induction false} RegistryAgreement(sizes: Sizes, maxScans: int, acts: seq<Action>)
    ensures var s := Exec(Init(sizes, maxScans), acts);
            && (forall k | k in s.drones ::
                 && s.drones[k] < |s.pool| && s.pool[s.drones[k]].scan == k
                 && !IsTerminal(s.pool[s.drones[k]].status))
            && (forall m | m in s.wire && m.Critical? && m.notice.StateSync? ::
                 && m.notice.available == m.notice.maxScans - |m.notice.active|
                 && forall k | k in m.notice.active :: !IsTerminal(m.notice.active[k]))
    ensures RegistryInv(Exec(Init(sizes, maxScans), acts))
  {
    if acts != [] {
      RegistryAgreement(sizes, maxScans, acts[..|acts| - 1]);
      RegistryStep(Exec(Init(sizes, maxScans), acts[..|acts| - 1]), acts[|acts| - 1]);
      assert forall m | m in Exec(Init(sizes, maxScans), acts).wire && m.Critical? :: SyncOk(m.notice);
    }
  }

  // ---------- exact agreement ----------

  const FRESH_PIPE := Pipe([], [])

  /** What a step can do to the registry: admit one new drone, or stop tracking at most one scan. */
  ghost predicate PoolChange(s: State, a: Action, e: State) {
    && |e.pool| >= |s.pool|
    && (forall d | 0 <= d < |s.pool| :: e.pool[d].scan == s.pool[d].scan)
    && (|e.pool| > |s.pool| ==>
         && a.CmdStart? && a.scan !in s.drones && |s.drones| < s.maxScans
         && e.drones == s.drones[a.scan := |s.pool|]
         && e.pool == s.pool + [DroneRec(a.scan, NotStarted, 0, false, FRESH_PIPE, FRESH_PIPE)])
    && (|e.pool| == |s.pool| ==> e.drones == s.drones || exists k :: e.drones == s.drones - {k})
  }

  lemma HandleDrones(s: State, scan: string, status: ScanStatus)
    ensures HandleStatus(s, scan, status).pool == s.pool
    ensures HandleStatus(s, scan, status).drones == if IsTerminal(status) then s.drones - {scan} else s.drones
  {
  }

  lemma AttemptPool(s: State, d: nat, status: ScanStatus)
    requires d < |s.pool|
    ensures Attempt(s, d, status).pool == s.pool[d := s.pool[d].(status := Ratchet(s.pool[d].status, status))]
    ensures Attempt(s, d, status).drones ==
            if Advances(s.pool[d].status, status) && IsTerminal(status) then s.drones - {s.pool[d].scan} else s.drones
  {
    HandleDrones(s.(pool := s.pool[d := s.pool[d].(status := status)]), s.pool[d].scan, status);
  }

  lemma OtherPool(s: State, a: Action)
    requires Enabled(s, a) && !a.CmdStart? && !a.Report?
    ensures Apply(s, a).drones == s.drones && |Apply(s, a).pool| == |s.pool|
    ensures forall d | 0 <= d < |s.pool| ::
              Apply(s, a).pool[d].scan == s.pool[d].scan && Apply(s, a).pool[d].status == s.pool[d].status
  {
  }

  lemma PoolStep(s: State, a: Action)
    ensures PoolChange(s, a, Step(s, a))
  {
    if Enabled(s, a) {
      match a
      case CmdStart(scan, valid) => HandleDrones(s, scan, Failed);
      case Report(d, status) => AttemptPool(s, d, status);
      case _ => OtherPool(s, a);
    }
  }

  predicate ExactPool(drones: map<string, nat>, pool: seq<DroneRec>) {
    forall d | 0 <= d < |pool| && !IsTerminal(pool[d].status) ::
      pool[d].scan in drones && drones[pool[d].scan] == d
  }

  /** The tracked scans are exactly the drones created and not yet terminal. */
  predicate Exact(s: State) {
    Agrees(s.drones, s.pool) && ExactPool(s.drones, s.pool)
  }

  /** The two ways to untrack a live drone: a start command for a tracked scan, whose refusal reports
      FAILED for the id; and a drone's late terminal advance once its id is tracked to another. */
  predicate Breaks(s: State, a: Action) {
    match a
    case CmdStart(scan, _) => scan in s.drones
    case Report(d, status) =>
      && d < |s.pool| && IsTerminal(status) && Advances(s.pool[d].status, status)
      && s.pool[d].scan in s.drones && s.drones[s.pool[d].scan] != d
    case _ => false
  }

  lemma AttemptExact(drones: map<string, nat>, pool: seq<DroneRec>, d: nat, status: ScanStatus)
    requires Agrees(drones, pool) && ExactPool(drones, pool) && d < |pool| && Advances(pool[d].status, status)
    ensures ExactPool(if IsTerminal(status) then drones - {pool[d].scan} else drones,
                      pool[d := pool[d].(status := status)])
        <==> !(IsTerminal(status) && pool[d].scan in drones && drones[pool[d].scan] != d)
  {
    var scan, after := pool[d].scan, pool[d := pool[d].(status := status)];
    if IsTerminal(status) && scan in drones && drones[scan] != d {
      assert after[drones[scan]] == pool[drones[scan]];
    }
  }

  lemma StartExact(s: State, scan: string, valid: bool)
    requires Exact(s)
    ensures ExactPool(StartScan(s, scan, valid).drones, StartScan(s, scan, valid).pool) <==> scan !in s.drones
  {
    if Refused(s, scan, valid) {
      HandleDrones(s, scan, Failed);
      if scan !in s.drones {
        assert s.drones - {scan} == s.drones;
      }
    }
  }

  /** From an exact registry, a step keeps it exact if and only if it is neither of the two. */
  lemma ExactStepIff(s: State, a: Action)
    requires RegistryInv(s) && Exact(s)
    ensures Exact(Step(s, a)) <==> !Breaks(s, a)
  {
    RegistryStep(s, a);
    if Enabled(s, a) {
      match a
      case Report(d, status) =>
        AttemptPool(s, d, status);
        if Advances(s.pool[d].status, status) {
          AttemptExact(s.drones, s.pool, d, status);
        }
      case CmdStart(scan, valid) => StartExact(s, scan, valid);
      case _ => OtherPool(s, a);
    }
  }

  ghost predicate NeverBreaks(s: State, acts: seq<Action>) {
    acts == [] || (NeverBreaks(s, acts[..|acts| - 1]) && !Breaks(Exec(s, acts[..|acts| - 1]), acts[|acts| - 1]))
  }

  ghost predicate AlwaysExact(s: State, acts: seq<Action>) {
    Exact(Exec(s, acts)) && (acts == [] || AlwaysExact(s, acts[..|acts| - 1]))
  }

  /** Over a whole run: the queen tracks exactly the live drones at every point if and only if no start
      command comes for a tracked scan and no drone advances terminally while its id is tracked to
      another.  A start refused at capacity, or of a finished scan's id, does no harm. */
  lemma {:induction false} ExactIffNeverBreaks(sizes: Sizes, maxScans: int, acts: seq<Action>)
    ensures AlwaysExact(Init(sizes, maxScans), acts) <==> NeverBreaks(Init(sizes, maxScans), acts)
  {
    if acts != [] {
      var init := acts[..|acts| - 1];
      ExactIffNeverBreaks(sizes, maxScans, init);
      RegistryAgreement(sizes, maxScans, init);
      if AlwaysExact(Init(sizes, maxScans), init) {
        ExactStepIff(Exec(Init(sizes, maxScans), init), acts[|acts| - 1]);
      }
    }
  }

  /** In such a run the tracked set is exactly the scans of the drones created and not yet terminal. */
  lemma TrackedExactly(sizes: Sizes, maxScans: int, acts: seq<Action>)
    requires NeverBreaks(Init(sizes, maxScans), acts)
    ensures var s := Exec(Init(sizes, maxScans), acts);
            s.drones.Keys == set d | 0 <= d < |s.pool| && !IsTerminal(s.pool[d].status) :: s.pool[d].scan
  {
    ExactIffNeverBreaks(sizes, maxScans, acts);
    var s := Exec(Init(sizes, maxScans), acts);
    assert Exact(s);
    forall k | k in s.drones
      ensures exists d :: 0 <= d < |s.pool| && !IsTerminal(s.pool[d].status) && s.pool[d].scan == k
    {
      assert s.pool[s.drones[k]].scan == k;
    }
  }

  /** A run of the second kind: a finished scan is started again, and the old drone's late ABORTED
      untracks the new, live one.  No start command ever came for a tracked scan. */
  lemma LateAbortUntracks(sizes: Sizes, maxScans: int) returns (acts: seq<Action>)
    requires maxScans > 0
    ensures acts == [CmdStart("a", true), Report(0, Finished), CmdStart("a", true), Report(0, Aborted)]
    ensures Exact(Exec(Init(sizes, maxScans), acts[..3]))
    ensures Exec(Init(sizes, maxScans), acts[..3]).drones == map["a" := 1]
    ensures var e := Exec(Init(sizes, maxScans), acts);
            e.drones == map[] && |e.pool| == 2 && !IsTerminal(e.pool[1].status)
  {
    acts := [CmdStart("a", true), Report(0, Finished), CmdStart("a", true), Report(0, Aborted)];
    LateAbortSteps(Init(sizes, maxScans));
    ExecFour(Init(sizes, maxScans), acts[0], acts[1], acts[2], acts[3]);
    assert acts[..3] == [acts[0], acts[1], acts[2]];
  }

  lemma LateAbortSteps(s: State)
    requires s.drones == map[] && s.pool == [] && s.maxScans > 0
    ensures var s3 := Step(Step(Step(s, CmdStart("a", true)), Report(0, Finished)), CmdStart("a", true));
            var s4 := Step(s3, Report(0, Aborted));
            && Exact(s3) && s3.drones == map["a" := 1]
            && s4.drones == map[] && |s4.pool| == 2 && !IsTerminal(s4.pool[1].status)
  {
    var s1 := AdmitsOne(s, "a");
    var s2 := Advance(s1, 0, Finished);
    assert s2.drones == map[];
    var s3 := AdmitsOne(s2, "a");
    assert Exact(s3) by {
      assert s3.pool[0].scan == "a" && IsTerminal(s3.pool[0].status) && s3.pool[1].scan == "a";
    }
    var s4 := Advance(s3, 0, Aborted);
  }

  lemma AdmitsOne(s: State, scan: string) returns (e: State)
    requires s.drones == map[] && s.maxScans > 0
    ensures e == Step(s, CmdStart(scan, true))
    ensures e.drones == map[scan := |s.pool|] && e.maxScans == s.maxScans
    ensures e.pool == s.pool + [DroneRec(scan, NotStarted, 0, false, FRESH_PIPE, FRESH_PIPE)]
  {
    e := StartScan(s, scan, true);
  }

  lemma Advance(s: State, d: nat, status: ScanStatus) returns (e: State)
    requires d < |s.pool| && IsTerminal(status) && Advances(s.pool[d].status, status)
    ensures e == Step(s, Report(d, status)) && e.maxScans == s.maxScans
    ensures e.drones == s.drones - {s.pool[d].scan} && e.pool == s.pool[d := s.pool[d].(status := status)]
  {
    AttemptPool(s, d, status);
    e := Attempt(s, d, status);
  }

  // ---------- what state_sync says ----------

  /** The limit the last set_max_scans command set. */
  function LimitInForce(maxScans: int, acts: seq<Action>): int {
    if acts == [] then maxScans
    else if acts[|acts| - 1].CmdSetMax? then acts[|acts| - 1].limit
    else LimitInForce(maxScans, acts[..|acts| - 1])
  }

  /** The notice tells the registry of s: its limit, what is left of it, and every tracked scan with its
      drone's status. */
  ghost predicate Tells(s: State, n: Notice) {
    && n.StateSync?
    && n.maxScans == s.maxScans && n.available == s.maxScans - |s.drones|
    && n.active.Keys == s.drones.Keys
    && forall k | k in s.drones :: s.drones[k] < |s.pool| && n.active[k] == s.pool[s.drones[k]].status
  }

  lemma SnapshotTells(s: State)
    requires Agrees(s.drones, s.pool)
    ensures Tells(s, Snapshot(s))
  {
    assert Snapshot(s).active.Keys == s.drones.Keys;
  }

  /** A state_sync is posted by the periodic loop, on connect, and by set_max_scans, and tells the
      registry as it then is, with the limit then in force. */
  lemma SyncTellsRegistry(sizes: Sizes, maxScans: int, acts: seq<Action>, a: Action)
    requires a.SyncState? || a.CmdSetMax?
    ensures var s := Exec(Init(sizes, maxScans), acts);
            var e := Step(s, a);
            && |e.tasks| == |s.tasks| + 1 && e.tasks[|s.tasks|].Posting?
            && e.drones == s.drones && e.pool == s.pool
            && var n := e.tasks[|s.tasks|].notice;
               && n.StateSync?
               && n.maxScans == LimitInForce(maxScans, acts + [a])
               && n.available == LimitInForce(maxScans, acts + [a]) - |s.drones|
               && n.active.Keys == s.drones.Keys
               && forall k | k in s.drones :: s.drones[k] < |s.pool| && n.active[k] == s.pool[s.drones[k]].status
  {
    var s := Exec(Init(sizes, maxScans), acts);
    RegistryAgreement(sizes, maxScans, acts);
    LimitRun(sizes, maxScans, acts + [a]);
    ExecAppend(Init(sizes, maxScans), acts, a);
    SnapshotTells(if a.CmdSetMax? then s.(maxScans := a.limit) else s);
  }

  lemma {:induction false} LimitRun(sizes: Sizes, maxScans: int, acts: seq<Action>)
    ensures Exec(Init(sizes, maxScans), acts).maxScans == LimitInForce(maxScans, acts)
  {
    if acts != [] {
      LimitRun(sizes, maxScans, acts[..|acts| - 1]);
      RegistryAgreement(sizes, maxScans, acts[..|acts| - 1]);
      LimitStep(Exec(Init(sizes, maxScans), acts[..|acts| - 1]), acts[|acts| - 1]);
    }
  }

  /** Some moment of the run was as the notice tells. */
  ghost predicate WasTrue(init: State, acts: seq<Action>, n: Notice) {
    exists k :: 0 <= k <= |acts| && Tells(Exec(init, acts[..k]), n)
  }

  ghost predicate SyncsTrue(init: State, acts: seq<Action>, s: State) {
    && (forall t | t in s.tasks && t.Posting? && t.notice.StateSync? :: WasTrue(init, acts, t.notice))
    && (forall m | m in s.wire && m.Critical? && m.notice.StateSync? :: WasTrue(init, acts, m.notice))
  }

  lemma StillWasTrue(init: State, acts: seq<Action>, a: Action, n: Notice)
    requires WasTrue(init, acts, n)
    ensures WasTrue(init, acts + [a], n)
  {
    var k :| 0 <= k <= |acts| && Tells(Exec(init, acts[..k]), n);
    assert (acts + [a])[..k] == acts[..k];
  }

  lemma NowTrue(init: State, acts: seq<Action>, n: Notice)
    requires Tells(Exec(init, acts), n)
    ensures WasTrue(init, acts, n)
  {
    assert acts[..|acts|] == acts;
  }

  /** Where the state_syncs of a state come from: they were there, or the step posts one. */
  lemma SyncsOfStep(s: State, a: Action)
    requires RegistryInv(s)
    ensures var e := Step(s, a);
            && (forall t | t in e.tasks && t.Posting? && t.notice.StateSync? ::
                  t in s.tasks || ((a.SyncState? || a.CmdSetMax?) && Tells(e, t.notice)))
            && (forall m | m in e.wire && m.Critical? && m.notice.StateSync? ::
                  m in s.wire || Posting(m.notice) in s.tasks)
  {
    if Enabled(s, a) {
      match a
      case CmdStart(scan, _) => HandlerPosts(s, scan, Failed);
      case Report(d, status) =>
        HandlerPosts(s.(pool := s.pool[d := s.pool[d].(status := status)]), s.pool[d].scan, status);
      case CmdSetMax(limit) => SnapshotTells(s.(maxScans := limit));
      case SyncState => SnapshotTells(s);
      case BeginFlush(kind) => ResumePostsStatus(s.sizes, s.store, OfKind(s.store.order, kind), Nothing);
      case SendOk(i) => SendPosts(s, i);
      case SendFail(i) => SendPosts(s, i);
      case _ =>
    }
  }

  lemma HandlerPosts(s: State, scan: string, status: ScanStatus)
    ensures var e := HandleStatus(s, scan, status);
            && e.wire == s.wire
            && forall t | t in e.tasks && t.Posting? && t.notice.StateSync? :: t in s.tasks
  {
    ResumePostsStatus(s.sizes, s.store, OfKind(s.store.order, Events), ThenLogs(scan, status));
  }

  lemma SendPosts(s: State, i: nat)
    requires i < |s.tasks| && !s.tasks[i].Idle?
    ensures forall t | t in SendReturns(s, i).tasks && t.Posting? && t.notice.StateSync? :: t in s.tasks
    ensures forall t | t in SendRaises(s, i).tasks && t.Posting? && t.notice.StateSync? :: t in s.tasks
    ensures forall m | m in SendReturns(s, i).wire && m.Critical? && m.notice.StateSync? ::
              m in s.wire || Posting(m.notice) in s.tasks
  {
    var t := s.tasks[i];
    assert t in s.tasks;
    if t.Sending? {
      ResumePostsStatus(s.sizes, s.store, t.keys, t.after);
      ResumePostsStatus(s.sizes, Put(s.store, t.cur, t.batch + t.rest), t.keys, t.after);
    }
  }

  /** Every state_sync on the wire, or on its way, told the registry as it was at some moment of the run. */
  lemma {:induction false} SyncsWereTrue(sizes: Sizes, maxScans: int, acts: seq<Action>)
    ensures SyncsTrue(Init(sizes, maxScans), acts, Exec(Init(sizes, maxScans), acts))
  {
    var init := Init(sizes, maxScans);
    if acts != [] {
      var before, a := acts[..|acts| - 1], acts[|acts| - 1];
      var s, e := Exec(init, before), Exec(init, acts);
      SyncsWereTrue(sizes, maxScans, before);
      RegistryAgreement(sizes, maxScans, before);
      SyncsOfStep(s, a);
      assert acts == before + [a];
      forall n: Notice | WasTrue(init, before, n) || Tells(e, n)
        ensures WasTrue(init, acts, n)
      {
        if WasTrue(init, before, n) {
          StillWasTrue(init, before, a, n);
        } else {
          NowTrue(init, acts, n);
        }
      }
    }
  }

  // ---------- capacity under a moving limit ----------

  /** The largest limit that has been in force. */
  function PeakLimit(maxScans: int, acts: seq<Action>): int {
    if acts == [] then maxScans
    else
      var before := PeakLimit(maxScans, acts[..|acts| - 1]);
      var a := acts[|acts| - 1];
      if a.CmdSetMax? && a.limit > before then a.limit else before
  }

  lemma CountStep(s: State, a: Action)
    requires RegistryInv(s)
    ensures |Step(s, a).drones| <= |s.drones| || (|Step(s, a).drones| == |s.drones| + 1 && |s.drones| < s.maxScans)
    ensures Step(s, a).maxScans == if a.CmdSetMax? then a.limit else s.maxScans
  {
    var e := Step(s, a);
    PoolStep(s, a);
    LimitStep(s, a);
    if |e.pool| == |s.pool| && e.drones != s.drones {
      var k :| e.drones == s.drones - {k};
      FewerKeys(s.drones, k);
    }
  }

  lemma LimitStep(s: State, a: Action)
    requires RegistryInv(s)
    ensures Step(s, a).maxScans == if a.CmdSetMax? then a.limit else s.maxScans
  {
  }

  lemma FewerKeys(m: map<string, nat>, k: string)
    ensures |m - {k}| <= |m|
  {
    assert (m - {k}).Keys <= m.Keys;
    FewerElements((m - {k}).Keys, m.Keys);
    assert |m - {k}| == |(m - {k}).Keys| && |m| == |m.Keys|;
  }

  /** The number of tracked scans never exceeds the largest limit that has been in force. */
  lemma {:induction false} CapacityHolds(sizes: Sizes, maxScans: nat, acts: seq<Action>)
    ensures |Exec(Init(sizes, maxScans), acts).drones| <= PeakLimit(maxScans, acts)
    ensures Exec(Init(sizes, maxScans), acts).maxScans <= PeakLimit(maxScans, acts)
  {
    if acts != [] {
      var init := acts[..|acts| - 1];
      CapacityHolds(sizes, maxScans, init);
      RegistryAgreement(sizes, maxScans, init);
      CountStep(Exec(Init(sizes, maxScans), init), acts[|acts| - 1]);
    }
  }

  /** While the limit stands, a count at or above it never grows, and a count below it never passes it. */
  lemma {:induction false} NoGrowthAtLimit(s: State, acts: seq<Action>)
    requires RegistryInv(s)
    requires forall a | a in acts :: !a.CmdSetMax?
    ensures Exec(s, acts).maxScans == s.maxScans && RegistryInv(Exec(s, acts))
    ensures |Exec(s, acts).drones| <= |s.drones| || |Exec(s, acts).drones| <= s.maxScans
  {
    if acts != [] {
      NoGrowthAtLimit(s, acts[..|acts| - 1]);
      RegistryStep(Exec(s, acts[..|acts| - 1]), acts[|acts| - 1]);
      CountStep(Exec(s, acts[..|acts| - 1]), acts[|acts| - 1]);
    }
  }
}
