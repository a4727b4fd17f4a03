/** What a drone's reports make of the queen's record of it, in any run of the queen. */
module DroneInQueen {
  import opened Statuses
  import opened QueenMachine
  import QueenRegistry

  /** The statuses reported for drone d, in order, whatever happens in between. */
  function ReportsOf(s: State, acts: seq<Action>, d: nat): seq<ScanStatus> {
    if acts == [] then []
    else
      var init, a := acts[..|acts| - 1], acts[|acts| - 1];
      ReportsOf(s, init, d) + if a.Report? && a.d == d && Enabled(Exec(s, init), a) then [a.status] else []
  }

  /** Those among them whose callback the queen ran: one status handler each. */
  function CallbacksOf(s: State, acts: seq<Action>, d: nat): seq<ScanStatus> {
    if acts == [] then []
    else
      var init, a := acts[..|acts| - 1], acts[|acts| - 1];
      var before := Exec(s, init);
      CallbacksOf(s, init, d)
      + if a.Report? && a.d == d && Enabled(before, a) && |Step(before, a).tasks| > |before.tasks|
        then [a.status] else []
  }

  /** The status of drone d and the size of the pool after one step. */
  lemma StatusStep(s: State, a: Action, d: nat)
    requires d < |s.pool|
    ensures d < |Step(s, a).pool|
    ensures Step(s, a).pool[d].status ==
            if a.Report? && a.d == d then Ratchet(s.pool[d].status, a.status) else s.pool[d].status
    ensures Step(s, a).pool[d].scan == s.pool[d].scan
    ensures a.Report? && a.d == d ==>
              |Step(s, a).tasks| == |s.tasks| + if Advances(s.pool[d].status, a.status) then 1 else 0
  {
    if Enabled(s, a) {
      match a
      case CmdStart(scan, _) => QueenRegistry.HandleDrones(s, scan, Failed);
      case Report(c, status) => QueenRegistry.AttemptPool(s, c, status);
      case _ => QueenRegistry.OtherPool(s, a);
    }
  }

  lemma PoolGrows(s: State, a: Action, d: nat)
    requires |s.pool| <= d < |Step(s, a).pool|
    ensures Step(s, a).pool[d].status == NotStarted && !a.Report?
  {
    QueenRegistry.PoolStep(s, a);
  }

  /** In any run of the queen, her record of a drone has the join of its reports as its status, she ran
      exactly the callbacks that beat all earlier ones, and she does not track a drone once one of
      its reports was terminal. */
  lemma {:induction false} QueenFollowsReports(sizes: Sizes, maxScans: int, acts: seq<Action>, d: nat)
    ensures var s, reports := Exec(Init(sizes, maxScans), acts), ReportsOf(Init(sizes, maxScans), acts, d);
            && (d >= |s.pool| ==> reports == [])
            && (d < |s.pool| ==> s.pool[d].status == Final(reports))
            && CallbacksOf(Init(sizes, maxScans), acts, d) == Announced(reports)
            && (IsTerminal(Final(reports)) ==> forall k | k in s.drones :: s.drones[k] != d)
  {
    var init := Init(sizes, maxScans);
    if acts != [] {
      var before, a := Exec(init, acts[..|acts| - 1]), acts[|acts| - 1];
      QueenFollowsReports(sizes, maxScans, acts[..|acts| - 1], d);
      var reports := ReportsOf(init, acts[..|acts| - 1], d);
      if d < |before.pool| {
        StatusStep(before, a, d);
        if a.Report? && a.d == d {
          FinalAppend(reports, a.status);
        }
      } else if d < |Step(before, a).pool| {
        PoolGrows(before, a, d);
      }
      assert reports + [] == reports && Announced(reports) + [] == Announced(reports);
    }
    QueenRegistry.RegistryAgreement(sizes, maxScans, acts);
  }
}
