/** cgroup.py: scan ids and directory names, reaping, drain polling, and the reclaiming of
    directories, as methods over a host whose processes and clock move while the bee sleeps. */
module Cgroup {
  import opened Kernel
  import opened Sets

  // ---------- scan ids and directory names ----------

  predicate Allowed(c: char) {
    'A' <= c <= 'Z' || 'a' <= c <= 'z' || '0' <= c <= '9' || c == '_' || c == '-'
  }

  predicate AllowedWord(s: string) {
    1 <= |s| <= 64 && forall i | 0 <= i < |s| :: Allowed(s[i])
  }

  /** What re.match with a closing `$` accepts: an allowed word, or one followed by a newline. */
  predicate ValidScanId(s: string) {
    || AllowedWord(s)
    || (|s| >= 1 && s[|s| - 1] == '\n' && AllowedWord(s[..|s| - 1]))
  }

  const PREFIX := "scan_"

  function DirName(scanId: string): string {
    PREFIX + scanId
  }

  predicate IsScanDir(name: string) {
    PREFIX <= name
  }

  /** Distinct scans never share a directory, and each directory is a direct, recoverable child of
      the parent: its name holds no path separator, is no dot entry and carries the prefix. */
  lemma DirNameIsInjectiveChild(a: string, b: string)
    requires ValidScanId(a)
    ensures DirName(a) == DirName(b) ==> a == b
    ensures '/' !in DirName(a) && DirName(a) != "." && DirName(a) != ".."
    ensures IsScanDir(DirName(a)) && "scan_" <= DirName(a) && |DirName(a)| <= 70
  {
    assert DirName(a)[|PREFIX|..] == a && DirName(b)[|PREFIX|..] == b;
    forall i | 0 <= i < |a|
      ensures a[i] != '/'
    {
      if i < |a| - 1 && !AllowedWord(a) {
        assert a[i] == a[..|a| - 1][i];
      }
    }
    assert DirName(a)[0] == 's';
  }

  /** The pattern is not the pure allowlist its comment claims: a trailing newline passes. */
  lemma TrailingNewlinePasses(word: string)
    requires AllowedWord(word)
    ensures ValidScanId(word + "\n") && !AllowedWord(word + "\n")
  {
    assert (word + "\n")[..|word|] == word;
    assert (word + "\n")[|word|] == '\n';
  }

  /** Among the accepted ids, the newline is all that the allowlist would keep out. */
  lemma AllowedIffNoNewline(s: string)
    requires ValidScanId(s)
    ensures AllowedWord(s) <==> '\n' !in s
  {
    if AllowedWord(s) {
      assert forall i | 0 <= i < |s| :: s[i] != '\n';
    } else {
      assert s[|s| - 1] == '\n';
    }
  }

  // ---------- the host ----------

  const POLL_INTERVAL: nat := 50

  function CeilDiv(n: int, d: nat): nat
    requires d > 0
  {
    if n <= 0 then 0 else (n + d - 1) / d
  }

  /** What happens during one sleep of the bee: how much longer than asked it takes, and what
      processes do meanwhile. */
  datatype Nap = Nap(extra: nat, events: seq<Event>)

  datatype WaitResult = Reaped(pid: Pid) | NoneReady | ChildProcessError

  lemma ReapOne(t: Table, p: Pid)
    requires p in ZombieChildren(t)
    ensures t - {p} == Happen(t, Reap(p))
    ensures ZombieChildren(t - {p}) == ZombieChildren(t) - {p}
  {
  }

  /** Reaping zombie children one after the other. */
  lemma {:induction false} ReapsAll(t: Table, gone: set<Pid>) returns (events: seq<Event>)
    requires gone <= ZombieChildren(t)
    ensures Run(t, events) == t - gone
    decreases |gone|
  {
    if gone == {} {
      events := [];
    } else {
      var p :| p in gone;
      var first := ReapsAll(t, gone - {p});
      ReapOne(t - (gone - {p}), p);
      RunAppend(t, first, Reap(p));
      events := first + [Reap(p)];
    }
  }

  class Host {
    var procs: Table
    var dirs: set<string>          // sub-directories of the parent cgroup
    const files: set<string>       // its other entries
    const unkillable: set<string>  // directories whose cgroup.kill write the OS refuses
    const stuck: set<string>       // directories whose rmdir the OS refuses for other reasons
    var now: nat                   // monotonic(), in milliseconds
    var naps: seq<Nap>             // the environment, sleep by sleep
    ghost var polls: nat           // how often a drain has read the cgroup

    constructor (procs: Table, dirs: set<string>, files: set<string>,
                 unkillable: set<string>, stuck: set<string>, naps: seq<Nap>)
      ensures this.procs == procs && this.dirs == dirs && this.files == files
      ensures this.unkillable == unkillable && this.stuck == stuck && this.naps == naps
      ensures now == 0 && polls == 0
    {
      this.procs, this.dirs, this.files, this.naps := procs, dirs, files, naps;
      this.unkillable, this.stuck := unkillable, stuck;
      now, polls := 0, 0;
    }

    /** waitpid(-1, WNOHANG). */
    method WaitPid() returns (r: WaitResult)
      modifies this`procs
      ensures r.Reaped? <==> ZombieChildren(old(procs)) != {}
      ensures r.Reaped? ==> r.pid in ZombieChildren(old(procs)) && procs == old(procs) - {r.pid}
      ensures !r.Reaped? ==> procs == old(procs)
    {
      var ready := ZombieChildren(procs);
      if ready == {} {
        return if Children(procs) == {} then ChildProcessError else NoneReady;
      }
      var p :| p in ready;
      procs := procs - {p};
      return Reaped(p);
    }

    /** reap_zombies: exactly the zombie children go, and the loop ends. */
    method ReapZombies() returns (reaped: nat)
      modifies this`procs
      ensures procs == old(procs) - ZombieChildren(old(procs))
      ensures reaped == |ZombieChildren(old(procs))|
      ensures exists events :: procs == Run(old(procs), events)
    {
      reaped := 0;
      ghost var before, gone: set<Pid> := procs, {};
      while true
        invariant gone <= ZombieChildren(before) && |gone| == reaped
        invariant procs == before - gone
        invariant ZombieChildren(procs) == ZombieChildren(before) - gone
        decreases |ZombieChildren(before) - gone|
      {
        ghost var now := procs;
        var r := WaitPid();
        if !r.Reaped? {
          break;
        }
        ReapOne(now, r.pid);
        gone := gone + {r.pid};
        reaped := reaped + 1;
      }
      ghost var events := ReapsAll(before, gone);
    }

    /** time.sleep(interval): the clock moves at least that far, and processes run. */
    method Sleep(interval: nat)
      modifies this`now, this`naps, this`procs
      ensures now >= old(now) + interval
      ensures exists events :: procs == Run(old(procs), events)
    {
      if naps == [] {
        now := now + interval;
        assert procs == Run(old(procs), []);
      } else {
        now := now + interval + naps[0].extra;
        procs := Run(procs, naps[0].events);
        naps := naps[1..];
      }
    }

    /** cgroup.events says populated 0, or the directory is gone. */
    predicate Drained(dir: string)
      reads this`procs, this`dirs
    {
      dir !in dirs || Members(procs, dir) == {}
    }

    /** _wait_cgroup_drained: poll until empty or timeout, reaping before every read.  True only on an
        observation of emptiness or absence, with every zombie child of the bee reaped; False only
        after the timeout; never more polls than fit into it.  If the members are all zombie
        children of the bee already, the first poll succeeds without a sleep. */
    method WaitDrained(dir: string, timeout: int) returns (drained: bool)
      modifies this`procs, this`now, this`naps, this`polls
      ensures drained ==> Drained(dir) && ZombieChildren(procs) == {}
      ensures !drained ==> now >= old(now) + timeout
      ensures now >= old(now)
      ensures polls - old(polls) <= CeilDiv(timeout, 50)
      ensures exists events :: procs == Run(old(procs), events)
      ensures timeout > 0 && (dir in dirs ==> Members(old(procs), dir) <= ZombieChildren(old(procs))) ==>
                && drained && now == old(now) && polls == old(polls) + 1
                && procs == old(procs) - ZombieChildren(old(procs))
    {
      ghost var start, before, polled := now, procs, polls;
      var deadline := now + timeout;
      ghost var events: seq<Event> := [];
      while now < deadline
        invariant now - start >= POLL_INTERVAL * (polls - polled)
        invariant polls >= polled && polls - polled <= CeilDiv(timeout, POLL_INTERVAL)
        invariant procs == Run(before, events)
        invariant polls == polled ==> procs == before && now == start
        invariant polls > polled && timeout > 0 ==> dir in dirs && !(Members(before, dir) <= ZombieChildren(before))
        decreases deadline - now
      {
        ghost var head, unreaped := events, procs;
        var _ := ReapZombies();
        ghost var reaps :| procs == Run(unreaped, reaps);
        RunConcat(before, head, reaps);
        polls := polls + 1;
        if Drained(dir) {
          return true;
        }
        ghost var reaped := procs;
        Sleep(POLL_INTERVAL);
        ghost var slept :| procs == Run(reaped, slept);
        RunConcat(before, head + reaps, slept);
        events := head + reaps + slept;
      }
      return false;
    }

    /** ScanCgroup.kill: the number of members at the time, 0 if there was nothing to write to. */
    method Kill(dir: string) returns (count: nat)
      modifies this`procs
      ensures dir in dirs && dir !in unkillable ==>
                procs == KillAll(old(procs), dir) && Still(procs, dir) && count == |Members(old(procs), dir)|
      ensures dir !in dirs || dir in unkillable ==> procs == old(procs) && count == 0
    {
      if dir !in dirs {
        return 0;
      }
      count := |Members(procs, dir)|;
      if dir in unkillable {
        return 0;
      }
      procs := KillAll(procs, dir);
    }

    /** rmdir, as the kernel answers it. */
    method Rmdir(dir: string) returns (ok: bool)
      modifies this`dirs
      ensures ok <==> dir in old(dirs) && Members(procs, dir) == {} && dir !in stuck
      ensures dirs == if ok then old(dirs) - {dir} else old(dirs)
    {
      ok := dir in dirs && Members(procs, dir) == {} && dir !in stuck;
      if ok {
        dirs := dirs - {dir};
      }
    }

    /** Kill a scan's cgroup, wait for it to drain, remove it: nobody runs in it any more, cgroups that
        were still stay so, and nobody outside it is killed. */
    method Sweep(dir: string, timeout: int) returns (drained: bool, removed: bool)
      modifies this`procs, this`dirs, this`now, this`naps, this`polls
      ensures removed <==> dir in old(dirs) && Members(procs, dir) == {} && dir !in stuck
      ensures dirs == if removed then old(dirs) - {dir} else old(dirs)
      ensures drained ==> Drained(dir)
      ensures !drained ==> now >= old(now) + timeout
      ensures now >= old(now)
      ensures dir in old(dirs) && dir !in unkillable ==> Still(procs, dir)
      ensures forall d | Still(old(procs), d) :: Still(procs, d)
      ensures KilledOnlyIn(old(procs), procs, d => d == dir)
      ensures timeout > 0 && Settled(old(procs)) && IsScanDir(dir) ==> Settled(procs) && Members(procs, dir) == {}
    {
      ghost var before := procs;
      var _ := Kill(dir);
      ghost var killed := procs;
      if dir in dirs && dir !in unkillable {
        KillAllKills(before, dir, d => d == dir);
      }
      if Settled(before) && IsScanDir(dir) {
        KillOfSettled(before, dir);
      }
      drained := WaitDrained(dir, timeout);
      ghost var events :| procs == Run(killed, events);
      StaysStill(killed, events);
      RunKillsNobody(killed, events, d => d == dir);
      removed := Rmdir(dir);
    }

    /** What the monitor does to the cgroup of a process that has exited: kill, wait, remove, reap.
        No member runs any more and nobody else was killed.  The directory is gone, or still there to
        be recovered; if the drain succeeded it is gone unless the OS refused for a reason of its own. */
    method TearDown(dir: string) returns (drained: bool)
      requires IsScanDir(dir)
      modifies this`procs, this`dirs, this`now, this`naps, this`polls
      ensures dirs == old(dirs) - {dir} || (dirs == old(dirs) && dir in dirs && IsScanDir(dir))
      ensures drained && dir !in stuck ==> dir !in dirs
      ensures !drained ==> now >= old(now) + 10000
      ensures dir in old(dirs) && dir !in unkillable ==> Still(procs, dir)
      ensures KilledOnlyIn(old(procs), procs, d => d == dir)
    {
      ghost var before := procs;
      var removed;
      drained, removed := Sweep(dir, 10000);
      ghost var swept := procs;
      var _ := ReapZombies();
      ghost var events :| procs == Run(swept, events);
      StaysStill(swept, events);
      RunKillsNobody(swept, events, d => d == dir);
    }

    /** One orphan directory: kill, wait up to two seconds, remove. */
    method RecoverOne(child: string) returns (removed: bool)
      requires child in dirs && IsScanDir(child)
      modifies this`procs, this`dirs, this`now, this`naps, this`polls
      ensures dirs == if removed then old(dirs) - {child} else old(dirs)
      ensures removed ==> child !in stuck
      ensures now >= old(now) + if removed || child in stuck then 0 else 2000
      ensures child !in unkillable ==> Still(procs, child)
      ensures forall d | Still(old(procs), d) :: Still(procs, d)
      ensures KilledOnlyIn(old(procs), procs, d => d == child)
      ensures Settled(old(procs)) ==> Settled(procs) && (removed || child in stuck)
    {
      var drained;
      drained, removed := Sweep(child, 2000);
    }

    /** recover_orphan_cgroups.  Only scan directories are touched and exactly the returned number is
        removed.  A scan directory that stays was refused by the OS, or held live members for its
        whole two-second drain; if every process left in scan cgroups is a zombie child of the
        bee, none stays that the OS does not refuse.  Nobody runs any more in a scan directory found
        there, removed or not, unless the OS refused the kill, and nobody outside was killed. */
    method RecoverOrphans() returns (recovered: nat)
      modifies this`procs, this`dirs, this`now, this`naps, this`polls
      ensures dirs <= old(dirs) && recovered == |old(dirs) - dirs|
      ensures forall d | d in old(dirs) - dirs :: IsScanDir(d) && d !in stuck
      ensures now >= old(now) + 2000 * |set d | d in dirs && IsScanDir(d) && d !in stuck|
      ensures Settled(old(procs)) ==> forall d | d in dirs && IsScanDir(d) :: d in stuck
      ensures forall d | d in old(dirs) && IsScanDir(d) && d !in unkillable :: Still(procs, d)
      ensures KilledOnlyIn(old(procs), procs, IsScanDir)
    {
      recovered := 0;
      var todo := dirs + files;
      ghost var leaked: set<string>, gone: set<string> := {}, {};
      while todo != {}
        invariant gone <= old(dirs) && dirs == old(dirs) - gone && recovered == |gone|
        invariant forall d | d in gone :: IsScanDir(d) && d !in stuck && d !in todo
        invariant forall d | d in dirs && IsScanDir(d) && d !in stuck :: d in todo || d in leaked
        invariant now >= old(now) + 2000 * |leaked|
        invariant leaked !! todo
        invariant forall d | d in old(dirs) && IsScanDir(d) && d !in unkillable && d !in todo :: Still(procs, d)
        invariant KilledOnlyIn(old(procs), procs, IsScanDir)
        invariant Settled(old(procs)) ==> Settled(procs) && leaked == {}
        decreases |todo|
      {
        var child :| child in todo;
        todo := todo - {child};
        if child in dirs && IsScanDir(child) {
          ghost var running := procs;
          var removed := RecoverOne(child);
          KilledOnlyInEither(old(procs), running, procs, child, IsScanDir);
          if removed {
            gone := gone + {child};
            recovered := recovered + 1;
          } else if child !in stuck {
            leaked := leaked + {child};
          }
        }
      }
      assert old(dirs) - dirs == gone;
      FewerElements((set d | d in dirs && IsScanDir(d) && d !in stuck), leaked);
    }
  }

  /** Every process left in a scan cgroup is a zombie waiting for the bee to reap it. */
  predicate Settled(t: Table) {
    forall p | p in t && IsScanDir(t[p].home) :: p in ZombieChildren(t)
  }

  lemma KillOfSettled(t: Table, dir: string)
    requires Settled(t) && IsScanDir(dir)
    ensures KillAll(t, dir) == t
    ensures Members(t, dir) <= ZombieChildren(t)
  {
    assert forall p | p in t && t[p].home == dir :: t[p].life.Zombie?;
  }

  lemma StaysStill(t: Table, events: seq<Event>)
    ensures forall d | Still(t, d) :: Still(Run(t, events), d)
  {
    forall d | Still(t, d)
      ensures Still(Run(t, events), d)
    {
      StillForever(t, d, events);
    }
  }
}
