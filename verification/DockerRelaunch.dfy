/**
 How many launches of a name the bound on live Docker workers allows: two, by DockerRoots;
 with three it fails, although each root cleans up only after itself. The run is put
 together from what one root does at a time.
 */
module DockerRelaunch {
  import opened DockerAdmission
  import opened DockerRoots
  import opened DockerRuns
  import opened HostBudget

  /** The launched process takes the lock. */
  lemma TakeLock(good: World -> bool, w: World, p: Proc, name: Name) returns (w': World)
    requires Closed(good, Working) && good(w)
    requires PcOf(w, p) == Launched(name) && w.lock == map[] && name !in w.reservations
    ensures good(w')
    ensures w' == w.(lock := map[0 := p], procs := w.procs[p := Listed(name, w.reservations.Keys)])
  {
    var w1 := Move(w.(lock := map[0 := p]), p, Locked(name));
    Reach(good, Working, w, Enter(p), w1);
    assert w1.procs[p] == Locked(name);
    w' := Move(w1, p, Listed(name, w.reservations.Keys));
    Reach(good, Working, w1, List(p), w');
    assert w'.procs == w.procs[p := Listed(name, w.reservations.Keys)];
  }

  lemma SeeNone(good: World -> bool, w: World, p: Proc, name: Name, reserved: set<Name>) returns (w': World)
    requires Closed(good, Working) && good(w)
    requires PcOf(w, p) == Listed(name, reserved) && name !in w.containers
    ensures good(w')
    ensures w' == w.(procs := w.procs[p := Absent(name, reserved)])
  {
    w' := Move(w, p, Absent(name, reserved));
    Reach(good, Working, w, InspectAbsent(p), w');
  }

  /** And sees that there is no container of its name. */
  lemma FindRoom(good: World -> bool, w: World, p: Proc, name: Name) returns (w': World)
    requires Closed(good, Working) && good(w)
    requires PcOf(w, p) == Launched(name) && w.lock == map[]
    requires name !in w.reservations && name !in w.containers
    ensures good(w')
    ensures w' == w.(lock := map[0 := p], procs := w.procs[p := Absent(name, w.reservations.Keys)])
  {
    var w1 := TakeLock(good, w, p, name);
    w' := SeeNone(good, w1, p, name, w.reservations.Keys);
    assert w'.procs == w.procs[p := Absent(name, w.reservations.Keys)];
  }

  /** It reserves its name and sends its create request. */
  lemma Ask(good: World -> bool, w: World, p: Proc, name: Name) returns (w': World)
    requires Closed(good, Working) && good(w)
    requires PcOf(w, p) == Launched(name) && w.lock == map[]
    requires name !in w.reservations && name !in w.containers
    requires |w.containers + w.reservations.Keys| < AUTHOR_LIMIT
    ensures good(w')
    ensures w' == w.(
      reservations := w.reservations[name := Creating], inflight := w.inflight + {name},
      lock := map[0 := p], procs := w.procs[p := Sent(name)])
  {
    var w3 := FindRoom(good, w, p, name);
    var w4 := Move(w3, p, Counted(name, w.reservations.Keys, w.containers));
    Reach(good, Working, w3, Count(p), w4);
    var w5 := Move(w4.(reservations := w.reservations[name := Creating]), p, Reserved(name));
    Reach(good, Working, w4, Reserve(p), w5);
    w' := Move(w5.(inflight := w.inflight + {name}), p, Sent(name));
    Reach(good, Working, w5, Send(p), w');
  }

  /** The request lands, is answered, and the reservation becomes `.created`. */
  lemma Admit(good: World -> bool, w: World, p: Proc, name: Name) returns (w': World)
    requires Closed(good, Working) && good(w)
    requires PcOf(w, p) == Launched(name) && w.lock == map[]
    requires name !in w.reservations && name !in w.containers && name !in w.inflight
    requires |w.containers + w.reservations.Keys| < AUTHOR_LIMIT
    ensures good(w')
    ensures w' == w.(
      reservations := w.reservations[name := Created], containers := w.containers + {name},
      landed := w.landed + {name}, procs := w.procs[p := Idle])
  {
    var w1 := Ask(good, w, p, name);
    var w2 := Answer(good, w1, p, name);
    assert w2.inflight == w.inflight;
    w' := Settle(good, w2, p, name);
    assert w'.reservations == w.reservations[name := Created];
    assert w'.procs == w.procs[p := Idle];
    assert w'.lock == w.lock;
  }

  lemma Settle(good: World -> bool, w: World, p: Proc, name: Name) returns (w': World)
    requires Closed(good, Working) && good(w)
    requires PcOf(w, p) == Replied(name) && name in w.reservations && w.lock == map[0 := p]
    ensures good(w')
    ensures w' == w.(reservations := w.reservations[name := Created], lock := map[], procs := w.procs[p := Idle])
  {
    var w1 := Move(w.(reservations := w.reservations[name := Created]), p, Renamed(name));
    Reach(good, Working, w, Rename(p), w1);
    w' := Move(w1.(lock := map[]), p, Idle);
    Reach(good, Working, w1, Leave(p), w');
    assert w'.procs == w.procs[p := Idle];
  }

  lemma Answer(good: World -> bool, w: World, p: Proc, name: Name) returns (w': World)
    requires Closed(good, Working) && good(w)
    requires PcOf(w, p) == Sent(name) && name in w.inflight && name !in w.containers
    ensures good(w')
    ensures w' == w.(
      inflight := w.inflight - {name}, containers := w.containers + {name},
      landed := w.landed + {name}, procs := w.procs[p := Replied(name)])
  {
    var w1 := w.(inflight := w.inflight - {name}, containers := w.containers + {name}, landed := w.landed + {name});
    Reach(good, Working, w, Land(name), w1);
    w' := Move(w1, p, Replied(name));
    Reach(good, Working, w1, Reply(p), w');
  }

  /** A cleanup takes the admission lock and decides about the reservation. */
  lemma Decide(good: World -> bool, w: World, p: Proc, name: Name, quiet: bool, observed: bool)
    returns (w': World)
    requires Closed(good, Working) && good(w)
    requires PcOf(w, p) == Unreleased(name, quiet, observed) && w.lock == map[]
    requires name in w.reservations && (w.reservations[name].Created? || observed)
    ensures good(w')
    ensures w' == w.(reservations := w.reservations - {name}, procs := w.procs[p := Cleaned(name, quiet, true)])
  {
    var w1 := Move(w.(lock := map[0 := p]), p, Releasing(name, quiet, observed));
    Reach(good, Working, w, EnterRelease(p), w1);
    w' := Move(w1.(lock := map[], reservations := w.reservations - {name}), p, Cleaned(name, quiet, true));
    Reach(good, Working, w1, Release(p), w');
    assert w'.procs == w.procs[p := Cleaned(name, quiet, true)];
  }

  /** A cleanup sees the container and removes it. */
  lemma RemoveSeen(good: World -> bool, w: World, p: Proc, name: Name, quiet: bool)
    returns (w': World)
    requires Closed(good, Working) && good(w)
    requires PcOf(w, p) == Cleaning(name, quiet) && name in w.containers
    ensures good(w')
    ensures w' == w.(containers := w.containers - {name}, procs := w.procs[p := Unreleased(name, quiet, true)])
  {
    var w1 := Move(w, p, Seen(name, quiet));
    Reach(good, Working, w, InspectSeen(p), w1);
    var w2 := Move(w1.(containers := w.containers - {name}), p, Removed(name, quiet));
    Reach(good, Working, w1, Remove(p), w2);
    w' := Move(w2, p, Unreleased(name, quiet, true));
    Reach(good, Working, w2, InspectGone(p), w');
    assert w'.procs == w.procs[p := Unreleased(name, quiet, true)];
  }

  /** The owner of the lock dies. */
  lemma Die(good: World -> bool, w: World, p: Proc) returns (w': World)
    requires Closed(good, Working) && good(w) && w.lock == map[0 := p]
    ensures good(w')
    ensures w' == w.(lock := map[], procs := w.procs[p := Idle])
  {
    w' := Move(w.(lock := map[]), p, Idle);
    Reach(good, Working, w, Stop(p), w');
  }

  /** A launch dies right after it sent its create request. */
  lemma DieAsking(good: World -> bool, w: World, p: Proc, name: Name) returns (w': World)
    requires Closed(good, Working) && good(w)
    requires PcOf(w, p) == Launched(name) && w.lock == map[]
    requires name !in w.reservations && name !in w.containers
    requires |w.containers + w.reservations.Keys| < AUTHOR_LIMIT
    ensures good(w')
    ensures w' == w.(reservations := w.reservations[name := Creating], inflight := w.inflight + {name},
                     procs := w.procs[p := Idle])
  {
    var w1 := Ask(good, w, p, name);
    w' := Die(good, w1, p);
    assert w'.procs == w.procs[p := Idle];
  }

  // ---------------------------------------------------------------- runs with several roots

  /** Reached in a run in which each name is launched at most `k` times. */
  ghost predicate RootsReach(r: Rooted, k: nat) {
    exists rs :: DockerRoots.Run(rs, k) && rs[|rs| - 1] == r
  }

  lemma RootsReachMore(r: Rooted, k: nat, e: Event)
    requires RootsReach(r, k) && Can(r, e, k)
    ensures RootsReach(After(r, e), k)
  {
    var rs :| DockerRoots.Run(rs, k) && rs[|rs| - 1] == r;
    var longer := rs + [After(r, e)];
    forall i: nat | i + 1 < |longer| ensures StepAt(longer, i, k) {
      if i + 1 < |rs| {
        assert StepAt(rs, i, k);
        var d: Event :| Can(rs[i], d, k) && rs[i + 1] == After(rs[i], d);
        assert Can(longer[i], d, k) && longer[i + 1] == After(longer[i], d);
      } else {
        assert Can(longer[i], e, k) && longer[i + 1] == After(longer[i], e);
      }
    }
    assert longer[|longer| - 1] == After(r, e);
  }

  /** What the roots do within a launch or a cleanup leads from reachable worlds to reachable worlds. */
  lemma RootsClosed(roots: map<Proc, Name>, k: nat)
    ensures Closed(w => RootsReach(Rooted(w, roots, {}), k), Working)
  {
    var good := w => RootsReach(Rooted(w, roots, {}), k);
    forall w: World, e: Event | good(w) && Enabled(w, e) && Allows(Working, w, e) ensures good(Effect(w, e)) {
      RootsReachMore(Rooted(w, roots, {}), k, e);
    }
  }

  /** One more root launches a name. */
  lemma NextRoot(r: Rooted, k: nat, p: Proc, name: Name) returns (r': Rooted)
    requires RootsReach(r, k) && r.past == {}
    requires PcOf(r.w, p).Idle? && p !in r.roots && |Launches(r, name)| < k
    ensures RootsReach(r', k)
    ensures r' == Rooted(
      r.w.(launched := r.w.launched[name := p], procs := r.w.procs[p := Launched(name)]), r.roots[p := name], {})
  {
    RootsReachMore(r, k, Launch(p, name));
    r' := After(r, Launch(p, name));
  }

  /** A root begins the cleanup of its own name. */
  lemma OwnCleanup(r: Rooted, k: nat, p: Proc, name: Name) returns (r': Rooted, quiet: bool)
    requires RootsReach(r, k) && r.w.lock == map[]
    requires p in r.roots && r.roots[p] == name && name in r.w.launched
    requires PcOf(r.w, p) in {Idle, Launched(name)}
    ensures RootsReach(r', k)
    ensures r' == r.(w := r.w.(procs := r.w.procs[p := Cleaning(name, quiet)]))
  {
    RootsReachMore(r, k, StartCleanup(p, name));
    quiet := !LaunchingOther(r.w, p, name);
    r' := After(r, StartCleanup(p, name));
    assert r'.w.lock == r.w.lock;
  }

  /** A root that is launching gets its container. */
  lemma AdmitLaunched(r: Rooted, k: nat, p: Proc, name: Name) returns (r': Rooted)
    requires RootsReach(r, k) && r.past == {} && r.w.lock == map[] && PcOf(r.w, p) == Launched(name)
    requires name !in r.w.reservations && name !in r.w.containers && name !in r.w.inflight
    requires |r.w.containers + r.w.reservations.Keys| < AUTHOR_LIMIT
    ensures RootsReach(r', k) && r'.roots == r.roots && r'.past == {}
    ensures r'.w == r.w.(
      reservations := r.w.reservations[name := Created], containers := r.w.containers + {name},
      landed := r.w.landed + {name}, procs := r.w.procs[p := Idle])
  {
    RootsClosed(r.roots, k);
    var good := w => RootsReach(Rooted(w, r.roots, {}), k);
    assert Rooted(r.w, r.roots, {}) == r;
    var w := Admit(good, r.w, p, name);
    r' := Rooted(w, r.roots, {});
  }

  /** A root launches a name and gets its container. */
  lemma AdmitRoot(r: Rooted, k: nat, p: Proc, name: Name) returns (r': Rooted)
    requires RootsReach(r, k) && r.past == {} && r.w.lock == map[]
    requires PcOf(r.w, p).Idle? && p !in r.roots && |Launches(r, name)| < k
    requires name !in r.w.reservations && name !in r.w.containers && name !in r.w.inflight
    requires |r.w.containers + r.w.reservations.Keys| < AUTHOR_LIMIT
    ensures RootsReach(r', k) && r'.roots == r.roots[p := name] && r'.past == {}
    ensures r'.w.reservations == r.w.reservations[name := Created] && r'.w.containers == r.w.containers + {name}
    ensures r'.w.inflight == r.w.inflight && r'.w.lock == map[] && r'.w.launched == r.w.launched[name := p]
    ensures r'.w.procs == r.w.procs[p := Idle]
  {
    var r1 := NextRoot(r, k, p, name);
    r' := AdmitLaunched(r1, k, p, name);
  }

  const FRESH := Rooted(World(map[], {}, {}, {}, map[], map[], map[]), map[], {})

  lemma FirstLaunch(k: nat, a: Name) returns (r: Rooted)
    requires k >= 1
    ensures RootsReach(r, k) && r.roots == map[0 := a] && r.past == {}
    ensures r.w == World(map[], {}, {}, {}, map[a := 0], map[], map[0 := Launched(a)])
  {
    assert DockerRoots.Run([FRESH], k);
    assert Launches(FRESH, a) == {};
    r := NextRoot(FRESH, k, 0, a);
  }

  /** A cleanup that finds no container. */
  lemma MissContainer(good: World -> bool, w: World, p: Proc, name: Name, quiet: bool) returns (w': World)
    requires Closed(good, Working) && good(w)
    requires PcOf(w, p) == Cleaning(name, quiet) && name !in w.containers
    ensures good(w')
    ensures w' == w.(procs := w.procs[p := Unreleased(name, quiet, false)])
  {
    w' := Move(w, p, Unreleased(name, quiet, false));
    Reach(good, Working, w, InspectMissing(p), w');
  }

  /** The first launch fails before its reservation, and its cleanup misses the container. */
  lemma FirstMisses(k: nat, a: Name) returns (r: Rooted, quiet: bool)
    requires k >= 1
    ensures RootsReach(r, k) && r.roots == map[0 := a] && r.past == {}
    ensures r.w == World(map[], {}, {}, {}, map[a := 0], map[], map[0 := Unreleased(a, quiet, false)])
  {
    var r1 := FirstLaunch(k, a);
    var r2, q := OwnCleanup(r1, k, 0, a);
    RootsClosed(r2.roots, k);
    var good := w => RootsReach(Rooted(w, r2.roots, {}), k);
    var w := MissContainer(good, r2.w, 0, a, q);
    r, quiet := Rooted(w, r2.roots, {}), q;
    assert r.w.procs == map[0 := Unreleased(a, quiet, false)];
  }

  /** The second gets its container, and the first cleanup frees the second's `.created` file. */
  lemma SecondLosesFile(k: nat, a: Name) returns (r: Rooted)
    requires k >= 2
    ensures RootsReach(r, k) && r.roots == map[0 := a, 1 := a] && r.past == {}
    ensures r.w.reservations == map[] && r.w.containers == {a} && r.w.inflight == {} && r.w.lock == map[]
    ensures a in r.w.launched && r.w.procs.Keys == {0, 1} && PcOf(r.w, 1).Idle?
  {
    var r1, quiet := FirstMisses(k, a);
    assert Launches(r1, a) == {0};
    var r2 := AdmitRoot(r1, k, 1, a);
    RootsClosed(r2.roots, k);
    var good := w => RootsReach(Rooted(w, r2.roots, {}), k);
    var w := Decide(good, r2.w, 0, a, quiet, false);
    r := Rooted(w, r2.roots, {});
  }

  /** The second's own cleanup removes the container and has yet to take the lock. */
  lemma SecondWaits(k: nat, a: Name) returns (r: Rooted, quiet: bool)
    requires k >= 2
    ensures RootsReach(r, k) && r.roots == map[0 := a, 1 := a] && r.past == {}
    ensures r.w.reservations == map[] && r.w.containers == {} && r.w.inflight == {} && r.w.lock == map[]
    ensures a in r.w.launched && r.w.procs.Keys == {0, 1} && PcOf(r.w, 1) == Unreleased(a, quiet, true)
  {
    var r1 := SecondLosesFile(k, a);
    var r2, q := OwnCleanup(r1, k, 1, a);
    RootsClosed(r2.roots, k);
    var good := w => RootsReach(Rooted(w, r2.roots, {}), k);
    var w := RemoveSeen(good, r2.w, 1, a, q);
    r, quiet := Rooted(w, r2.roots, {}), q;
  }

  /** The third sends its create and dies, and the waiting cleanup frees its `.creating` file. */
  lemma ThirdUncovered(k: nat, a: Name) returns (r: Rooted)
    requires k >= 3
    ensures RootsReach(r, k) && r.roots == map[0 := a, 1 := a, 2 := a] && r.past == {}
    ensures r.w.reservations == map[] && r.w.containers == {} && r.w.inflight == {a} && r.w.lock == map[]
    ensures r.w.procs.Keys == {0, 1, 2}
  {
    var r1, quiet := SecondWaits(k, a);
    assert Launches(r1, a) == {0, 1};
    var r2 := NextRoot(r1, k, 2, a);
    RootsClosed(r2.roots, k);
    var good := w => RootsReach(Rooted(w, r2.roots, {}), k);
    var w1 := DieAsking(good, r2.w, 2, a);
    var w2 := Decide(good, w1, 1, a, quiet, true);
    r := Rooted(w2, r2.roots, {});
  }

  lemma OneMore(k: nat, a: Name, b: Name) returns (r: Rooted)
    requires k >= 3 && a != b
    ensures RootsReach(r, k) && r.past == {} && r.roots == map[0 := a, 1 := a, 2 := a, 3 := b]
    ensures r.w.containers == {b} && r.w.reservations.Keys == {b} && r.w.inflight == {a} && r.w.lock == map[]
    ensures PcOf(r.w, 4).Idle?
  {
    var before := ThirdUncovered(k, a);
    assert Launches(before, b) == {};
    r := AdmitRoot(before, k, 3, b);
  }

  /** Nothing counts the outstanding create, so two more workers are admitted. */
  lemma TwoMore(k: nat, a: Name, b: Name, c: Name) returns (r: Rooted)
    requires k >= 3 && a != b && b != c && a != c
    ensures RootsReach(r, k) && r.w.containers == {b, c} && r.w.inflight == {a}
  {
    var before := OneMore(k, a, b);
    assert before.w.containers + before.w.reservations.Keys == {b} && Launches(before, c) == {};
    r := AdmitRoot(before, k, 4, c);
  }

  /** From three launches of a name on, a run has more live workers than the limit. */
  lemma RelaunchBreaksTheBound(k: nat, a: Name, b: Name, c: Name) returns (r: Rooted)
    requires k >= 3 && a != b && b != c && a != c
    ensures RootsReach(r, k)
    ensures |r.w.containers| == AUTHOR_LIMIT + 1
  {
    var before := TwoMore(k, a, b, c);
    RootsReachMore(before, k, Land(a));
    r := After(before, Land(a));
    assert r.w.containers == {a, b, c};
  }

  ghost predicate AlwaysBounded(k: nat) {
    forall r :: RootsReach(r, k) ==> |r.w.containers| <= AUTHOR_LIMIT
  }

  lemma TwoAreBounded(k: nat)
    requires k <= 2
    ensures AlwaysBounded(k)
  {
    forall r | RootsReach(r, k) ensures |r.w.containers| <= AUTHOR_LIMIT {
      var rs :| DockerRoots.Run(rs, k) && rs[|rs| - 1] == r;
      TwoLaunchesAreBounded(rs, k, |rs| - 1);
      SubsetSize(r.w.containers, r.w.containers + r.w.inflight);
    }
  }

  /** The bound holds in all runs exactly when no name is launched more than twice. */
  lemma BoundExactly(k: nat)
    ensures AlwaysBounded(k) <==> k <= 2
  {
    if k <= 2 {
      TwoAreBounded(k);
    } else {
      var r := RelaunchBreaksTheBound(k, "", "b", "cc");
      assert RootsReach(r, k) && |r.w.containers| > AUTHOR_LIMIT;
    }
  }
}
