/**
 What one process gets when nobody disturbs it: the answer of a whole `_cleanup` and of a
 whole `_create_reserved` (artifacts/codeagent-launcher/docker_executor.py), over all runs in
 which it alone moves.
 */
module DockerAnswer {
  import opened DockerAdmission
  import opened HostBudget

  /** The process goes on with what it is in and does not stop, or its own create request lands. */
  predicate Undisturbed(w: World, p: Proc, e: Event) {
    || (!ByDaemon(e) && e.p == p && !e.Stop? && Allows(Working, w, e))
    || (e.Land? && PcOf(w, p).Sent? && e.name == PcOf(w, p).name)
  }

  ghost predicate Alone(w: World, w': World, p: Proc) {
    exists e: Event :: Enabled(w, e) && Undisturbed(w, p, e) && w' == Effect(w, e)
  }

  ghost predicate AloneAt(ws: seq<World>, i: nat, p: Proc)
    requires i + 1 < |ws|
  {
    Alone(ws[i], ws[i + 1], p)
  }

  ghost predicate AloneFrom(ws: seq<World>, w: World, p: Proc) {
    |ws| > 0 && ws[0] == w && forall i: nat | i + 1 < |ws| :: AloneAt(ws, i, p)
  }

  /** The process has nothing left to do: it has its answer, or is refused. */
  ghost predicate AtEnd(w: World, p: Proc) {
    forall v :: !Alone(w, v, p)
  }

  /** What every undisturbed step hands on holds all along. */
  lemma {:induction false} AloneAlong(ws: seq<World>, w: World, p: Proc, good: World -> bool, i: nat)
    requires AloneFrom(ws, w, p) && good(w) && i < |ws|
    requires forall u, v | good(u) && Alone(u, v, p) :: good(v)
    ensures good(ws[i])
  {
    if i > 0 {
      AloneAlong(ws, w, p, good, i - 1);
      assert AloneAt(ws, i - 1, p);
    }
  }

  lemma Then(u: World, v: World, p: Proc, ws: seq<World>) returns (longer: seq<World>)
    requires Alone(u, v, p) && AloneFrom(ws, v, p)
    ensures AloneFrom(longer, u, p) && longer[|longer| - 1] == ws[|ws| - 1]
  {
    longer := [u] + ws;
    forall i: nat | i + 1 < |longer| ensures AloneAt(longer, i, p) {
      if i > 0 {
        assert AloneAt(ws, i - 1, p);
      }
    }
  }

  lemma Moved(w: World, p: Proc, a: Pc, b: Pc)
    ensures Move(Move(w, p, a), p, b) == Move(w, p, b)
  {
    assert w.procs[p := a][p := b] == w.procs[p := b];
  }

  // ---------------------------------------------------------------- a whole cleanup

  predicate ReadyToClean(w: World, p: Proc, n: Name, quiet: bool) {
    w.lock == map[] && PcOf(w, p) == Cleaning(n, quiet)
  }

  /** The create request of the name may still be on its way, so its reservation is not given up. */
  predicate Undecided(w: World, n: Name) {
    n !in w.containers && n in w.reservations && w.reservations[n].Creating?
  }

  function CleanedUp(w: World, p: Proc, n: Name, quiet: bool): World {
    w.(containers := w.containers - {n},
       reservations := if Undecided(w, n) then w.reservations else w.reservations - {n},
       procs := w.procs[p := Cleaned(n, quiet, !Undecided(w, n))])
  }

  function Removing(w: World, n: Name): World {
    w.(containers := w.containers - {n})
  }

  /** How far the cleanup that began in `w` is in `u`. */
  predicate Cleans(w: World, u: World, p: Proc, n: Name, quiet: bool) {
    match PcOf(u, p)
    case Cleaning(_, _) => u == w
    case Seen(_, _) => n in w.containers && u == Move(w, p, Seen(n, quiet))
    case Removed(_, _) => n in w.containers && u == Move(Removing(w, n), p, Removed(n, quiet))
    case Unreleased(_, _, _) => u == Move(Removing(w, n), p, Unreleased(n, quiet, n in w.containers))
    case Releasing(_, _, _) =>
      u == Move(Removing(w, n).(lock := map[0 := p]), p, Releasing(n, quiet, n in w.containers))
    case Cleaned(_, _, _) => u == CleanedUp(w, p, n, quiet)
    case _ => false
  }

  function CleanupEvent(w: World, p: Proc): Event {
    match PcOf(w, p)
    case Cleaning(n, _) => if n in w.containers then InspectSeen(p) else InspectMissing(p)
    case Seen(_, _) => Remove(p)
    case Removed(_, _) => InspectGone(p)
    case Unreleased(_, _, _) => EnterRelease(p)
    case _ => Release(p)
  }

  lemma Inspects(w: World, p: Proc, n: Name, quiet: bool)
    requires ReadyToClean(w, p, n, quiet)
    ensures n in w.containers ==> Enabled(w, InspectSeen(p)) && Cleans(w, Effect(w, InspectSeen(p)), p, n, quiet)
    ensures n !in w.containers ==>
              Enabled(w, InspectMissing(p)) && Cleans(w, Effect(w, InspectMissing(p)), p, n, quiet)
  {
    assert n !in w.containers ==> w.containers - {n} == w.containers;
  }

  lemma Removes(w: World, u: World, p: Proc, n: Name, quiet: bool)
    requires Cleans(w, u, p, n, quiet) && PcOf(u, p).Seen?
    ensures Enabled(u, Remove(p)) && Cleans(w, Effect(u, Remove(p)), p, n, quiet)
  {
    Moved(Removing(w, n), p, Seen(n, quiet), Removed(n, quiet));
  }

  lemma InspectsGone(w: World, u: World, p: Proc, n: Name, quiet: bool)
    requires Cleans(w, u, p, n, quiet) && PcOf(u, p).Removed?
    ensures Enabled(u, InspectGone(p)) && Cleans(w, Effect(u, InspectGone(p)), p, n, quiet)
  {
    Moved(Removing(w, n), p, Removed(n, quiet), Unreleased(n, quiet, true));
  }

  lemma TakesLock(w: World, u: World, p: Proc, n: Name, quiet: bool)
    requires Cleans(w, u, p, n, quiet) && PcOf(u, p).Unreleased? && w.lock == map[]
    ensures Enabled(u, EnterRelease(p)) && Cleans(w, Effect(u, EnterRelease(p)), p, n, quiet)
  {
    var seen := n in w.containers;
    Moved(Removing(w, n).(lock := map[0 := p]), p, Unreleased(n, quiet, seen), Releasing(n, quiet, seen));
  }

  lemma ReleaseOf(u: World, p: Proc, n: Name, quiet: bool, seen: bool)
    requires PcOf(u, p) == Releasing(n, quiet, seen) && u.lock == map[0 := p]
    ensures var kept := !seen && n in u.reservations && u.reservations[n].Creating?;
      && Enabled(u, Release(p))
      && Effect(u, Release(p)) ==
           Move(u.(lock := map[], reservations := if kept then u.reservations else u.reservations - {n}),
                p, Cleaned(n, quiet, !kept))
  {
    assert Drop(u.lock, p) == map[];
    assert n !in u.reservations ==> u.reservations - {n} == u.reservations;
  }

  lemma Releases(w: World, u: World, p: Proc, n: Name, quiet: bool)
    requires Cleans(w, u, p, n, quiet) && PcOf(u, p).Releasing? && w.lock == map[]
    ensures Enabled(u, Release(p)) && Cleans(w, Effect(u, Release(p)), p, n, quiet)
  {
    var seen := n in w.containers;
    ReleaseOf(u, p, n, quiet, seen);
    assert w.procs[p := Releasing(n, quiet, seen)][p := Cleaned(n, quiet, !Undecided(w, n))]
        == w.procs[p := Cleaned(n, quiet, !Undecided(w, n))];
  }

  /** Until it is done, a cleanup has one way to go on. */
  lemma OneWay(u: World, p: Proc, e: Event)
    requires InCleanup(PcOf(u, p)) && Enabled(u, e) && Undisturbed(u, p, e)
    ensures !PcOf(u, p).Cleaned? && e == CleanupEvent(u, p)
  {
  }

  lemma CleanupGoes(w: World, u: World, p: Proc, n: Name, quiet: bool)
    requires ReadyToClean(w, p, n, quiet) && Cleans(w, u, p, n, quiet) && !PcOf(u, p).Cleaned?
    ensures var e := CleanupEvent(u, p); Enabled(u, e) && Cleans(w, Effect(u, e), p, n, quiet)
  {
    match PcOf(u, p)
    case Cleaning(_, _) => Inspects(w, p, n, quiet);
    case Seen(_, _) => Removes(w, u, p, n, quiet);
    case Removed(_, _) => InspectsGone(w, u, p, n, quiet);
    case Unreleased(_, _, _) => TakesLock(w, u, p, n, quiet);
    case _ => Releases(w, u, p, n, quiet);
  }

  lemma CleanupStep(w: World, u: World, v: World, p: Proc, n: Name, quiet: bool)
    requires ReadyToClean(w, p, n, quiet) && Cleans(w, u, p, n, quiet) && Alone(u, v, p)
    ensures Cleans(w, v, p, n, quiet)
  {
    var e: Event :| Enabled(u, e) && Undisturbed(u, p, e) && v == Effect(u, e);
    OneWay(u, p, e);
    CleanupGoes(w, u, p, n, quiet);
  }

  lemma CleanupEnd(w: World, u: World, p: Proc, n: Name, quiet: bool)
    requires ReadyToClean(w, p, n, quiet) && Cleans(w, u, p, n, quiet)
    ensures AtEnd(u, p) <==> PcOf(u, p).Cleaned?
  {
    if PcOf(u, p).Cleaned? {
      forall v ensures !Alone(u, v, p) {
        if e: Event :| Enabled(u, e) && Undisturbed(u, p, e) && v == Effect(u, e) {
          OneWay(u, p, e);
        }
      }
    } else {
      CleanupGoes(w, u, p, n, quiet);
      assert Alone(u, Effect(u, CleanupEvent(u, p)), p);
    }
  }

  /**
   Every undisturbed cleanup that goes to its end is answered: confirmed exactly unless the
   container was absent beside a `.creating` file. Confirmed, it leaves neither container nor
   reservation; unconfirmed, it leaves everything as it was.
   */
  lemma CleanupAnswers(ws: seq<World>, w: World, p: Proc, n: Name, quiet: bool)
    requires ReadyToClean(w, p, n, quiet) && AloneFrom(ws, w, p)
    ensures AtEnd(ws[|ws| - 1], p) <==> PcOf(ws[|ws| - 1], p).Cleaned?
    ensures AtEnd(ws[|ws| - 1], p) ==> ws[|ws| - 1] == CleanedUp(w, p, n, quiet)
  {
    var good := u => Cleans(w, u, p, n, quiet);
    forall u, v | good(u) && Alone(u, v, p) ensures good(v) {
      CleanupStep(w, u, v, p, n, quiet);
    }
    AloneAlong(ws, w, p, good, |ws| - 1);
    CleanupEnd(w, ws[|ws| - 1], p, n, quiet);
  }

  function CleanupRank(pc: Pc): nat {
    match pc
    case Cleaning(_, _) => 5
    case Seen(_, _) => 4
    case Removed(_, _) => 3
    case Unreleased(_, _, _) => 2
    case Releasing(_, _, _) => 1
    case _ => 0
  }

  lemma CleanupSinks(u: World, p: Proc)
    requires InCleanup(PcOf(u, p)) && !PcOf(u, p).Cleaned? && Enabled(u, CleanupEvent(u, p))
    ensures CleanupRank(PcOf(Effect(u, CleanupEvent(u, p)), p)) < CleanupRank(PcOf(u, p))
  {
  }

  /** And every undisturbed cleanup can go to its end. */
  lemma {:induction false} CleanupEnds(w: World, u: World, p: Proc, n: Name, quiet: bool) returns (ws: seq<World>)
    requires ReadyToClean(w, p, n, quiet) && Cleans(w, u, p, n, quiet)
    ensures AloneFrom(ws, u, p) && ws[|ws| - 1] == CleanedUp(w, p, n, quiet)
    decreases CleanupRank(PcOf(u, p))
  {
    if PcOf(u, p).Cleaned? {
      ws := [u];
    } else {
      CleanupGoes(w, u, p, n, quiet);
      CleanupSinks(u, p);
      var v := Effect(u, CleanupEvent(u, p));
      ws := CleanupEnds(w, v, p, n, quiet);
      assert Alone(u, v, p);
      ws := Then(u, v, p, ws);
    }
  }

  // ---------------------------------------------------------------- a whole launch

  predicate ReadyToLaunch(w: World, p: Proc, n: Name) {
    w.lock == map[] && PcOf(w, p) == Launched(n) && n !in w.inflight
  }

  /** The checks that a launch makes under the lock, before it reserves. */
  predicate Admittable(w: World, n: Name) {
    n !in w.reservations && n !in w.containers && |w.containers + w.reservations.Keys| < AUTHOR_LIMIT
  }

  function Admitted(w: World, p: Proc, n: Name): World {
    w.(reservations := w.reservations[n := Created], containers := w.containers + {n},
       landed := w.landed + {n}, procs := w.procs[p := Idle])
  }

  /** A launch that is not admitted stops at the check that fails, with the lock and nothing else. */
  function Refused(w: World, p: Proc, n: Name): World {
    Move(w.(lock := map[0 := p]), p,
         if n in w.reservations then Locked(n)
         else if n in w.containers then Listed(n, w.reservations.Keys)
         else Absent(n, w.reservations.Keys))
  }

  function Reserving(w: World, p: Proc, n: Name): World {
    w.(lock := map[0 := p], reservations := w.reservations[n := Creating])
  }

  function Landing(w: World, p: Proc, n: Name): World {
    Reserving(w, p, n).(containers := w.containers + {n}, landed := w.landed + {n})
  }

  /** How far the launch that began in `w` is in `u`. */
  predicate Launches(w: World, u: World, p: Proc, n: Name) {
    var keys, locked := w.reservations.Keys, w.(lock := map[0 := p]);
    match PcOf(u, p)
    case Launched(_) => u == w
    case Locked(_) => u == Move(locked, p, Locked(n))
    case Listed(_, _) => n !in w.reservations && u == Move(locked, p, Listed(n, keys))
    case Absent(_, _) => n !in w.reservations && n !in w.containers && u == Move(locked, p, Absent(n, keys))
    case Counted(_, _, _) => Admittable(w, n) && u == Move(locked, p, Counted(n, keys, w.containers))
    case Reserved(_) => Admittable(w, n) && u == Move(Reserving(w, p, n), p, Reserved(n))
    case Sent(_) =>
      && Admittable(w, n)
      && (u == Move(Reserving(w, p, n).(inflight := w.inflight + {n}), p, Sent(n))
          || u == Move(Landing(w, p, n), p, Sent(n)))
    case Replied(_) => Admittable(w, n) && u == Move(Landing(w, p, n), p, Replied(n))
    case Renamed(_) =>
      Admittable(w, n) && u == Move(Landing(w, p, n).(reservations := w.reservations[n := Created]), p, Renamed(n))
    case Idle => Admittable(w, n) && u == Admitted(w, p, n)
    case _ => false
  }

  function LaunchEvent(w: World, p: Proc): Event {
    match PcOf(w, p)
    case Launched(_) => Enter(p)
    case Locked(_) => List(p)
    case Listed(_, _) => InspectAbsent(p)
    case Absent(_, _) => Count(p)
    case Counted(_, _, _) => Reserve(p)
    case Reserved(_) => Send(p)
    case Sent(n) => if n in w.inflight then Land(n) else Reply(p)
    case Replied(_) => Rename(p)
    case _ => Leave(p)
  }

  /** In a launch, too, there is one way to go on, and none after it. */
  lemma OneLaunchWay(u: World, p: Proc, e: Event)
    requires (Launching(PcOf(u, p)) || PcOf(u, p).Idle?) && Enabled(u, e) && Undisturbed(u, p, e)
    ensures Launching(PcOf(u, p)) && e == LaunchEvent(u, p)
  {
  }

  function LaunchEnd(w: World, p: Proc, n: Name): World {
    if Admittable(w, n) then Admitted(w, p, n) else Refused(w, p, n)
  }

  /** Only at its end the launch does not go on. */
  predicate LaunchOn(w: World, u: World, p: Proc, n: Name) {
    var e := LaunchEvent(u, p);
    if u == LaunchEnd(w, p, n) then !Enabled(u, e)
    else Enabled(u, e) && Undisturbed(u, p, e) && Launches(w, Effect(u, e), p, n)
  }

  lemma EndPc(w: World, p: Proc, n: Name)
    ensures PcOf(LaunchEnd(w, p, n), p) == if Admittable(w, n) then Idle
      else if n in w.reservations then Locked(n)
      else if n in w.containers then Listed(n, w.reservations.Keys)
      else Absent(n, w.reservations.Keys)
  {
  }

  lemma Enters(w: World, p: Proc, n: Name)
    requires ReadyToLaunch(w, p, n)
    ensures LaunchOn(w, w, p, n)
  {
    EndPc(w, p, n);
  }

  lemma Lists(w: World, u: World, p: Proc, n: Name)
    requires ReadyToLaunch(w, p, n) && Launches(w, u, p, n) && PcOf(u, p).Locked?
    ensures LaunchOn(w, u, p, n)
  {
    EndPc(w, p, n);
    Moved(w.(lock := map[0 := p]), p, Locked(n), Listed(n, w.reservations.Keys));
  }

  lemma Looks(w: World, u: World, p: Proc, n: Name)
    requires ReadyToLaunch(w, p, n) && Launches(w, u, p, n) && PcOf(u, p).Listed?
    ensures LaunchOn(w, u, p, n)
  {
    EndPc(w, p, n);
    var keys := w.reservations.Keys;
    Moved(w.(lock := map[0 := p]), p, Listed(n, keys), Absent(n, keys));
  }

  lemma Counts(w: World, u: World, p: Proc, n: Name)
    requires ReadyToLaunch(w, p, n) && Launches(w, u, p, n) && PcOf(u, p).Absent?
    ensures LaunchOn(w, u, p, n)
  {
    EndPc(w, p, n);
    var keys := w.reservations.Keys;
    Moved(w.(lock := map[0 := p]), p, Absent(n, keys), Counted(n, keys, w.containers));
  }

  lemma Reserves(w: World, u: World, p: Proc, n: Name)
    requires ReadyToLaunch(w, p, n) && Launches(w, u, p, n) && PcOf(u, p).Counted?
    ensures LaunchOn(w, u, p, n)
  {
    EndPc(w, p, n);
    Moved(Reserving(w, p, n), p, Counted(n, w.reservations.Keys, w.containers), Reserved(n));
  }

  lemma SendOf(w: World, u: World, p: Proc, n: Name)
    requires Launches(w, u, p, n) && PcOf(u, p).Reserved?
    ensures Enabled(u, Send(p)) && Launches(w, Effect(u, Send(p)), p, n)
  {
    Moved(Reserving(w, p, n).(inflight := w.inflight + {n}), p, Reserved(n), Sent(n));
  }

  lemma Sends(w: World, u: World, p: Proc, n: Name)
    requires ReadyToLaunch(w, p, n) && Launches(w, u, p, n) && PcOf(u, p).Reserved?
    ensures LaunchOn(w, u, p, n)
  {
    EndPc(w, p, n);
    SendOf(w, u, p, n);
  }

  lemma LandOf(w: World, u: World, p: Proc, n: Name)
    requires Launches(w, u, p, n) && PcOf(u, p).Sent? && n in u.inflight && n !in w.inflight
    ensures PcOf(u, p).name == n && Enabled(u, Land(n)) && Launches(w, Effect(u, Land(n)), p, n)
  {
    assert w.inflight + {n} - {n} == w.inflight;
  }

  lemma Lands(w: World, u: World, p: Proc, n: Name)
    requires ReadyToLaunch(w, p, n) && Launches(w, u, p, n) && PcOf(u, p).Sent? && n in u.inflight
    ensures LaunchOn(w, u, p, n)
  {
    EndPc(w, p, n);
    LandOf(w, u, p, n);
  }

  lemma Replies(w: World, u: World, p: Proc, n: Name)
    requires ReadyToLaunch(w, p, n) && Launches(w, u, p, n) && PcOf(u, p).Sent? && n !in u.inflight
    ensures LaunchOn(w, u, p, n)
  {
    EndPc(w, p, n);
    Moved(Landing(w, p, n), p, Sent(n), Replied(n));
  }

  lemma RenameIs(u: World, p: Proc, n: Name)
    requires PcOf(u, p) == Replied(n) && n in u.reservations
    ensures Enabled(u, Rename(p))
    ensures Effect(u, Rename(p)) == Move(u.(reservations := u.reservations[n := Created]), p, Renamed(n))
  {
  }

  lemma RenameOf(w: World, u: World, p: Proc, n: Name)
    requires Launches(w, u, p, n) && PcOf(u, p).Replied?
    ensures Enabled(u, Rename(p)) && Launches(w, Effect(u, Rename(p)), p, n)
  {
    RenameIs(u, p, n);
    assert w.reservations[n := Creating][n := Created] == w.reservations[n := Created];
    Moved(Landing(w, p, n).(reservations := w.reservations[n := Created]), p, Replied(n), Renamed(n));
  }

  lemma Renames(w: World, u: World, p: Proc, n: Name)
    requires ReadyToLaunch(w, p, n) && Launches(w, u, p, n) && PcOf(u, p).Replied?
    ensures LaunchOn(w, u, p, n)
  {
    EndPc(w, p, n);
    RenameOf(w, u, p, n);
  }

  lemma Leaves(w: World, u: World, p: Proc, n: Name)
    requires ReadyToLaunch(w, p, n) && Launches(w, u, p, n) && PcOf(u, p).Renamed?
    ensures LaunchOn(w, u, p, n)
  {
    EndPc(w, p, n);
    assert Drop(u.lock, p) == map[];
    Moved(Admitted(w, p, n), p, Renamed(n), Idle);
    assert Effect(u, Leave(p)).procs == w.procs[p := Idle];
  }

  lemma Stays(w: World, u: World, p: Proc, n: Name)
    requires Launches(w, u, p, n) && PcOf(u, p).Idle?
    ensures LaunchOn(w, u, p, n)
  {
  }

  lemma LaunchGoes(w: World, u: World, p: Proc, n: Name)
    requires ReadyToLaunch(w, p, n) && Launches(w, u, p, n)
    ensures LaunchOn(w, u, p, n)
  {
    match PcOf(u, p)
    case Launched(_) => Enters(w, p, n);
    case Locked(_) => Lists(w, u, p, n);
    case Listed(_, _) => Looks(w, u, p, n);
    case Absent(_, _) => Counts(w, u, p, n);
    case Counted(_, _, _) => Reserves(w, u, p, n);
    case Reserved(_) => Sends(w, u, p, n);
    case Sent(_) => if n in u.inflight { Lands(w, u, p, n); } else { Replies(w, u, p, n); }
    case Replied(_) => Renames(w, u, p, n);
    case Renamed(_) => Leaves(w, u, p, n);
    case Idle => Stays(w, u, p, n);
  }

  lemma LaunchStep(w: World, u: World, v: World, p: Proc, n: Name)
    requires ReadyToLaunch(w, p, n) && Launches(w, u, p, n) && Alone(u, v, p)
    ensures Launches(w, v, p, n)
  {
    var e: Event :| Enabled(u, e) && Undisturbed(u, p, e) && v == Effect(u, e);
    OneLaunchWay(u, p, e);
    LaunchGoes(w, u, p, n);
  }

  lemma LaunchEnded(w: World, u: World, p: Proc, n: Name)
    requires ReadyToLaunch(w, p, n) && Launches(w, u, p, n)
    ensures AtEnd(u, p) <==> u == LaunchEnd(w, p, n)
  {
    LaunchGoes(w, u, p, n);
    if u == LaunchEnd(w, p, n) {
      forall v ensures !Alone(u, v, p) {
        if e: Event :| Enabled(u, e) && Undisturbed(u, p, e) && v == Effect(u, e) {
          OneLaunchWay(u, p, e);
        }
      }
    } else {
      assert Alone(u, Effect(u, LaunchEvent(u, p)), p);
    }
  }

  /**
   Every undisturbed launch that goes to its end gets its container exactly when its name has
   neither reservation nor container and there is room; otherwise it is refused and has
   changed nothing.
   */
  lemma LaunchAnswers(ws: seq<World>, w: World, p: Proc, n: Name)
    requires ReadyToLaunch(w, p, n) && AloneFrom(ws, w, p)
    ensures AtEnd(ws[|ws| - 1], p) <==>
              ws[|ws| - 1] == if Admittable(w, n) then Admitted(w, p, n) else Refused(w, p, n)
  {
    var good := u => Launches(w, u, p, n);
    forall u, v | good(u) && Alone(u, v, p) ensures good(v) {
      LaunchStep(w, u, v, p, n);
    }
    AloneAlong(ws, w, p, good, |ws| - 1);
    LaunchEnded(w, ws[|ws| - 1], p, n);
  }

  function LaunchRank(w: World, p: Proc): nat {
    match PcOf(w, p)
    case Launched(_) => 10
    case Locked(_) => 9
    case Listed(_, _) => 8
    case Absent(_, _) => 7
    case Counted(_, _, _) => 6
    case Reserved(_) => 5
    case Sent(n) => if n in w.inflight then 4 else 3
    case Replied(_) => 2
    case Renamed(_) => 1
    case _ => 0
  }

  lemma LaunchSinks(u: World, p: Proc)
    requires Launching(PcOf(u, p)) && Enabled(u, LaunchEvent(u, p))
    ensures LaunchRank(Effect(u, LaunchEvent(u, p)), p) < LaunchRank(u, p)
  {
  }

  /** And every undisturbed launch can go to its end. */
  lemma {:induction false} LaunchEnds(w: World, u: World, p: Proc, n: Name) returns (ws: seq<World>)
    requires ReadyToLaunch(w, p, n) && Launches(w, u, p, n)
    ensures AloneFrom(ws, u, p) && ws[|ws| - 1] == LaunchEnd(w, p, n)
    decreases LaunchRank(u, p)
  {
    LaunchGoes(w, u, p, n);
    if u == LaunchEnd(w, p, n) {
      ws := [u];
    } else {
      OneLaunchWay(u, p, LaunchEvent(u, p));
      LaunchSinks(u, p);
      var v := Effect(u, LaunchEvent(u, p));
      ws := LaunchEnds(w, v, p, n);
      assert Alone(u, v, p);
      ws := Then(u, v, p, ws);
    }
  }
}
