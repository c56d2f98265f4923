/**
 The other half of the exact condition of DockerCleanup: from every world in which a rival
 launch can still land, a run in which the cleanup is confirmed while the container exists.

 The runs are put together by driving one process at a time, whatever the others hold.
 */
module DockerRival {
  import opened DockerAdmission
  import opened DockerCleanup
  import opened DockerRuns
  import opened HostBudget

  /** One more event of a run in which `p` starts no cleanup. */
  lemma Go(good: World -> bool, p: Proc, w: World, e: Event) returns (w': World)
    requires Closed(good, OnceKeeping(p)) && good(w) && Inv(w)
    requires Enabled(w, e) && !e.Launch? && (StartsCleanup(e) ==> e.p != p)
    ensures w' == Effect(w, e) && good(w') && Inv(w') && Took(w, e, w')
    ensures ByDaemon(e) || e.p != p ==> PcOf(w', p) == PcOf(w, p)
  {
    w' := Effect(w, e);
    Reach(good, OnceKeeping(p), w, e, w');
    InvKept(w, e, w');
    if ByDaemon(e) || e.p != p {
      OthersStay(w, e, w', p);
    }
  }

  // ---------------------------------------------------------------- the rival's launch

  predicate HasRoom(w: World) {
    w.containers == {} && |w.reservations| < AUTHOR_LIMIT
  }

  /** Nothing stands in the way of the launch of `name` in this stage. */
  predicate Ready(w: World, pc: Pc, name: Name) {
    match pc
    case Launched(n) => n == name && HasRoom(w) && 0 !in w.lock
    case Locked(n) => n == name && HasRoom(w)
    case Listed(n, _) => n == name && HasRoom(w)
    case Absent(n, _) => n == name && HasRoom(w)
    case Counted(n, _, _) => n == name
    case Reserved(n) => n == name
    case Sent(n) => n == name && name in w.inflight + w.containers
    case Replied(n) => n == name && name in w.containers
    case Renamed(n) => n == name && name in w.containers && name in w.reservations && w.reservations[name].Created?
    case _ => false
  }

  function Rank(w: World, pc: Pc): nat {
    match pc
    case Launched(_) => 9
    case Locked(_) => 8
    case Listed(_, _) => 7
    case Absent(_, _) => 6
    case Counted(_, _, _) => 5
    case Reserved(_) => 4
    case Sent(n) => if n in w.containers then 2 else 3
    case Replied(_) => 1
    case _ => 0
  }

  function RivalEvent(w: World, q: Proc): Event {
    match PcOf(w, q)
    case Launched(_) => Enter(q)
    case Locked(_) => List(q)
    case Listed(_, _) => InspectAbsent(q)
    case Absent(_, _) => Count(q)
    case Counted(_, _, _) => Reserve(q)
    case Reserved(_) => Send(q)
    case Sent(n) => if n in w.containers then Reply(q) else Land(n)
    case Replied(_) => Rename(q)
    case _ => Leave(q)
  }

  lemma RivalEnabled(w: World, q: Proc, name: Name)
    requires Inv(w) && Ready(w, PcOf(w, q), name)
    ensures Enabled(w, RivalEvent(w, q))
  {
    assert LaunchPc(w, PcOf(w, q));
    if PcOf(w, q).Absent? {
      assert w.containers + PcOf(w, q).reserved == w.reservations.Keys;
    }
  }

  lemma RivalStep(w: World, q: Proc, name: Name)
    requires Inv(w) && Ready(w, PcOf(w, q), name) && !PcOf(w, q).Renamed? && Enabled(w, RivalEvent(w, q))
    ensures var w' := Effect(w, RivalEvent(w, q));
      Ready(w', PcOf(w', q), name) && Rank(w', PcOf(w', q)) < Rank(w, PcOf(w, q))
  {
    assert LaunchPc(w, PcOf(w, q));
  }

  /** The rival's container exists, its reservation is `.created` and the lock is free. */
  predicate Admitted(w: World, name: Name) {
    name in w.containers && name in w.reservations && w.reservations[name].Created? && 0 !in w.lock
  }

  lemma LeaveAdmitted(w: World, q: Proc, name: Name)
    requires Inv(w) && PcOf(w, q).Renamed? && Ready(w, PcOf(w, q), name)
    ensures Admitted(Effect(w, Leave(q)), name)
  {
    assert Critical(PcOf(w, q));
  }

  /** Its launch goes through, whatever stage it is in. */
  lemma {:induction false} DriveRival(good: World -> bool, p: Proc, w: World, q: Proc, name: Name) returns (v: World)
    requires Closed(good, OnceKeeping(p)) && good(w) && Inv(w) && q != p && Ready(w, PcOf(w, q), name)
    ensures good(v) && Inv(v) && PcOf(v, p) == PcOf(w, p) && Admitted(v, name)
    decreases Rank(w, PcOf(w, q))
  {
    RivalEnabled(w, q, name);
    v := Go(good, p, w, RivalEvent(w, q));
    if PcOf(w, q).Renamed? {
      LeaveAdmitted(w, q, name);
    } else {
      RivalStep(w, q, name);
      v := DriveRival(good, p, v, q, name);
    }
  }

  /** Every container may vanish. */
  lemma {:induction false} VanishAll(good: World -> bool, p: Proc, w: World) returns (v: World)
    requires Closed(good, OnceKeeping(p)) && good(w) && Inv(w)
    ensures good(v) && Inv(v) && v == w.(containers := {})
    decreases |w.containers|
  {
    if w.containers == {} {
      v := w;
    } else {
      var n :| n in w.containers;
      v := Go(good, p, w, Vanish(n));
      v := VanishAll(good, p, v);
    }
  }

  // ---------------------------------------------------------------- what an event does to other names

  /** The event is about this name only. */
  predicate Concerns(w: World, e: Event, n: Name) {
    if ByDaemon(e) then e.name == n
    else if StartsCleanup(e) then e.name == n && PcOf(w, e.p).Idle?
    else !e.Launch? && !PcOf(w, e.p).Idle? && PcOf(w, e.p).name == n
  }

  lemma OtherNamesStay(w: World, e: Event, w': World, n: Name, m: Name)
    requires Took(w, e, w') && Concerns(w, e, n) && m != n
    ensures m in w'.reservations <==> m in w.reservations
    ensures Uncertain(w', m) ==> Uncertain(w, m)
  {
    if Uncertain(w', m) {
      forall q <- w.procs ensures w.procs[q].Idle? || w.procs[q].name != m || !CanSettle(w, w.procs[q]) {
        if ByDaemon(e) || e.p != q {
          OthersStay(w, e, w', q);
        }
      }
    }
  }

  /** No reservation was added, and none that could be settled became uncertain. */
  ghost predicate Tidier(w: World, v: World) {
    && v.reservations.Keys <= w.reservations.Keys
    && forall m <- v.reservations :: Uncertain(v, m) ==> Uncertain(w, m)
  }

  lemma TidierTransitive(w: World, v: World, u: World)
    requires Tidier(w, v) && Tidier(v, u)
    ensures Tidier(w, u)
  {
    forall m <- u.reservations | Uncertain(u, m) ensures Uncertain(w, m) {
      assert m in v.reservations;
    }
  }

  lemma StepTidies(w: World, e: Event, w': World, n: Name)
    requires Took(w, e, w') && Concerns(w, e, n)
    requires n in w'.reservations ==> n in w.reservations && (Uncertain(w', n) ==> Uncertain(w, n))
    ensures Tidier(w, w')
  {
    forall m <- w'.reservations ensures m in w.reservations && (Uncertain(w', m) ==> Uncertain(w, m)) {
      if m != n {
        OtherNamesStay(w, e, w', n, m);
      }
    }
  }

  // ---------------------------------------------------------------- freeing the lock

  function OwnerEvent(w: World, r: Proc): Event {
    match PcOf(w, r)
    case Reserved(_) => Send(r)
    case Sent(n) => if n in w.inflight then Land(n) else if n in w.landed then Reply(r) else Stop(r)
    case Replied(_) => Rename(r)
    case Renamed(_) => Leave(r)
    case Releasing(_, _, _) => Release(r)
    case _ => Stop(r)
  }

  function OwnerRank(w: World, pc: Pc): nat {
    match pc
    case Reserved(_) => 5
    case Sent(n) => if n in w.inflight then 4 else 3
    case Replied(_) => 2
    case Idle => 0
    case _ => 1
  }

  lemma OwnerEnabled(w: World, r: Proc)
    requires Inv(w) && Critical(PcOf(w, r))
    ensures Enabled(w, OwnerEvent(w, r)) && Concerns(w, OwnerEvent(w, r), PcOf(w, r).name)
  {
    assert LaunchPc(w, PcOf(w, r));
  }

  lemma DropFrees(w: World, r: Proc)
    requires LockInv(w) && Critical(PcOf(w, r))
    ensures 0 !in Drop(w.lock, r)
  {
    assert w.lock[0] == r;
  }

  lemma OwnerLeaves(w: World, r: Proc, e: Event, w': World)
    requires LockInv(w) && Critical(PcOf(w, r)) && Took(w, e, w')
    requires (e.Stop? || e.Leave? || e.Release?) && e.p == r
    ensures 0 !in w'.lock && w'.reservations.Keys <= w.reservations.Keys
  {
    DropFrees(w, r);
  }

  lemma OwnerContinues(w: World, r: Proc, w': World)
    requires Inv(w) && Critical(PcOf(w, r)) && Took(w, OwnerEvent(w, r), w')
    requires var e := OwnerEvent(w, r); e.Send? || e.Land? || e.Reply? || e.Rename?
    ensures Critical(PcOf(w', r)) && OwnerRank(w', PcOf(w', r)) < OwnerRank(w, PcOf(w, r))
    ensures w'.reservations.Keys == w.reservations.Keys
  {
    assert LaunchPc(w, PcOf(w, r));
  }

  /** The owner goes on to the end of its critical section. */
  lemma OwnerProgress(w: World, r: Proc, w': World)
    requires Inv(w) && Critical(PcOf(w, r)) && Took(w, OwnerEvent(w, r), w')
    ensures w'.reservations.Keys <= w.reservations.Keys
    ensures 0 !in w'.lock || (Critical(PcOf(w', r)) && OwnerRank(w', PcOf(w', r)) < OwnerRank(w, PcOf(w, r)))
  {
    var e := OwnerEvent(w, r);
    if e.Stop? || e.Leave? || e.Release? {
      OwnerLeaves(w, r, e, w');
    } else {
      OwnerContinues(w, r, w');
    }
  }

  /** A request that was dropped and never landed left an uncertain reservation already. */
  lemma DroppedIsUncertain(w: World, r: Proc)
    requires Inv(w) && r in w.procs && w.procs[r].Sent?
    requires w.procs[r].name !in w.inflight && w.procs[r].name !in w.landed
    ensures Uncertain(w, w.procs[r].name)
  {
    var n := w.procs[r].name;
    assert LaunchPc(w, w.procs[r]);
    forall q <- w.procs ensures w.procs[q].Idle? || w.procs[q].name != n || !CanSettle(w, w.procs[q]) {
      assert CleanPc(w, w.procs[q]);
      OneLauncher(w, q, r);
    }
  }

  /** Before its reservation there is none; a new request lands later; a renamed file is created. */
  lemma LaunchSettles(w: World, r: Proc, w': World)
    requires Inv(w) && Took(w, OwnerEvent(w, r), w')
    requires var pc := PcOf(w, r); Critical(pc) && (BeforeSend(pc) || pc.Replied?)
    ensures !Uncertain(w', PcOf(w, r).name)
  {
    assert LaunchPc(w, PcOf(w, r));
  }

  /** Leaving changes nothing, and a reservation that is not released was not this process's to settle. */
  lemma EndSettles(w: World, r: Proc, w': World)
    requires Inv(w) && Took(w, OwnerEvent(w, r), w') && (PcOf(w, r).Renamed? || PcOf(w, r).Releasing?)
    requires Uncertain(w', PcOf(w, r).name)
    ensures Uncertain(w, PcOf(w, r).name)
  {
    var n := PcOf(w, r).name;
    forall q <- w.procs ensures w.procs[q].Idle? || w.procs[q].name != n || !CanSettle(w, w.procs[q]) {
      if q != r {
        OthersStay(w, OwnerEvent(w, r), w', q);
      }
    }
  }

  lemma SentSettles(w: World, r: Proc, w': World)
    requires Inv(w) && PcOf(w, r).Sent? && Took(w, OwnerEvent(w, r), w')
    ensures Uncertain(w', PcOf(w, r).name) ==> Uncertain(w, PcOf(w, r).name)
  {
    var n := PcOf(w, r).name;
    if n in w.inflight {
      assert n in w'.containers;
    } else if n in w.landed {
      assert CanSettle(w', w'.procs[r]);
    } else {
      DroppedIsUncertain(w, r);
    }
  }

  /** No reservation becomes uncertain by it. */
  lemma OwnerTidies(w: World, r: Proc, w': World)
    requires Inv(w) && Critical(PcOf(w, r)) && Took(w, OwnerEvent(w, r), w')
    ensures Tidier(w, w')
  {
    var n := PcOf(w, r).name;
    OwnerEnabled(w, r);
    OwnerProgress(w, r, w');
    if n in w'.reservations && Uncertain(w', n) {
      if PcOf(w, r).Sent? {
        SentSettles(w, r, w');
      } else if PcOf(w, r).Renamed? || PcOf(w, r).Releasing? {
        EndSettles(w, r, w');
      } else {
        LaunchSettles(w, r, w');
      }
    }
    StepTidies(w, OwnerEvent(w, r), w', n);
  }

  lemma OwnerGoes(good: World -> bool, p: Proc, q: Proc, w: World, r: Proc) returns (v: World)
    requires Closed(good, OnceKeeping(p)) && good(w) && Inv(w) && Critical(PcOf(w, r)) && r != p && r != q
    ensures good(v) && Inv(v) && PcOf(v, p) == PcOf(w, p) && PcOf(v, q) == PcOf(w, q) && Tidier(w, v)
    ensures 0 !in v.lock || (v.lock[0] == r && OwnerRank(v, PcOf(v, r)) < OwnerRank(w, PcOf(w, r)))
  {
    OwnerEnabled(w, r);
    v := Go(good, p, w, OwnerEvent(w, r));
    OwnerProgress(w, r, v);
    OwnerTidies(w, r, v);
    OthersStay(w, OwnerEvent(w, r), v, q);
  }

  /** The owner of the lock is driven until the lock is free. */
  lemma {:induction false} FreeLock(good: World -> bool, p: Proc, q: Proc, w: World) returns (v: World)
    requires Closed(good, OnceKeeping(p)) && good(w) && Inv(w) && !Critical(PcOf(w, p)) && !Critical(PcOf(w, q))
    ensures good(v) && Inv(v) && PcOf(v, p) == PcOf(w, p) && PcOf(v, q) == PcOf(w, q)
    ensures 0 !in v.lock && Tidier(w, v)
    decreases if 0 in w.lock then 1 + OwnerRank(w, PcOf(w, w.lock[0])) else 0
  {
    if 0 !in w.lock {
      v := w;
    } else {
      var r := w.lock[0];
      var u := OwnerGoes(good, p, q, w, r);
      v := FreeLock(good, p, q, u);
      TidierTransitive(w, u, v);
    }
  }

  // ---------------------------------------------------------------- releasing one reservation

  /** This cleanup of `n` will release its reservation. */
  predicate CleanerReady(w: World, pc: Pc, n: Name) {
    && n in w.reservations
    && match pc
       case Cleaning(m, _) => m == n && (n in w.containers || w.reservations[n].Created?) && 0 !in w.lock
       case Seen(m, _) => m == n && 0 !in w.lock
       case Removed(m, _) => m == n && n !in w.containers && 0 !in w.lock
       case Unreleased(m, _, observed) => m == n && (observed || w.reservations[n].Created?) && 0 !in w.lock
       case Releasing(m, _, observed) => m == n && (observed || w.reservations[n].Created?)
       case _ => false
  }

  function CleanerEvent(w: World, c: Proc): Event {
    match PcOf(w, c)
    case Cleaning(n, _) => if n in w.containers then InspectSeen(c) else InspectMissing(c)
    case Seen(_, _) => Remove(c)
    case Removed(_, _) => InspectGone(c)
    case Unreleased(_, _, _) => EnterRelease(c)
    case _ => Release(c)
  }

  function CleanerRank(pc: Pc): nat {
    match pc
    case Cleaning(_, _) => 4
    case Seen(_, _) => 3
    case Removed(_, _) => 2
    case Unreleased(_, _, _) => 1
    case _ => 0
  }

  lemma CleanerEnabled(w: World, c: Proc, n: Name)
    requires Inv(w) && CleanerReady(w, PcOf(w, c), n)
    ensures Enabled(w, CleanerEvent(w, c)) && Concerns(w, CleanerEvent(w, c), n)
  {
  }

  lemma CleanerStep(w: World, c: Proc, n: Name, w': World)
    requires Inv(w) && CleanerReady(w, PcOf(w, c), n) && !PcOf(w, c).Releasing? && Took(w, CleanerEvent(w, c), w')
    ensures CleanerReady(w', PcOf(w', c), n) && CleanerRank(PcOf(w', c)) < CleanerRank(PcOf(w, c))
    ensures w'.reservations == w.reservations
  {
  }

  lemma CleanerReleases(w: World, c: Proc, n: Name, w': World)
    requires Inv(w) && CleanerReady(w, PcOf(w, c), n) && PcOf(w, c).Releasing? && Took(w, Release(c), w')
    ensures w'.reservations == w.reservations - {n} && 0 !in w'.lock
  {
    assert Critical(PcOf(w, c));
  }

  /** Apart from `n`, no reservation that could be settled became uncertain. */
  ghost predicate TidierBut(w: World, v: World, n: Name) {
    && v.reservations.Keys <= w.reservations.Keys
    && forall m <- v.reservations | m != n :: Uncertain(v, m) ==> Uncertain(w, m)
  }

  lemma TidierButTransitive(w: World, v: World, u: World, n: Name)
    requires TidierBut(w, v, n) && TidierBut(v, u, n)
    ensures TidierBut(w, u, n)
  {
    forall m <- u.reservations | m != n && Uncertain(u, m) ensures Uncertain(w, m) {
      assert m in v.reservations;
    }
  }

  lemma StepTidiesBut(w: World, e: Event, w': World, n: Name)
    requires Took(w, e, w') && Concerns(w, e, n) && w'.reservations.Keys <= w.reservations.Keys
    ensures TidierBut(w, w', n)
  {
    forall m <- w'.reservations | m != n ensures Uncertain(w', m) ==> Uncertain(w, m) {
      OtherNamesStay(w, e, w', n, m);
    }
  }

  lemma CleanerGoes(good: World -> bool, p: Proc, q: Proc, w: World, c: Proc, n: Name) returns (v: World)
    requires Closed(good, OnceKeeping(p)) && good(w) && Inv(w) && c != p && c != q && CleanerReady(w, PcOf(w, c), n)
    ensures good(v) && Inv(v) && PcOf(v, p) == PcOf(w, p) && PcOf(v, q) == PcOf(w, q) && TidierBut(w, v, n)
    ensures if PcOf(w, c).Releasing? then v.reservations == w.reservations - {n} && 0 !in v.lock
            else CleanerReady(v, PcOf(v, c), n) && CleanerRank(PcOf(v, c)) < CleanerRank(PcOf(w, c))
  {
    CleanerEnabled(w, c, n);
    v := Go(good, p, w, CleanerEvent(w, c));
    if PcOf(w, c).Releasing? {
      CleanerReleases(w, c, n, v);
    } else {
      CleanerStep(w, c, n, v);
    }
    OthersStay(w, CleanerEvent(w, c), v, q);
    StepTidiesBut(w, CleanerEvent(w, c), v, n);
  }

  lemma {:induction false} DriveCleaner(good: World -> bool, p: Proc, q: Proc, w: World, c: Proc, n: Name)
    returns (v: World)
    requires Closed(good, OnceKeeping(p)) && good(w) && Inv(w) && c != p && c != q && CleanerReady(w, PcOf(w, c), n)
    ensures good(v) && Inv(v) && PcOf(v, p) == PcOf(w, p) && PcOf(v, q) == PcOf(w, q)
    ensures 0 !in v.lock && n !in v.reservations && TidierBut(w, v, n)
    decreases CleanerRank(PcOf(w, c))
  {
    var u := CleanerGoes(good, p, q, w, c, n);
    if PcOf(w, c).Releasing? {
      v := u;
    } else {
      v := DriveCleaner(good, p, q, u, c, n);
      TidierButTransitive(w, u, v, n);
    }
  }

  lemma {:induction false} NewProcess(known: set<Proc>) returns (f: Proc)
    ensures forall p <- known :: p < f
  {
    if known == {} {
      f := 0;
    } else {
      var x :| x in known;
      var g := NewProcess(known - {x});
      f := if x < g then g else x + 1;
      forall y <- known ensures y < f {
        assert y == x || y in known - {x};
      }
    }
  }

  /** A new process recovers a container that exists, or a reservation that is created. */
  lemma RecoverName(good: World -> bool, p: Proc, q: Proc, w: World, n: Name) returns (v: World)
    requires Closed(good, OnceKeeping(p)) && good(w) && Inv(w) && 0 !in w.lock && p in w.procs && q in w.procs
    requires n in w.reservations && (n in w.containers || w.reservations[n].Created?)
    ensures good(v) && Inv(v) && PcOf(v, p) == PcOf(w, p) && PcOf(v, q) == PcOf(w, q)
    ensures 0 !in v.lock && n !in v.reservations && TidierBut(w, v, n)
  {
    var f := NewProcess(w.procs.Keys);
    var u := Go(good, p, w, StartCleanup(f, n));
    OthersStay(w, StartCleanup(f, n), u, q);
    StepTidiesBut(w, StartCleanup(f, n), u, n);
    assert 0 !in u.lock;
    v := DriveCleaner(good, p, q, u, f, n);
    TidierButTransitive(w, u, v, n);
  }

  /** With the lock free, a reservation that is not uncertain can be released. */
  lemma ReleaseName(good: World -> bool, p: Proc, q: Proc, w: World, n: Name) returns (v: World)
    requires Closed(good, OnceKeeping(p)) && good(w) && Inv(w) && 0 !in w.lock && p in w.procs && q in w.procs
    requires n in w.reservations && !Uncertain(w, n)
    requires (w.procs[p].Idle? || w.procs[p].name != n) && (w.procs[q].Idle? || w.procs[q].name != n)
    ensures good(v) && Inv(v) && PcOf(v, p) == PcOf(w, p) && PcOf(v, q) == PcOf(w, q)
    ensures 0 !in v.lock && n !in v.reservations && TidierBut(w, v, n)
  {
    if n in w.inflight {
      var u := Go(good, p, w, Land(n));
      OthersStay(w, Land(n), u, q);
      StepTidiesBut(w, Land(n), u, n);
      v := RecoverName(good, p, q, u, n);
      TidierButTransitive(w, u, v, n);
    } else if n in w.containers || w.reservations[n].Created? {
      v := RecoverName(good, p, q, w, n);
    } else {
      var c :| c in w.procs && !w.procs[c].Idle? && w.procs[c].name == n && CanSettle(w, w.procs[c]);
      assert !Critical(PcOf(w, c));
      v := DriveCleaner(good, p, q, w, c, n);
    }
  }

  lemma ReleasedTidies(w: World, v: World, n: Name)
    requires TidierBut(w, v, n) && n !in v.reservations
    ensures Tidier(w, v)
  {
  }

  /** The cleanup has seen no container of `name`, and the rival's launch of it has not begun to reserve. */
  predicate Waiting(w: World, p: Proc, q: Proc, name: Name) {
    PcOf(w, p) == Unreleased(name, false, false) && PcOf(w, q) == Launched(name)
  }

  /** One after the other, all reservations are released that can be. */
  lemma {:induction false} ClearNames(good: World -> bool, p: Proc, q: Proc, w: World, name: Name) returns (v: World)
    requires Closed(good, OnceKeeping(p)) && good(w) && Inv(w) && Waiting(w, p, q, name) && 0 !in w.lock
    ensures good(v) && Inv(v) && Waiting(v, p, q, name) && 0 !in v.lock && Tidier(w, v)
    ensures forall n <- v.reservations :: Uncertain(v, n)
    decreases |w.reservations|
  {
    if n :| n in w.reservations && !Uncertain(w, n) {
      assert LaunchPc(w, w.procs[q]);
      var u := ReleaseName(good, p, q, w, n);
      ReleasedTidies(w, u, n);
      FewerReserved(w, u, n);
      v := ClearNames(good, p, q, u, name);
      TidierTransitive(w, u, v);
    } else {
      v := w;
    }
  }

  lemma FewerReserved(w: World, u: World, n: Name)
    requires n in w.reservations && n !in u.reservations && Tidier(w, u)
    ensures |u.reservations| < |w.reservations|
  {
    SubsetSize(u.reservations.Keys, w.reservations.Keys - {n});
    assert |w.reservations.Keys - {n}| == |w.reservations| - 1;
  }

  lemma OnlyUncertainLeft(w: World, v: World)
    requires Tidier(w, v) && forall n <- v.reservations :: Uncertain(v, n)
    ensures |v.reservations| <= |UncertainNames(w)|
  {
    SubsetSize(v.reservations.Keys, UncertainNames(w));
  }

  /** Unless every slot is uncertain, room can be made for a launch that has not entered yet. */
  lemma MakeRoom(good: World -> bool, p: Proc, q: Proc, w: World, name: Name) returns (v: World)
    requires Closed(good, OnceKeeping(p)) && good(w) && Inv(w) && Waiting(w, p, q, name)
    requires |UncertainNames(w)| < AUTHOR_LIMIT
    ensures good(v) && Inv(v) && PcOf(v, p) == PcOf(w, p) && Ready(v, PcOf(v, q), name)
  {
    var w1 := FreeLock(good, p, q, w);
    var w2 := ClearNames(good, p, q, w1, name);
    TidierTransitive(w, w1, w2);
    OnlyUncertainLeft(w, w2);
    v := VanishAll(good, p, w2);
  }

  /** Every rival that can land can be brought to where nothing stands in its way. */
  lemma MakeReady(good: World -> bool, p: Proc, q: Proc, w: World, name: Name) returns (v: World)
    requires Closed(good, OnceKeeping(p)) && good(w) && Inv(w) && PcOf(w, p) == Unreleased(name, false, false)
    requires q in w.procs && q != p && Launching(w.procs[q]) && w.procs[q].name == name && CanLandPc(w, w.procs[q])
    ensures good(v) && Inv(v) && PcOf(v, p) == PcOf(w, p) && Ready(v, PcOf(v, q), name)
  {
    var pc := w.procs[q];
    if pc.Launched? {
      v := MakeRoom(good, p, q, w, name);
    } else if pc.Locked? || pc.Listed? || pc.Absent? {
      v := VanishAll(good, p, w);
    } else {
      v := w;
    }
  }

  /** The cleanup then releases the reservation of the running container and confirms. */
  lemma Confirm(good: World -> bool, p: Proc, w: World, name: Name) returns (v: World)
    requires Closed(good, OnceKeeping(p)) && good(w) && Inv(w)
    requires PcOf(w, p) == Unreleased(name, false, false) && Admitted(w, name)
    ensures good(v) && PcOf(v, p) == Cleaned(name, false, true) && name in v.containers
  {
    var u := Go(good, p, w, EnterRelease(p));
    assert PcOf(u, p) == Releasing(name, false, false) && Admitted(u.(lock := map[]), name);
    v := Go(good, p, u, Release(p));
    assert v.containers == u.containers;
  }

  // ---------------------------------------------------------------- the exact condition

  /** Some run from `w`, in which `p` stays in its cleanup, has it confirmed while the container exists. */
  ghost predicate Misses(w: World, p: Proc, name: Name) {
    exists v ::
      && Reaches(w, v, OnceKeeping(p)) && PcOf(v, p).Cleaned? && PcOf(v, p).confirmed
      && name in v.containers
  }

  lemma MissedIsLie(w: World, p: Proc, name: Name)
    requires Misses(w, p, name)
    ensures LiesLater(w, p, name)
  {
    var v :|
      && Reaches(w, v, OnceKeeping(p)) && PcOf(v, p).Cleaned? && PcOf(v, p).confirmed
      && name in v.containers;
    ReachesItself(v, Once);
  }

  lemma MissedContainer(good: World -> bool, w: World, p: Proc, q: Proc, name: Name) returns (v: World)
    requires Closed(good, OnceKeeping(p)) && good(w) && Inv(w) && PcOf(w, p) == Cleaning(name, false)
      && name !in w.landed
    requires q in w.procs && q != p && Launching(w.procs[q]) && w.procs[q].name == name && CanLandPc(w, w.procs[q])
    ensures good(v) && PcOf(v, p) == Cleaned(name, false, true) && name in v.containers
  {
    var w1 := Go(good, p, w, InspectMissing(p));
    OthersStay(w, InspectMissing(p), w1, q);
    SameProspects(w, p, w1);
    var w2 := MakeReady(good, p, q, w1, name);
    var w3 := DriveRival(good, p, w2, q, name);
    v := Confirm(good, p, w3, name);
  }

  /** Not seeing the container makes no reservation uncertain. */
  lemma SameProspects(w: World, p: Proc, w': World)
    requires Inv(w) && PcOf(w, p).Cleaning? && Took(w, InspectMissing(p), w')
    ensures |UncertainNames(w')| <= |UncertainNames(w)|
  {
    forall n <- UncertainNames(w') ensures n in UncertainNames(w) {
      forall r <- w.procs ensures w.procs[r].Idle? || w.procs[r].name != n || !CanSettle(w, w.procs[r]) {
        if r != p { OthersStay(w, InspectMissing(p), w', r); }
      }
    }
    SubsetSize(UncertainNames(w'), UncertainNames(w));
  }

  /** A process that was not launching and starts a cleanup leaves a rival's chances as they are. */
  lemma RivalUntouched(w: World, e: Event, w': World, q: Proc)
    requires Inv(w) && Took(w, e, w') && StartsCleanup(e) && q != e.p
    requires q in w.procs && Launching(w.procs[q]) && w.procs[q].name == e.name && CanLandPc(w, w.procs[q])
    ensures PcOf(w', q) == PcOf(w, q) && CanLandPc(w', PcOf(w', q))
    ensures PcOf(w', e.p) == Cleaning(e.name, false)
  {
    OthersStay(w, e, w', q);
    assert w.launched[e.name] == q;
    assert PcOf(w, e.p).Idle?;
    forall n <- UncertainNames(w') ensures n in UncertainNames(w) {
      forall r <- w.procs ensures w.procs[r].Idle? || w.procs[r].name != n || !CanSettle(w, w.procs[r]) {
        if r != e.p { OthersStay(w, e, w', r); }
      }
    }
    SubsetSize(UncertainNames(w'), UncertainNames(w));
  }

  lemma MisledBy(w: World, p: Proc, q: Proc, name: Name)
    requires Inv(w) && PcOf(w, p) == Cleaning(name, false) && name !in w.landed
    requires q in w.procs && q != p && Launching(w.procs[q]) && w.procs[q].name == name && CanLandPc(w, w.procs[q])
    ensures Misses(w, p, name)
  {
    var good := v => Reaches(w, v, OnceKeeping(p));
    ReachesClosed(w, OnceKeeping(p));
    ReachesItself(w, OnceKeeping(p));
    var v := MissedContainer(good, w, p, q, name);
  }

  /** A rival that can land makes the cleanup unreliable: it can be confirmed while the container exists. */
  lemma RivalMisleads(w: World, e: Event, w': World)
    requires Inv(w) && Took(w, e, w') && StartsCleanup(e) && RivalCanLand(w, e.p, e.name)
    ensures Misses(w', e.p, e.name)
  {
    var p, name := e.p, e.name;
    var q :| q in w.procs && q != p && Launching(w.procs[q]) && w.procs[q].name == name && CanLandPc(w, w.procs[q]);
    RivalUntouched(w, e, w', q);
    InvKept(w, e, w');
    MisledBy(w', p, q, name);
  }

  /**
   A cleanup that starts now is final whenever it is confirmed, in every continuation,
   exactly when no rival launch of the name can still land. If one can, some continuation
   confirms it while the container exists.
   */
  lemma FinalExactly(w: World, e: Event, w': World)
    requires Inv(w) && Took(w, e, w') && StartsCleanup(e)
    ensures LiesLater(w', e.p, e.name) <==> RivalCanLand(w, e.p, e.name)
    ensures Misses(w', e.p, e.name) <==> RivalCanLand(w, e.p, e.name)
  {
    if RivalCanLand(w, e.p, e.name) {
      RivalMisleads(w, e, w');
    } else {
      StartsFinal(w, e, w');
    }
    if Misses(w', e.p, e.name) {
      MissedIsLie(w', e.p, e.name);
    }
  }

  /** A name that has landed, or that no other process launches, has no rival: its cleanup is final. */
  lemma NoRivalIsFinal(w: World, e: Event, w': World)
    requires Inv(w) && Took(w, e, w') && StartsCleanup(e)
    requires e.name in w.landed || !LaunchingOther(w, e.p, e.name)
    ensures !LiesLater(w', e.p, e.name)
  {
    FinalExactly(w, e, w');
  }

  /** The delivery controller's guard is enough: its recovery is final whenever it is confirmed. */
  lemma RecoveryIsFinal(w: World, p: Proc, name: Name)
    requires Inv(w) && Enabled(w, Recover(p, name))
    ensures !LiesLater(Effect(w, Recover(p, name)), p, name)
  {
    NoRivalIsFinal(w, Recover(p, name), Effect(w, Recover(p, name)));
  }

  /** And so is the cleanup of the process that launched the name. */
  lemma OwnCleanupIsFinal(w: World, p: Proc, name: Name)
    requires Inv(w) && Enabled(w, StartCleanup(p, name)) && w.launched[name] == p
    ensures !LiesLater(Effect(w, StartCleanup(p, name)), p, name)
  {
    NoRivalIsFinal(w, StartCleanup(p, name), Effect(w, StartCleanup(p, name)));
  }

  /** Without the guard, a cleanup beside a launch that just began is such a case, and a run gets there. */
  lemma UnguardedCleanupMayLie(name: Name) returns (w: World)
    ensures Reachable(w, Once) && Enabled(w, StartCleanup(1, name))
    ensures Misses(Effect(w, StartCleanup(1, name)), 1, name)
  {
    var start := World(map[], {}, {}, {}, map[], map[], map[]);
    InitInv(start);
    ReachesItself(start, Once);
    ReachesMore(start, start, Launch(0, name), Once);
    w := Effect(start, Launch(0, name));
    InvKept(start, Launch(0, name), w);
    assert w.procs[0] == Launched(name) && UncertainNames(w) == {};
    FinalExactly(w, StartCleanup(1, name), Effect(w, StartCleanup(1, name)));
  }
}
