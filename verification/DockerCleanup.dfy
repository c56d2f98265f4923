/**
 When a confirmed cleanup of a Docker worker is final (`_cleanup` and `_release_reservation`
 in artifacts/codeagent-launcher/docker_executor.py): an exact condition at its start.
 */
module DockerCleanup {
  import opened DockerAdmission
  import opened DockerRuns
  import opened HostBudget

  /**
   Some run from `w`, in which `p` stays in the cleanup it is in, has it confirmed; and
   then or later the container exists or can still be created.
   */
  ghost predicate LiesLater(w: World, p: Proc, name: Name) {
    exists v, u ::
      && Reaches(w, v, OnceKeeping(p)) && PcOf(v, p).Cleaned? && PcOf(v, p).confirmed
      && Reaches(v, u, Once) && name in u.containers + u.inflight
  }

  // ---------------------------------------------------------------- uncertain reservations

  /** The process can still settle the `.creating` reservation of its name. */
  predicate CanSettle(w: World, pc: Pc) {
    || pc.Reserved?
    || ((pc.Sent? || pc.Replied?) && pc.name in w.landed)
    || pc.Seen? || pc.Removed? || ((pc.Unreleased? || pc.Releasing?) && pc.observed)
  }

  /** A `.creating` reservation that nothing will ever settle or release. */
  ghost predicate Uncertain(w: World, n: Name) {
    && n in w.reservations && w.reservations[n].Creating?
    && n !in w.containers && n !in w.inflight
    && forall p <- w.procs :: w.procs[p].Idle? || w.procs[p].name != n || !CanSettle(w, w.procs[p])
  }

  ghost function UncertainNames(w: World): set<Name> {
    set n <- w.reservations | Uncertain(w, n)
  }

  /** Its own event does not put a process in a position to settle an uncertain reservation. */
  lemma StillCannotSettle(w: World, e: Event, w': World, n: Name)
    requires Inv(w) && Took(w, e, w') && !ByDaemon(e) && Uncertain(w, n)
    ensures PcOf(w', e.p).Idle? || PcOf(w', e.p).name != n || !CanSettle(w', PcOf(w', e.p))
  {
  }

  lemma FileStaysUncertain(w: World, e: Event, w': World, n: Name)
    requires Inv(w) && Took(w, e, w') && Uncertain(w, n)
    ensures n in w'.reservations && w'.reservations[n].Creating?
  {
    if !ByDaemon(e) && e.p in w.procs {
      assert LaunchPc(w, w.procs[e.p]);
    }
  }

  lemma NoRequestFollows(w: World, e: Event, w': World, n: Name)
    requires Inv(w) && Took(w, e, w') && Uncertain(w, n)
    ensures n !in w'.containers && n !in w'.inflight
    ensures n in w'.landed <==> n in w.landed
  {
  }

  lemma UncertainKept(w: World, e: Event, w': World, n: Name)
    requires Inv(w) && Took(w, e, w') && Uncertain(w, n)
    ensures Uncertain(w', n)
  {
    FileStaysUncertain(w, e, w', n);
    NoRequestFollows(w, e, w', n);
    forall q <- w'.procs ensures w'.procs[q].Idle? || w'.procs[q].name != n || !CanSettle(w', w'.procs[q]) {
      if ByDaemon(e) || e.p != q {
        OthersStay(w, e, w', q);
      } else {
        StillCannotSettle(w, e, w', n);
      }
    }
  }

  // ---------------------------------------------------------------- which launches can still succeed

  /** A launch in this stage can still end with its container: there is, or can be, room for its name. */
  ghost predicate CanLandPc(w: World, pc: Pc) {
    match pc
    case Launched(_) => |UncertainNames(w)| < AUTHOR_LIMIT
    case Locked(_) => |w.reservations| < AUTHOR_LIMIT
    case Listed(_, _) => |w.reservations| < AUTHOR_LIMIT
    case Absent(_, _) => |w.reservations| < AUTHOR_LIMIT
    case Counted(_, _, _) => true
    case Reserved(_) => true
    case Sent(name) => name in w.inflight
    case _ => false
  }

  /** Another process is launching the name, whose container never existed, and can still succeed. */
  ghost predicate RivalCanLand(w: World, p: Proc, name: Name) {
    && name !in w.landed
    && exists q <- w.procs :: q != p && Launching(w.procs[q]) && w.procs[q].name == name && CanLandPc(w, w.procs[q])
  }

  /** The container never existed and no launch of the name can still succeed. */
  ghost predicate NeverLands(w: World, name: Name) {
    && name in w.launched && name !in w.landed && name !in w.inflight
    && forall q <- w.procs :: Launching(w.procs[q]) && w.procs[q].name == name ==> !CanLandPc(w, w.procs[q])
  }

  lemma ReservedSize(w: World, pc: Pc)
    requires LaunchPc(w, pc) && pc.Absent? && |w.containers + pc.reserved| < AUTHOR_LIMIT
    ensures |w.reservations| < AUTHOR_LIMIT
  {
    SubsetSize(w.reservations.Keys, w.containers + pc.reserved);
  }

  lemma UncertainGrows(w: World, e: Event, w': World)
    requires Inv(w) && Took(w, e, w')
    ensures UncertainNames(w) <= UncertainNames(w') && |UncertainNames(w)| <= |UncertainNames(w')|
  {
    forall n <- UncertainNames(w) ensures n in UncertainNames(w') {
      UncertainKept(w, e, w', n);
    }
    SubsetSize(UncertainNames(w), UncertainNames(w'));
  }

  lemma UncertainAreReserved(w: World)
    ensures |UncertainNames(w)| <= |w.reservations|
  {
    SubsetSize(UncertainNames(w), w.reservations.Keys);
  }

  /** A launch that cannot succeed does not become one that can, through its own events. */
  lemma OwnStaysHopeless(w: World, e: Event, w': World)
    requires Inv(w) && Took(w, e, w') && !ByDaemon(e) && !e.Launch?
    requires Launching(PcOf(w, e.p)) && !CanLandPc(w, PcOf(w, e.p)) && PcOf(w, e.p).name !in w.landed
    ensures !Launching(PcOf(w', e.p)) || !CanLandPc(w', PcOf(w', e.p))
  {
    var pc := PcOf(w, e.p);
    assert LaunchPc(w, pc);
    if e.Enter? {
      UncertainAreReserved(w);
    } else if e.Count? {
      ReservedSize(w, pc);
    }
  }

  /** Nor through the events of others: only the owner of the lock changes the directory. */
  lemma OtherStaysHopeless(w: World, e: Event, w': World, q: Proc)
    requires Inv(w) && Took(w, e, w') && (ByDaemon(e) || e.p != q) && q in w.procs
    requires Launching(PcOf(w, q)) && !CanLandPc(w, PcOf(w, q))
    requires PcOf(w, q).name !in w.inflight
    ensures !CanLandPc(w', PcOf(w', q))
  {
    OthersStay(w, e, w', q);
    UncertainGrows(w, e, w');
    if w'.reservations != w.reservations {
      DirectoryStays(w, e, w');
      assert !Critical(PcOf(w, q));
    }
    if !ByDaemon(e) {
      OneLauncher(w, e.p, q);
    }
  }

  lemma NeverLandsKept(w: World, e: Event, w': World, name: Name)
    requires Inv(w) && Took(w, e, w') && NeverLands(w, name)
    ensures NeverLands(w', name)
  {
    forall q <- w'.procs | Launching(w'.procs[q]) && w'.procs[q].name == name ensures !CanLandPc(w', w'.procs[q]) {
      LaunchingStays(w, e, w', q);
      if ByDaemon(e) || e.p != q {
        OtherStaysHopeless(w, e, w', q);
      } else {
        OwnStaysHopeless(w, e, w');
      }
    }
    NotRequested(w, e, w', name);
  }

  lemma NotRequested(w: World, e: Event, w': World, name: Name)
    requires Inv(w) && Took(w, e, w') && NeverLands(w, name)
    ensures name in w'.launched && name !in w'.landed && name !in w'.inflight
  {
    if e.Send? {
      assert CanLandPc(w, PcOf(w, e.p));
    }
  }

  // ---------------------------------------------------------------- the cleanup that is final

  /** The container does not exist and cannot be created any more. */
  ghost predicate AbsentForGood(w: World, name: Name) {
    && name !in w.containers && name !in w.inflight
    && (Gone(w, name) || name in w.landed || NeverLands(w, name))
  }

  lemma AbsentKept(w: World, e: Event, w': World, name: Name)
    requires Inv(w) && Took(w, e, w') && AbsentForGood(w, name)
    ensures AbsentForGood(w', name)
  {
    if Gone(w, name) {
      GoneKept(w, e, w', name);
    } else if NeverLands(w, name) {
      NeverLandsKept(w, e, w', name);
      InvKept(w, e, w');
    } else if e.Send? {
      assert LaunchPc(w, PcOf(w, e.p));
    }
  }

  /** What makes a cleanup final: nobody else launched, or the name never lands, or it has landed before. */
  ghost predicate Sound(w: World, pc: Pc, name: Name) {
    InCleanup(pc) ==> pc.name == name && (pc.quiet || NeverLands(w, name) || Landed(w, pc, name))
  }

  /** The name has landed, and from the moment the container was seen gone it stays so. */
  ghost predicate Landed(w: World, pc: Pc, name: Name) {
    name in w.landed && (pc.Unreleased? || pc.Releasing? || pc.Cleaned? ==> name !in w.containers)
  }

  lemma LandedByOther(w: World, e: Event, w': World, pc: Pc, name: Name)
    requires Inv(w) && Took(w, e, w') && Landed(w, pc, name)
    ensures Landed(w', pc, name)
  {
  }

  lemma LandedByOwn(w: World, e: Event, w': World, name: Name)
    requires Inv(w) && Took(w, e, w') && !ByDaemon(e) && !StartsCleanup(e)
    requires InCleanup(PcOf(w, e.p)) && PcOf(w, e.p).name == name && Landed(w, PcOf(w, e.p), name)
    ensures Landed(w', PcOf(w', e.p), name)
  {
  }

  /** A process that starts no cleanup goes on with the one it is in, or leaves it. */
  lemma SameCleanup(w: World, e: Event, w': World)
    requires Took(w, e, w') && !ByDaemon(e) && !StartsCleanup(e) && InCleanup(PcOf(w', e.p))
    ensures InCleanup(PcOf(w, e.p)) && PcOf(w, e.p).name == PcOf(w', e.p).name
      && PcOf(w, e.p).quiet == PcOf(w', e.p).quiet
  {
  }

  lemma SoundKept(w: World, e: Event, w': World, p: Proc, name: Name)
    requires Inv(w) && Took(w, e, w') && Sound(w, PcOf(w, p), name)
    requires StartsCleanup(e) ==> e.p != p
    ensures Sound(w', PcOf(w', p), name)
  {
    if InCleanup(PcOf(w', p)) {
      if ByDaemon(e) || e.p != p {
        OthersStay(w, e, w', p);
      } else {
        SameCleanup(w, e, w');
      }
      if NeverLands(w, name) {
        NeverLandsKept(w, e, w', name);
      } else if Landed(w, PcOf(w, p), name) {
        if ByDaemon(e) || e.p != p {
          LandedByOther(w, e, w', PcOf(w, p), name);
        } else {
          LandedByOwn(w, e, w', name);
        }
      }
    }
  }

  ghost predicate SoundWorld(w: World, p: Proc, name: Name) {
    Inv(w) && Sound(w, PcOf(w, p), name)
  }

  lemma SoundStep(ws: seq<World>, w: World, p: Proc, name: Name, i: nat)
    requires Runs(ws, w, OnceKeeping(p)) && i + 1 < |ws| && SoundWorld(ws[i], p, name)
    ensures SoundWorld(ws[i + 1], p, name)
  {
    var e := RunStep(ws, w, OnceKeeping(p), i);
    SoundKept(ws[i], e, ws[i + 1], p, name);
    InvKept(ws[i], e, ws[i + 1]);
  }

  lemma SoundLater(w: World, v: World, p: Proc, name: Name)
    requires SoundWorld(w, p, name) && Reaches(w, v, OnceKeeping(p))
    ensures SoundWorld(v, p, name)
  {
    var ws :| Runs(ws, w, OnceKeeping(p)) && ws[|ws| - 1] == v;
    var good := u => SoundWorld(u, p, name);
    forall k: nat | k + 1 < |ws| ensures Hands(ws, good, k) {
      if good(ws[k]) {
        SoundStep(ws, w, p, name, k);
      }
    }
    Along(ws, good, |ws| - 1);
  }

  ghost predicate AbsentWorld(w: World, name: Name) {
    Inv(w) && AbsentForGood(w, name)
  }

  lemma AbsentStep(ws: seq<World>, w: World, name: Name, i: nat)
    requires Runs(ws, w, Once) && i + 1 < |ws| && AbsentWorld(ws[i], name)
    ensures AbsentWorld(ws[i + 1], name)
  {
    var e := RunStep(ws, w, Once, i);
    AbsentKept(ws[i], e, ws[i + 1], name);
    InvKept(ws[i], e, ws[i + 1]);
  }

  lemma AbsentLater(w: World, v: World, name: Name)
    requires AbsentWorld(w, name) && Reaches(w, v, Once)
    ensures AbsentWorld(v, name)
  {
    var ws :| Runs(ws, w, Once) && ws[|ws| - 1] == v;
    var good := u => AbsentWorld(u, name);
    forall k: nat | k + 1 < |ws| ensures Hands(ws, good, k) {
      if good(ws[k]) {
        AbsentStep(ws, w, name, k);
      }
    }
    Along(ws, good, |ws| - 1);
  }

  lemma ConfirmedIsAbsent(w: World, p: Proc, name: Name)
    requires Inv(w) && Sound(w, PcOf(w, p), name) && PcOf(w, p).Cleaned? && PcOf(w, p).confirmed
    ensures AbsentForGood(w, name)
  {
    assert CleanPc(w, PcOf(w, p));
  }

  /** A sound cleanup is final. */
  lemma SoundIsFinal(w: World, p: Proc, name: Name)
    requires Inv(w) && Sound(w, PcOf(w, p), name)
    ensures !LiesLater(w, p, name)
  {
    forall v, u |
      && Reaches(w, v, OnceKeeping(p)) && PcOf(v, p).Cleaned? && PcOf(v, p).confirmed && Reaches(v, u, Once)
      ensures name !in u.containers + u.inflight
    {
      SoundLater(w, v, p, name);
      ConfirmedIsAbsent(v, p, name);
      AbsentLater(v, u, name);
    }
  }

  /** An outstanding create without a launching process in reach of it belongs to a process that has sent it. */
  lemma RequestHasLauncher(w: World, q: Proc, name: Name)
    requires Inv(w) && q in w.procs && Launching(w.procs[q]) && w.procs[q].name == name
    requires name in w.inflight
    ensures w.procs[q].Sent?
  {
    assert LaunchPc(w, w.procs[q]);
  }

  /** A rival that cannot land when the cleanup starts never will. */
  lemma HopelessRival(w: World, e: Event, w': World)
    requires Inv(w) && Took(w, e, w') && StartsCleanup(e) && !RivalCanLand(w, e.p, e.name)
    requires LaunchingOther(w, e.p, e.name) && e.name !in w.landed
    ensures NeverLands(w', e.name)
  {
    var name := e.name;
    var q :| q in w.procs && q != e.p && Launching(w.procs[q]) && w.procs[q].name == name;
    if name in w.inflight {
      RequestHasLauncher(w, q, name);
    }
    UncertainGrows(w, e, w');
    forall r <- w'.procs | Launching(w'.procs[r]) && w'.procs[r].name == name ensures !CanLandPc(w', w'.procs[r]) {
      LaunchingStays(w, e, w', r);
      assert r != e.p;
    }
  }

  /** Without a rival that can land, a cleanup starts sound. */
  lemma StartsSound(w: World, e: Event, w': World)
    requires Inv(w) && Took(w, e, w') && StartsCleanup(e) && !RivalCanLand(w, e.p, e.name)
    ensures Sound(w', PcOf(w', e.p), e.name)
  {
    if LaunchingOther(w, e.p, e.name) && e.name !in w.landed {
      HopelessRival(w, e, w');
    }
  }

  lemma StartsFinal(w: World, e: Event, w': World)
    requires Inv(w) && Took(w, e, w') && StartsCleanup(e) && !RivalCanLand(w, e.p, e.name)
    ensures !LiesLater(w', e.p, e.name)
  {
    StartsSound(w, e, w');
    InvKept(w, e, w');
    SoundIsFinal(w', e.p, e.name);
  }

  lemma TruthLater(w: World, p: Proc, name: Name, v: World, u: World)
    requires !LiesLater(w, p, name) && Reaches(w, v, OnceKeeping(p)) && Reaches(v, u, Once)
    requires PcOf(v, p).Cleaned? && PcOf(v, p).confirmed
    ensures name !in u.containers + u.inflight
  {
  }

  // ---------------------------------------------------------------- along a run

  /** The part of a run in which a process stays in one cleanup. */
  lemma Segment(ws: seq<World>, a: nat, b: nat, p: Proc)
    requires Run(ws) && a <= b < |ws| && forall k | a <= k < b :: InCleanup(PcOf(ws[k], p))
    ensures Reaches(ws[a], ws[b], OnceKeeping(p))
  {
    var part := ws[a..b + 1];
    forall i: nat | i + 1 < |part| ensures NextAt(part, i, OnceKeeping(p)) {
      assert part[i] == ws[a + i] && part[i + 1] == ws[a + i + 1];
      var e := RunStep(ws, ws[0], Once, a + i);
      assert Allows(OnceKeeping(p), part[i], e);
    }
    assert Runs(part, ws[a], OnceKeeping(p)) && part[|part| - 1] == ws[b];
  }

  lemma Rest(ws: seq<World>, a: nat, b: nat)
    requires Run(ws) && a <= b < |ws|
    ensures Reaches(ws[a], ws[b], Once)
  {
    var part := ws[a..b + 1];
    forall i: nat | i + 1 < |part| ensures NextAt(part, i, Once) {
      assert part[i] == ws[a + i] && part[i + 1] == ws[a + i + 1];
      assert NextAt(ws, a + i, Once);
    }
    assert Runs(part, ws[a], Once) && part[|part| - 1] == ws[b];
  }

  lemma StartedFinal(ws: seq<World>, k: nat, e: Event)
    requires Run(ws) && k + 1 < |ws| && Took(ws[k], e, ws[k + 1]) && StartsCleanup(e)
      && !RivalCanLand(ws[k], e.p, e.name)
    ensures !LiesLater(ws[k + 1], e.p, e.name)
  {
    InvAt(ws, k);
    StartsFinal(ws[k], e, ws[k + 1]);
  }

  /**
   In every run: a cleanup that started when no rival could land, and was confirmed, is
   final. The container does not exist and is not being created, then or later.
   */
  lemma ConfirmedCleanupIsFinal(ws: seq<World>, k: nat, e: Event, i: nat, j: nat)
    requires Run(ws) && k < i <= j < |ws| && Took(ws[k], e, ws[k + 1]) && StartsCleanup(e)
    requires !RivalCanLand(ws[k], e.p, e.name)
    requires forall m | k < m <= i :: InCleanup(PcOf(ws[m], e.p))
    requires PcOf(ws[i], e.p).Cleaned? && PcOf(ws[i], e.p).confirmed
    ensures e.name !in ws[j].containers + ws[j].inflight
  {
    StartedFinal(ws, k, e);
    Segment(ws, k + 1, i, e.p);
    Rest(ws, i, j);
    TruthLater(ws[k + 1], e.p, e.name, ws[i], ws[j]);
  }
}
