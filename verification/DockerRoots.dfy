/**
 Execution names that several state roots launch (artifacts/codeagent-launcher/docker_executor.py).

 A root's docker-job.json lets it launch one name once, and `_cleanup` is called by the
 process that launched it or, when that has ended, by the delivery controller's recovery
 under the attempt's lock (artifacts/orchestrator/delivery_controller.py). So a root does one
 thing at a time, and it is one process here: a recovery goes on as the root it recovers.
 */
module DockerRoots {
  import opened DockerAdmission
  import opened HostBudget

  /** What each root launched; `past` are the names from before the run, which nobody launches again. */
  datatype Rooted = Rooted(w: World, roots: map<Proc, Name>, past: set<Name>)

  ghost function Launches(r: Rooted, n: Name): set<Proc> {
    set p <- r.roots | r.roots[p] == n
  }

  /** With at most `k` launches of a name. */
  ghost predicate Can(r: Rooted, e: Event, k: nat) {
    && Enabled(r.w, e)
    && match e
       case Launch(p, n) => p !in r.roots && n !in r.past && |Launches(r, n)| < k
       case StartCleanup(p, n) => n in r.past || (p in r.roots && r.roots[p] == n)
       case _ => Allows(Working, r.w, e)
  }

  function After(r: Rooted, e: Event): Rooted
    requires Enabled(r.w, e)
  {
    Rooted(Effect(r.w, e), if e.Launch? then r.roots[e.p := e.name] else r.roots, r.past)
  }

  ghost predicate Start(r: Rooted) {
    Init(r.w) && r.roots == map[] && r.past == r.w.launched.Keys
  }

  ghost predicate StepAt(rs: seq<Rooted>, i: nat, k: nat)
    requires i + 1 < |rs|
  {
    exists e: Event :: Can(rs[i], e, k) && rs[i + 1] == After(rs[i], e)
  }

  ghost predicate Run(rs: seq<Rooted>, k: nat) {
    |rs| > 0 && Start(rs[0]) && forall i: nat | i + 1 < |rs| :: StepAt(rs, i, k)
  }

  // ---------------------------------------------------------------- invariant for two launches

  /** In this cleanup the process has seen the container of the name, so it may free any reservation. */
  predicate Saw(pc: Pc, n: Name) {
    || ((pc.Seen? || pc.Removed?) && pc.name == n)
    || ((pc.Unreleased? || pc.Releasing?) && pc.name == n && pc.observed)
  }

  /** It has missed the container, so it may free a `.created` reservation. */
  predicate Missed(pc: Pc, n: Name) {
    (pc.Unreleased? || pc.Releasing?) && pc.name == n && !pc.observed
  }

  ghost predicate NoneSaw(w: World, n: Name) {
    forall p: Proc :: !Saw(PcOf(w, p), n)
  }

  ghost predicate OwnName(r: Rooted, p: Proc) {
    var pc := PcOf(r.w, p);
    && (Launching(pc) ==> p in r.roots && r.roots[p] == pc.name)
    && (InCleanup(pc) ==> pc.name in r.past || (p in r.roots && r.roots[p] == pc.name))
  }

  /** At most two roots launched the name. */
  ghost predicate TwoRoots(r: Rooted, n: Name) {
    forall a, b, c | a in Launches(r, n) && b in Launches(r, n) && c in Launches(r, n) :: a == b || b == c || a == c
  }

  ghost predicate RootInv(r: Rooted) {
    && (forall p: Proc :: OwnName(r, p))
    && (forall p <- r.roots :: r.roots[p] !in r.past)
    && forall n: Name :: TwoRoots(r, n)
  }

  /** An outstanding create is covered, and no cleanup that could free its reservation is under way. */
  ghost predicate OutInv(w: World) {
    forall n <- w.inflight ::
      && n in w.reservations && w.reservations[n].Creating?
      && n !in w.containers && NoneSaw(w, n)
  }

  ghost predicate PcFacts(w: World, pc: Pc) {
    && (pc.Listed? || pc.Absent? || pc.Counted? ==>
          pc.name !in w.reservations && pc.reserved == w.reservations.Keys)
    && (pc.Absent? || pc.Counted? || pc.Reserved? ==>
          pc.name !in w.containers && pc.name !in w.inflight && NoneSaw(w, pc.name))
    && (pc.Counted? ==> |pc.owned + pc.reserved| < AUTHOR_LIMIT && w.containers <= pc.owned + pc.reserved)
    && (pc.Reserved? || pc.Sent? || pc.Replied? ==>
          pc.name in w.reservations && w.reservations[pc.name].Creating?)
    && (pc.Replied? ==> pc.name !in w.inflight)
    && ((pc.Unreleased? || pc.Releasing?) && pc.observed ==> pc.name !in w.containers)
  }

  ghost predicate PcInv(w: World) {
    forall p: Proc :: PcFacts(w, PcOf(w, p))
  }

  /** The root is past its checks: it has reserved, or it never will. */
  ghost predicate Busy(r: Rooted, p: Proc, n: Name) {
    p in r.roots && r.roots[p] == n && !BeforeReserve(PcOf(r.w, p))
  }

  ghost predicate OneBusy(r: Rooted, n: Name) {
    n !in r.past && forall a, b | Busy(r, a, n) && Busy(r, b, n) :: a == b
  }

  /** While one root alone is past its checks, its container is never without the reservation. */
  ghost predicate Guarded(w: World, n: Name) {
    && (n in w.containers ==> n in w.reservations)
    && (n !in w.reservations ==> NoneSaw(w, n))
    && (n in w.containers && w.reservations[n].Created? ==> forall p: Proc :: !Missed(PcOf(w, p), n))
  }

  ghost predicate OneInv(r: Rooted) {
    forall n: Name | OneBusy(r, n) :: Guarded(r.w, n)
  }

  ghost predicate Bound(w: World) {
    |w.containers + w.reservations.Keys| <= AUTHOR_LIMIT
  }

  ghost predicate RInv(r: Rooted) {
    LockInv(r.w) && RootInv(r) && OutInv(r.w) && PcInv(r.w) && OneInv(r) && Bound(r.w)
  }

  ghost predicate Did(r: Rooted, e: Event, r': Rooted) {
    Can(r, e, 2) && r' == After(r, e)
  }

  // ---------------------------------------------------------------- preservation

  lemma OthersNamed(r: Rooted, e: Event, r': Rooted, q: Proc)
    requires OwnName(r, q) && Did(r, e, r')
    ensures OwnName(r', q)
  {
    if ByDaemon(e) || e.p != q {
      OthersStay(r.w, e, r'.w, q);
    }
  }

  lemma NewLaunch(r: Rooted, e: Event, r': Rooted, a: Proc, b: Proc)
    requires Did(r, e, r') && e.Launch? && a in Launches(r, e.name) && b in Launches(r, e.name)
    ensures a == b
  {
    if a != b {
      SubsetSize({a, b}, Launches(r, e.name));
    }
  }

  lemma RootKept(r: Rooted, e: Event, r': Rooted)
    requires RootInv(r) && Did(r, e, r')
    ensures RootInv(r')
  {
    forall p: Proc ensures OwnName(r', p) {
      OthersNamed(r, e, r', p);
    }
    forall n: Name ensures TwoRoots(r', n) {
      assert TwoRoots(r, n);
      forall a, b, c | a in Launches(r', n) && b in Launches(r', n) && c in Launches(r', n)
        ensures a == b || b == c || a == c
      {
        if e.Launch? && e.name == n {
          var x, y := if a != e.p then a else b, if c != e.p then c else b;
          if x != e.p && y != e.p {
            NewLaunch(r, e, r', x, y);
          }
        } else {
          assert Launches(r', n) == Launches(r, n);
        }
      }
    }
  }

  /** A cleanup sees a container only while it is there. */
  lemma NoneSawStays(w: World, e: Event, w': World, n: Name)
    requires Enabled(w, e) && w' == Effect(w, e) && NoneSaw(w, n)
    requires n !in w.containers || !e.InspectSeen?
    ensures NoneSaw(w', n)
  {
    forall p: Proc ensures !Saw(PcOf(w', p), n) {
      assert !Saw(PcOf(w, p), n);
      if ByDaemon(e) || e.p != p {
        OthersStay(w, e, w', p);
      }
    }
  }

  /** What happens to the reservation of an outstanding create, or of one about to be sent. */
  lemma FileOfCreate(w: World, e: Event, w': World, n: Name)
    requires Enabled(w, e) && w' == Effect(w, e) && !EarlyReply(w, e)
    requires PcInv(w) && n in w.reservations && w.reservations[n].Creating? && NoneSaw(w, n)
    requires n in w.inflight
    ensures n in w'.reservations && w'.reservations[n].Creating?
  {
    if e.Release? || e.Rename? {
      assert PcFacts(w, PcOf(w, e.p)) && !Saw(PcOf(w, e.p), n);
    }
  }

  lemma OutKept(r: Rooted, e: Event, r': Rooted)
    requires OutInv(r.w) && PcInv(r.w) && Did(r, e, r')
    ensures OutInv(r'.w)
  {
    var w, w' := r.w, r'.w;
    forall n <- w'.inflight
      ensures n in w'.reservations && w'.reservations[n].Creating? && n !in w'.containers && NoneSaw(w', n)
    {
      if n in w.inflight {
        FileOfCreate(w, e, w', n);
      } else {
        assert e.Send? && PcFacts(w, PcOf(w, e.p));
      }
      NoneSawStays(w, e, w', n);
    }
  }

  /** A root that still checks has seen that no other root of its name is under way. */
  lemma ClearAtInspect(r: Rooted, e: Event)
    requires RootInv(r) && OutInv(r.w) && PcInv(r.w) && OneInv(r) && Can(r, e, 2) && e.InspectAbsent?
    ensures var n := PcOf(r.w, e.p).name; n !in r.w.inflight && NoneSaw(r.w, n)
  {
    var n := PcOf(r.w, e.p).name;
    assert OwnName(r, e.p) && PcFacts(r.w, PcOf(r.w, e.p));
    forall a, b | Busy(r, a, n) && Busy(r, b, n) ensures a == b {
      assert TwoRoots(r, n);
      assert a in Launches(r, n) && b in Launches(r, n) && e.p in Launches(r, n);
    }
    assert OneBusy(r, n);
  }

  /** Only the owner of the lock changes the directory. */
  lemma FilesHeld(w: World, e: Event, w': World, q: Proc)
    requires LockInv(w) && Enabled(w, e) && w' == Effect(w, e)
    requires (ByDaemon(e) || e.p != q) && Critical(PcOf(w, q))
    ensures w'.reservations == w.reservations
  {
    if w'.reservations != w.reservations {
      DirectoryStays(w, e, w');
    }
  }

  lemma FactsOfOther(w: World, e: Event, w': World, q: Proc)
    requires LockInv(w) && OutInv(w) && Enabled(w, e) && w' == Effect(w, e)
    requires (ByDaemon(e) || e.p != q) && PcFacts(w, PcOf(w, q))
    ensures PcFacts(w', PcOf(w', q))
  {
    var pc := PcOf(w, q);
    OthersStay(w, e, w', q);
    if Critical(pc) {
      FilesHeld(w, e, w', q);
    }
    if pc.Absent? || pc.Counted? || pc.Reserved? {
      NoneSawStays(w, e, w', pc.name);
    }
    if e.Land? {
      assert NoneSaw(w, e.name);
    }
  }

  lemma LaunchFacts(w: World, e: Event, w': World)
    requires Enabled(w, e) && w' == Effect(w, e) && !ByDaemon(e) && PcFacts(w, PcOf(w, e.p))
    requires e.Launch? || e.Enter? || e.List? || e.Count? || e.Reserve? || e.Send? || (e.Reply? && !EarlyReply(w, e))
    ensures PcFacts(w', PcOf(w', e.p))
  {
    var n := PcOf(w', e.p).name;
    if e.Count? || e.Reserve? {
      NoneSawStays(w, e, w', n);
    }
  }

  lemma ClearFacts(w: World, e: Event, w': World)
    requires Enabled(w, e) && w' == Effect(w, e) && e.InspectAbsent? && PcFacts(w, PcOf(w, e.p))
    requires var n := PcOf(w, e.p).name; n !in w.inflight && NoneSaw(w, n)
    ensures PcFacts(w', PcOf(w', e.p))
  {
    NoneSawStays(w, e, w', PcOf(w, e.p).name);
  }

  lemma CleanFacts(w: World, e: Event, w': World)
    requires Enabled(w, e) && w' == Effect(w, e) && !ByDaemon(e) && PcFacts(w, PcOf(w, e.p))
    requires e.InspectMissing? || e.InspectSeen? || e.Remove? || e.InspectGone? || e.EnterRelease?
    ensures PcFacts(w', PcOf(w', e.p))
  {
  }

  lemma EndFacts(w: World, e: Event, w': World)
    requires Enabled(w, e) && w' == Effect(w, e)
    requires e.Rename? || e.Leave? || e.Stop? || e.Release? || StartsCleanup(e)
    ensures PcFacts(w', PcOf(w', e.p))
  {
  }

  lemma PcKept(r: Rooted, e: Event, r': Rooted)
    requires LockInv(r.w) && RootInv(r) && OutInv(r.w) && PcInv(r.w) && OneInv(r) && Did(r, e, r')
    ensures PcInv(r'.w)
  {
    var w, w' := r.w, r'.w;
    forall q: Proc ensures PcFacts(w', PcOf(w', q)) {
      assert PcFacts(w, PcOf(w, q));
      if ByDaemon(e) || e.p != q {
        FactsOfOther(w, e, w', q);
      } else if e.InspectAbsent? {
        ClearAtInspect(r, e);
        ClearFacts(w, e, w');
      } else if e.Launch? || e.Enter? || e.List? || e.Count? || e.Reserve? || e.Send? || e.Reply? {
        LaunchFacts(w, e, w');
      } else if e.InspectMissing? || e.InspectSeen? || e.Remove? || e.InspectGone? || e.EnterRelease? {
        CleanFacts(w, e, w');
      } else {
        EndFacts(w, e, w');
      }
    }
  }

  /** A root that is past its checks never checks again. */
  lemma BusyStays(r: Rooted, e: Event, r': Rooted, p: Proc, n: Name)
    requires RootInv(r) && Did(r, e, r') && Busy(r, p, n)
    ensures Busy(r', p, n)
  {
    if ByDaemon(e) || e.p != p {
      OthersStay(r.w, e, r'.w, p);
    }
  }

  lemma OneWas(r: Rooted, e: Event, r': Rooted, n: Name)
    requires RootInv(r) && Did(r, e, r') && OneBusy(r', n)
    ensures OneBusy(r, n)
  {
    forall a, b | Busy(r, a, n) && Busy(r, b, n) ensures a == b {
      BusyStays(r, e, r', a, n);
      BusyStays(r, e, r', b, n);
    }
  }

  /** A cleanup of the name, or a launch past its checks, is the one busy root. */
  lemma IsBusy(r: Rooted, p: Proc, n: Name)
    requires RootInv(r) && n !in r.past
    requires var pc := PcOf(r.w, p);
      (InCleanup(pc) || (Launching(pc) && !BeforeReserve(pc))) && pc.name == n
    ensures Busy(r, p, n)
  {
    assert OwnName(r, p);
  }

  /** No cleanup frees the reservation of a container that is there. */
  lemma ReleaseLeavesNone(r: Rooted, e: Event, r': Rooted, n: Name)
    requires RootInv(r) && PcInv(r.w) && Did(r, e, r') && Guarded(r.w, n)
    requires n in r.w.reservations && n !in r'.w.reservations
    ensures e.Release? && PcOf(r.w, e.p).name == n && n !in r'.w.containers
  {
    assert PcFacts(r.w, PcOf(r.w, e.p));
  }

  lemma GuardedFile(r: Rooted, e: Event, r': Rooted, n: Name)
    requires RootInv(r) && OutInv(r.w) && PcInv(r.w) && Did(r, e, r') && Guarded(r.w, n)
    ensures n in r'.w.containers ==> n in r'.w.reservations
  {
    if n in r.w.reservations && n !in r'.w.reservations {
      ReleaseLeavesNone(r, e, r', n);
    }
  }

  lemma GuardedSaw(r: Rooted, e: Event, r': Rooted, n: Name)
    requires RootInv(r) && PcInv(r.w) && Did(r, e, r') && Guarded(r.w, n) && OneBusy(r, n)
    requires n !in r'.w.reservations
    ensures NoneSaw(r'.w, n)
  {
    if n in r.w.reservations {
      ReleaseLeavesNone(r, e, r', n);
      IsBusy(r, e.p, n);
      forall q: Proc ensures !Saw(PcOf(r'.w, q), n) {
        if q != e.p {
          OthersStay(r.w, e, r'.w, q);
          if Saw(PcOf(r.w, q), n) {
            IsBusy(r, q, n);
          }
        }
      }
    } else {
      NoneSawStays(r.w, e, r'.w, n);
    }
  }

  lemma GuardedMissed(r: Rooted, e: Event, r': Rooted, n: Name, q: Proc)
    requires RootInv(r) && OutInv(r.w) && Did(r, e, r') && Guarded(r.w, n) && OneBusy(r, n)
    requires n in r'.w.containers && n in r'.w.reservations && r'.w.reservations[n].Created?
    ensures !Missed(PcOf(r'.w, q), n)
  {
    if Missed(PcOf(r'.w, q), n) {
      if ByDaemon(e) || e.p != q {
        OthersStay(r.w, e, r'.w, q);
        IsBusy(r, q, n);
        if e.Rename? && PcOf(r.w, e.p).name == n {
          IsBusy(r, e.p, n);
        }
      }
    }
  }

  lemma OneKept(r: Rooted, e: Event, r': Rooted)
    requires RootInv(r) && OutInv(r.w) && PcInv(r.w) && OneInv(r) && Did(r, e, r')
    ensures OneInv(r')
  {
    forall n: Name | OneBusy(r', n) ensures Guarded(r'.w, n) {
      OneWas(r, e, r', n);
      assert Guarded(r.w, n);
      GuardedFile(r, e, r', n);
      if n !in r'.w.reservations {
        GuardedSaw(r, e, r', n);
      }
      if n in r'.w.containers && r'.w.reservations[n].Created? {
        forall q: Proc ensures !Missed(PcOf(r'.w, q), n) {
          GuardedMissed(r, e, r', n, q);
        }
      }
    }
  }

  lemma BoundStays(r: Rooted, e: Event, r': Rooted)
    requires OutInv(r.w) && PcInv(r.w) && Bound(r.w) && Did(r, e, r')
    ensures Bound(r'.w)
  {
    var w, w' := r.w, r'.w;
    var before, after := w.containers + w.reservations.Keys, w'.containers + w'.reservations.Keys;
    if e.Reserve? {
      var pc := PcOf(w, e.p);
      assert PcFacts(w, pc);
      SubsetSize(after, (pc.owned + pc.reserved) + {pc.name});
    } else {
      if e.Rename? {
        assert PcFacts(w, PcOf(w, e.p));
      }
      SubsetSize(after, before);
    }
  }

  lemma StepKeeps(r: Rooted, e: Event, r': Rooted)
    requires RInv(r) && Did(r, e, r')
    ensures RInv(r')
  {
    LockKept(r.w, e, r'.w);
    RootKept(r, e, r');
    OutKept(r, e, r');
    PcKept(r, e, r');
    OneKept(r, e, r');
    BoundStays(r, e, r');
  }

  lemma StartInv(r: Rooted)
    requires Start(r)
    ensures RInv(r)
  {
    assert r.w.containers + r.w.reservations.Keys == r.w.containers;
    forall n: Name | OneBusy(r, n) ensures Guarded(r.w, n) {
    }
  }

  lemma {:induction false} RunInv(rs: seq<Rooted>, k: nat, i: nat)
    requires Run(rs, k) && k <= 2 && i < |rs|
    ensures RInv(rs[i])
  {
    if i == 0 {
      StartInv(rs[0]);
    } else {
      RunInv(rs, k, i - 1);
      assert StepAt(rs, i - 1, k);
      var e: Event :| Can(rs[i - 1], e, k) && rs[i] == After(rs[i - 1], e);
      StepKeeps(rs[i - 1], e, rs[i]);
    }
  }

  /**
   Two launches of a name are harmless. In every run in which each name is launched at most
   twice, at most AUTHOR_LIMIT workers are live, also after all outstanding creates land,
   and each outstanding create has its `.creating` file.
   */
  lemma TwoLaunchesAreBounded(rs: seq<Rooted>, k: nat, i: nat)
    requires Run(rs, k) && k <= 2 && i < |rs|
    ensures |rs[i].w.containers + rs[i].w.reservations.Keys| <= AUTHOR_LIMIT
    ensures |rs[i].w.containers + rs[i].w.inflight| <= AUTHOR_LIMIT
    ensures forall n <- rs[i].w.inflight :: n in rs[i].w.reservations && rs[i].w.reservations[n].Creating?
  {
    RunInv(rs, k, i);
    var w := rs[i].w;
    SubsetSize(w.containers + w.inflight, w.containers + w.reservations.Keys);
  }
}
