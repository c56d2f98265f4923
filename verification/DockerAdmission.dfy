/**
 Admission of Docker workers (artifacts/codeagent-launcher/docker_executor.py) as a
 protocol between independent processes, the reservation directory and the Docker
 daemon.

 A process may stop between any two steps: that one event stands for a crash, an
 exception, a lost reply and a timeout, since all of them release its locks and
 leave every file and every request already sent as they are. A create request
 that was sent lands, or is dropped, at any later moment, whoever sent it and
 whether or not the sender is still alive. A container may vanish at any moment
 (a late `rm`, an operator).
 */
module DockerAdmission {
  import opened HostBudget

  type Name = string

  datatype Phase = Creating | Created

  /** Where a process is in `_create_reserved`, in `_cleanup` or in `_release_reservation`. */
  datatype Pc =
    | Idle
    | Launched(name: Name)
    | Locked(name: Name)
    | Listed(name: Name, reserved: set<Name>)
    | Absent(name: Name, reserved: set<Name>)
    | Counted(name: Name, reserved: set<Name>, owned: set<Name>)
    | Reserved(name: Name)
    | Sent(name: Name)
    | Replied(name: Name)
    | Renamed(name: Name)
    | Cleaning(name: Name, quiet: bool)
    | Seen(name: Name, quiet: bool)
    | Removed(name: Name, quiet: bool)
    | Unreleased(name: Name, quiet: bool, observed: bool)
    | Releasing(name: Name, quiet: bool, observed: bool)
    | Cleaned(name: Name, quiet: bool, confirmed: bool)

  /**
   `reservations` is the directory of `.creating` and `.created` files, `containers`
   what `docker ps --all` would list, `inflight` the create requests still able to
   land, `landed` every container that ever existed, `launched` every name with a
   docker-job.json and the process that its status file records, and `lock` the
   one-slot docker-admission budget.
   */
  datatype World = World(
    reservations: map<Name, Phase>,
    containers: set<Name>,
    inflight: set<Name>,
    landed: set<Name>,
    launched: map<Name, Proc>,
    lock: Slots,
    procs: map<Proc, Pc>)

  datatype Event =
    | Launch(p: Proc, name: Name)
    | Enter(p: Proc)
    | List(p: Proc)
    | InspectAbsent(p: Proc)
    | Count(p: Proc)
    | Reserve(p: Proc)
    | Send(p: Proc)
    | Reply(p: Proc)
    | Rename(p: Proc)
    | Leave(p: Proc)
    | StartCleanup(p: Proc, name: Name)
    | Recover(p: Proc, name: Name)
    | InspectMissing(p: Proc)
    | InspectSeen(p: Proc)
    | Remove(p: Proc)
    | InspectGone(p: Proc)
    | EnterRelease(p: Proc)
    | Release(p: Proc)
    | Stop(p: Proc)
    | Land(name: Name)
    | DropRequest(name: Name)
    | Vanish(name: Name)

  function PcOf(w: World, p: Proc): Pc {
    if p in w.procs then w.procs[p] else Idle
  }

  /** The process is between writing docker-job.json and leaving `_create_reserved`. */
  predicate Launching(pc: Pc) {
    pc.Launched? || pc.Locked? || pc.Listed? || pc.Absent? || pc.Counted?
    || pc.Reserved? || pc.Sent? || pc.Replied? || pc.Renamed?
  }

  /** The process is between entering `_cleanup` and having its answer. */
  predicate InCleanup(pc: Pc) {
    pc.Cleaning? || pc.Seen? || pc.Removed? || pc.Unreleased? || pc.Releasing? || pc.Cleaned?
  }

  predicate BeforeReserve(pc: Pc) {
    pc.Launched? || pc.Locked? || pc.Listed? || pc.Absent? || pc.Counted?
  }

  predicate BeforeSend(pc: Pc) {
    BeforeReserve(pc) || pc.Reserved?
  }

  /** The process owns the docker-admission lock. */
  predicate Critical(pc: Pc) {
    pc.Locked? || pc.Listed? || pc.Absent? || pc.Counted?
    || pc.Reserved? || pc.Sent? || pc.Replied? || pc.Renamed? || pc.Releasing?
  }

  /** Some other process is launching the name. */
  predicate LaunchingOther(w: World, p: Proc, name: Name) {
    exists q <- w.procs :: q != p && Launching(w.procs[q]) && w.procs[q].name == name
  }

  /**
   The guards the code itself checks, and those of the kernel and the daemon. StartCleanup
   is any call of `_cleanup`; Recover is the delivery controller's, which first sees that
   the process recorded for the job is not active (artifacts/orchestrator/delivery_controller.py).
   */
  predicate Enabled(w: World, e: Event) {
    match e
    case Launch(p, name) => PcOf(w, p).Idle?
    case Enter(p) => PcOf(w, p).Launched? && 0 !in w.lock
    case List(p) => PcOf(w, p).Locked? && PcOf(w, p).name !in w.reservations
    case InspectAbsent(p) => PcOf(w, p).Listed? && PcOf(w, p).name !in w.containers
    case Count(p) =>
      var pc := PcOf(w, p);
      pc.Absent? && |w.containers + pc.reserved| < AUTHOR_LIMIT
    case Reserve(p) => PcOf(w, p).Counted? && PcOf(w, p).name !in w.reservations
    case Send(p) => PcOf(w, p).Reserved?
    case Reply(p) => PcOf(w, p).Sent? && PcOf(w, p).name in w.landed
    case Rename(p) => PcOf(w, p).Replied? && PcOf(w, p).name in w.reservations
    case Leave(p) => PcOf(w, p).Renamed?
    case StartCleanup(p, name) =>
      && name in w.launched
      && (PcOf(w, p).Idle? || (Launching(PcOf(w, p)) && PcOf(w, p).name == name))
    case Recover(p, name) => PcOf(w, p).Idle? && name in w.launched && PcOf(w, w.launched[name]).Idle?
    case InspectMissing(p) => PcOf(w, p).Cleaning? && PcOf(w, p).name !in w.containers
    case InspectSeen(p) => PcOf(w, p).Cleaning? && PcOf(w, p).name in w.containers
    case Remove(p) => PcOf(w, p).Seen?
    case InspectGone(p) => PcOf(w, p).Removed? && PcOf(w, p).name !in w.containers
    case EnterRelease(p) => PcOf(w, p).Unreleased? && 0 !in w.lock
    case Release(p) => PcOf(w, p).Releasing?
    case Stop(p) => true
    case Land(name) => name in w.inflight && name !in w.containers
    case DropRequest(name) => name in w.inflight
    case Vanish(name) => name in w.containers
  }

  /** docker-job.json is opened with "x", so within one state root a name is launched once. */
  predicate OncePerName(w: World, e: Event) {
    e.Launch? ==> e.name !in w.launched
  }

  function Move(w: World, p: Proc, pc: Pc): World {
    w.(procs := w.procs[p := pc])
  }

  /** Leaves the critical section (or never entered it) and moves on. */
  function Unlock(w: World, p: Proc, pc: Pc): World {
    w.(lock := Drop(w.lock, p), procs := w.procs[p := pc])
  }

  function Effect(w: World, e: Event): World
    requires Enabled(w, e)
  {
    match e
    case Launch(p, name) => Move(w.(launched := w.launched[name := p]), p, Launched(name))
    case Enter(p) => Move(w.(lock := Take(w.lock, 0, p)), p, Locked(PcOf(w, p).name))
    case List(p) => Move(w, p, Listed(PcOf(w, p).name, w.reservations.Keys))
    case InspectAbsent(p) => Move(w, p, Absent(PcOf(w, p).name, PcOf(w, p).reserved))
    case Count(p) => Move(w, p, Counted(PcOf(w, p).name, PcOf(w, p).reserved, w.containers))
    case Reserve(p) =>
      var name := PcOf(w, p).name;
      Move(w.(reservations := w.reservations[name := Creating]), p, Reserved(name))
    case Send(p) =>
      var name := PcOf(w, p).name;
      Move(w.(inflight := w.inflight + {name}), p, Sent(name))
    case Reply(p) => Move(w, p, Replied(PcOf(w, p).name))
    case Rename(p) =>
      var name := PcOf(w, p).name;
      Move(w.(reservations := w.reservations[name := Created]), p, Renamed(name))
    case Leave(p) => Unlock(w, p, Idle)
    case StartCleanup(p, name) =>
      Unlock(w, p, Cleaning(name, !LaunchingOther(w, p, name)))
    case Recover(p, name) => Unlock(w, p, Cleaning(name, !LaunchingOther(w, p, name)))
    case InspectMissing(p) => Move(w, p, Unreleased(PcOf(w, p).name, PcOf(w, p).quiet, false))
    case InspectSeen(p) => Move(w, p, Seen(PcOf(w, p).name, PcOf(w, p).quiet))
    case Remove(p) =>
      var pc := PcOf(w, p);
      Move(w.(containers := w.containers - {pc.name}), p, Removed(pc.name, pc.quiet))
    case InspectGone(p) => Move(w, p, Unreleased(PcOf(w, p).name, PcOf(w, p).quiet, true))
    case EnterRelease(p) =>
      var pc := PcOf(w, p);
      Move(w.(lock := Take(w.lock, 0, p)), p, Releasing(pc.name, pc.quiet, pc.observed))
    case Release(p) =>
      var pc := PcOf(w, p);
      if pc.name !in w.reservations then
        Unlock(w, p, Cleaned(pc.name, pc.quiet, true))
      else if w.reservations[pc.name].Creating? && !pc.observed then
        Unlock(w, p, Cleaned(pc.name, pc.quiet, false))
      else
        Unlock(w.(reservations := w.reservations - {pc.name}), p, Cleaned(pc.name, pc.quiet, true))
    case Stop(p) => Unlock(w, p, Idle)
    case Land(name) =>
      w.(inflight := w.inflight - {name}, containers := w.containers + {name}, landed := w.landed + {name})
    case DropRequest(name) => w.(inflight := w.inflight - {name})
    case Vanish(name) => w.(containers := w.containers - {name})
  }

  /** No process yet, no reservation, and at most the allowed number of older containers. */
  ghost predicate Init(w: World) {
    && w.reservations == map[] && w.inflight == {} && w.lock == map[] && w.procs == map[]
    && |w.containers| <= AUTHOR_LIMIT
    && w.containers <= w.landed <= w.launched.Keys
  }

  /**
   Which events a run may contain. `Working` is what processes do within a launch or a
   cleanup; `OnceKeeping` keeps a process in the cleanup it is in.
   */
  datatype Rule = Working | Once | OnceKeeping(p: Proc)

  predicate StartsCleanup(e: Event) {
    e.StartCleanup? || e.Recover?
  }

  /** A create is reported done while it is still outstanding; without a second launch this cannot be. */
  predicate EarlyReply(w: World, e: Event) {
    e.Reply? && PcOf(w, e.p).Sent? && PcOf(w, e.p).name in w.inflight
  }

  predicate Allows(rule: Rule, w: World, e: Event) {
    match rule
    case Working => !e.Launch? && !StartsCleanup(e) && !EarlyReply(w, e)
    case Once => OncePerName(w, e)
    case OnceKeeping(p) => OncePerName(w, e) && (StartsCleanup(e) ==> e.p != p)
  }

  ghost predicate Next(w: World, w': World, rule: Rule) {
    exists e: Event :: Enabled(w, e) && Allows(rule, w, e) && w' == Effect(w, e)
  }

  ghost predicate NextAt(ws: seq<World>, i: nat, rule: Rule)
    requires i + 1 < |ws|
  {
    Next(ws[i], ws[i + 1], rule)
  }

  /** A run from `w`. */
  ghost predicate Runs(ws: seq<World>, w: World, rule: Rule) {
    && |ws| > 0 && ws[0] == w
    && forall i: nat | i + 1 < |ws| :: NextAt(ws, i, rule)
  }

  ghost predicate Run(ws: seq<World>) {
    |ws| > 0 && Init(ws[0]) && Runs(ws, ws[0], Once)
  }

  // ---------------------------------------------------------------- invariant

  /** The lock serialises the critical sections. */
  ghost predicate LockInv(w: World) {
    && WellFormed(w.lock, 1)
    && forall p: Proc :: Critical(PcOf(w, p)) <==> 0 in w.lock && w.lock[0] == p
  }

  /** Every outstanding create is covered by a `.creating` reservation. */
  ghost predicate CoverInv(w: World) {
    && (forall n <- w.inflight :: n in w.reservations && w.reservations[n].Creating?)
    && w.inflight !! w.landed
    && w.containers <= w.landed <= w.launched.Keys
    && w.reservations.Keys <= w.launched.Keys
  }

  ghost predicate BoundInv(w: World) {
    |w.containers + w.reservations.Keys| <= AUTHOR_LIMIT
  }

  /** What a process remembers while it launches. */
  ghost predicate LaunchPc(w: World, pc: Pc) {
    && (Launching(pc) ==> pc.name in w.launched)
    && (BeforeReserve(pc) ==> pc.name !in w.reservations)
    && (BeforeSend(pc) ==> pc.name !in w.inflight && pc.name !in w.landed)
    && (pc.Reserved? || pc.Sent? || pc.Replied? ==>
          pc.name in w.reservations && w.reservations[pc.name].Creating?)
    && (pc.Replied? || pc.Renamed? ==> pc.name in w.landed)
    && (pc.Listed? || pc.Absent? || pc.Counted? ==> pc.reserved == w.reservations.Keys)
    && (pc.Counted? ==> |pc.owned + pc.reserved| < AUTHOR_LIMIT && w.containers <= pc.owned + pc.reserved)
  }

  /** A launching process is the one recorded for its name, so no two launch one name. */
  ghost predicate LaunchInv(w: World) {
    && (forall p <- w.procs :: LaunchPc(w, w.procs[p]))
    && forall p <- w.procs :: Launching(w.procs[p]) ==> w.launched[w.procs[p].name] == p
  }

  ghost predicate Quiet(w: World, name: Name) {
    && name in w.launched
    && forall p <- w.procs :: Launching(w.procs[p]) ==> w.procs[p].name != name
  }

  /** The container does not exist and never can again. */
  ghost predicate Gone(w: World, name: Name) {
    Quiet(w, name) && name !in w.containers && name !in w.inflight
  }

  /** What a process remembers while it cleans up. */
  ghost predicate CleanPc(w: World, pc: Pc) {
    && (pc.Cleaning? || pc.Seen? || pc.Removed? || pc.Unreleased? || pc.Releasing? || pc.Cleaned? ==>
          pc.name in w.launched && (pc.quiet ==> Quiet(w, pc.name)))
    && (pc.Seen? || pc.Removed? ==> pc.name in w.landed)
    && (pc.Unreleased? || pc.Releasing? ==>
          if pc.observed then pc.name in w.landed && pc.name !in w.containers
          else pc.quiet ==> Gone(w, pc.name) || (pc.name in w.reservations && w.reservations[pc.name].Creating?))
    && (pc.Cleaned? && pc.quiet && pc.confirmed ==> Gone(w, pc.name))
  }

  ghost predicate CleanInv(w: World) {
    forall p <- w.procs :: CleanPc(w, w.procs[p])
  }

  ghost predicate Inv(w: World) {
    LockInv(w) && CoverInv(w) && BoundInv(w) && LaunchInv(w) && CleanInv(w)
  }

  // ---------------------------------------------------------------- preservation

  ghost predicate Took(w: World, e: Event, w': World) {
    Enabled(w, e) && OncePerName(w, e) && w' == Effect(w, e)
  }

  predicate ByDaemon(e: Event) {
    e.Land? || e.DropRequest? || e.Vanish?
  }

  /** An event moves the one process that takes it. */
  lemma OthersStay(w: World, e: Event, w': World, q: Proc)
    requires Enabled(w, e) && w' == Effect(w, e)
    requires ByDaemon(e) || e.p != q
    ensures PcOf(w', q) == PcOf(w, q)
    ensures q in w'.procs <==> q in w.procs
  {
  }

  /** Only Launch starts launching; every other event keeps the name or ends it. */
  lemma LaunchingStays(w: World, e: Event, w': World, q: Proc)
    requires Took(w, e, w') && Launching(PcOf(w', q))
    ensures (e.Launch? && e.p == q && e.name == PcOf(w', q).name && e.name !in w.launched)
            || (Launching(PcOf(w, q)) && PcOf(w, q).name == PcOf(w', q).name)
  {
    if ByDaemon(e) || e.p != q {
      OthersStay(w, e, w', q);
    }
  }

  lemma LockOfOwn(w: World, e: Event, w': World)
    requires LockInv(w) && Enabled(w, e) && w' == Effect(w, e) && !ByDaemon(e)
    ensures Critical(PcOf(w', e.p)) <==> 0 in w'.lock && w'.lock[0] == e.p
  {
  }

  lemma LockOfOther(w: World, e: Event, w': World, q: Proc)
    requires LockInv(w) && Enabled(w, e) && w' == Effect(w, e) && (ByDaemon(e) || e.p != q)
    ensures Critical(PcOf(w', q)) <==> 0 in w'.lock && w'.lock[0] == q
  {
    OthersStay(w, e, w', q);
  }

  lemma LockKept(w: World, e: Event, w': World)
    requires LockInv(w) && Enabled(w, e) && w' == Effect(w, e)
    ensures LockInv(w')
  {
    forall q: Proc ensures Critical(PcOf(w', q)) <==> 0 in w'.lock && w'.lock[0] == q {
      if ByDaemon(e) || e.p != q {
        LockOfOther(w, e, w', q);
      } else {
        LockOfOwn(w, e, w');
      }
    }
  }

  lemma CoverKept(w: World, e: Event, w': World)
    requires CoverInv(w) && Took(w, e, w')
    requires ByDaemon(e) || (LaunchPc(w, PcOf(w, e.p)) && CleanPc(w, PcOf(w, e.p)))
    ensures CoverInv(w')
  {
    if e.Release? {
      assert w'.inflight == w.inflight;
    }
  }

  lemma BoundKept(w: World, e: Event, w': World)
    requires CoverInv(w) && BoundInv(w) && Took(w, e, w')
    requires ByDaemon(e) || LaunchPc(w, PcOf(w, e.p))
    ensures BoundInv(w')
  {
    var before, after := w.containers + w.reservations.Keys, w'.containers + w'.reservations.Keys;
    if e.Reserve? {
      var pc := PcOf(w, e.p);
      SubsetSize(after, (pc.owned + pc.reserved) + {pc.name});
    } else {
      CountedShrinks(w, e, w');
      SubsetSize(after, before);
    }
  }

  /** Nothing but a reservation makes the counted names grow: a landing create was counted already. */
  lemma CountedShrinks(w: World, e: Event, w': World)
    requires CoverInv(w) && Took(w, e, w') && !e.Reserve?
    ensures w'.containers + w'.reservations.Keys <= w.containers + w.reservations.Keys
  {
  }

  /** Only the lock owner changes the reservation directory. */
  lemma DirectoryStays(w: World, e: Event, w': World)
    requires Enabled(w, e) && w' == Effect(w, e) && w'.reservations != w.reservations
    ensures (e.Reserve? || e.Rename? || e.Release?) && Critical(PcOf(w, e.p))
  {
  }

  lemma LaunchPcOfOther(w: World, e: Event, w': World, q: Proc)
    requires LockInv(w) && CoverInv(w) && Took(w, e, w')
    requires ByDaemon(e) || e.p != q
    requires LaunchPc(w, PcOf(w, q))
    requires Launching(PcOf(w, q)) && !ByDaemon(e) && Launching(PcOf(w, e.p)) ==> PcOf(w, q).name != PcOf(w, e.p).name
    ensures LaunchPc(w', PcOf(w', q))
  {
    OthersStay(w, e, w', q);
    if w'.reservations != w.reservations && Launching(PcOf(w, q)) {
      DirectoryStays(w, e, w');
      assert !Critical(PcOf(w, q));
    }
  }

  lemma ChecksRemembered(w: World, e: Event, w': World)
    requires CoverInv(w) && Took(w, e, w')
    requires e.Launch? || e.Enter? || e.List? || e.InspectAbsent?
    requires LaunchPc(w, PcOf(w, e.p))
    ensures LaunchPc(w', PcOf(w', e.p))
  {
  }

  lemma CountRemembered(w: World, e: Event, w': World)
    requires CoverInv(w) && Took(w, e, w') && e.Count?
    requires LaunchPc(w, PcOf(w, e.p))
    ensures LaunchPc(w', PcOf(w', e.p))
  {
  }

  lemma RequestRemembered(w: World, e: Event, w': World)
    requires CoverInv(w) && Took(w, e, w')
    requires e.Send? || e.Reply?
    requires LaunchPc(w, PcOf(w, e.p))
    ensures LaunchPc(w', PcOf(w', e.p))
  {
  }

  lemma FileRemembered(w: World, e: Event, w': World)
    requires CoverInv(w) && Took(w, e, w')
    requires e.Reserve? || e.Rename?
    requires LaunchPc(w, PcOf(w, e.p))
    ensures LaunchPc(w', PcOf(w', e.p))
  {
  }

  lemma StopsLaunching(w: World, e: Event, w': World)
    requires Took(w, e, w') && !ByDaemon(e)
    requires e.Leave? || StartsCleanup(e) || e.Stop? || InCleanup(PcOf(w, e.p))
    ensures !Launching(PcOf(w', e.p)) && LaunchPc(w', PcOf(w', e.p))
  {
  }

  lemma LaunchPcOfOwn(w: World, e: Event, w': World)
    requires CoverInv(w) && Took(w, e, w') && !ByDaemon(e)
    requires LaunchPc(w, PcOf(w, e.p))
    ensures LaunchPc(w', PcOf(w', e.p))
  {
    if e.Launch? || e.Enter? || e.List? || e.InspectAbsent? {
      ChecksRemembered(w, e, w');
    } else if e.Count? {
      CountRemembered(w, e, w');
    } else if e.Send? || e.Reply? {
      RequestRemembered(w, e, w');
    } else if e.Reserve? || e.Rename? {
      FileRemembered(w, e, w');
    } else {
      StopsLaunching(w, e, w');
    }
  }

  /** A launching process stays the one recorded for its name. */
  lemma OwnerKept(w: World, e: Event, w': World, p: Proc)
    requires LaunchInv(w) && Took(w, e, w') && Launching(PcOf(w', p))
    ensures PcOf(w', p).name in w'.launched && w'.launched[PcOf(w', p).name] == p
  {
    LaunchingStays(w, e, w', p);
    if Launching(PcOf(w, p)) {
      assert LaunchPc(w, PcOf(w, p));
    }
  }

  lemma LaunchPcKept(w: World, e: Event, w': World, q: Proc)
    requires LockInv(w) && CoverInv(w) && LaunchInv(w) && Took(w, e, w') && q in w'.procs
    ensures LaunchPc(w', PcOf(w', q))
  {
    assert LaunchPc(w, PcOf(w, q));
    if ByDaemon(e) || e.p != q {
      LaunchPcOfOther(w, e, w', q);
    } else {
      LaunchPcOfOwn(w, e, w');
    }
  }

  lemma LaunchKept(w: World, e: Event, w': World)
    requires LockInv(w) && CoverInv(w) && LaunchInv(w) && Took(w, e, w')
    ensures LaunchInv(w')
  {
    forall q <- w'.procs ensures LaunchPc(w', w'.procs[q]) {
      LaunchPcKept(w, e, w', q);
    }
    forall p <- w'.procs | Launching(w'.procs[p]) ensures w'.launched[w'.procs[p].name] == p {
      OwnerKept(w, e, w', p);
    }
  }

  lemma QuietKept(w: World, e: Event, w': World, name: Name)
    requires Took(w, e, w') && Quiet(w, name)
    ensures Quiet(w', name)
  {
    forall p <- w'.procs | Launching(w'.procs[p]) ensures w'.procs[p].name != name {
      LaunchingStays(w, e, w', p);
    }
  }

  lemma GoneKept(w: World, e: Event, w': World, name: Name)
    requires Took(w, e, w') && Gone(w, name)
    ensures Gone(w', name)
  {
    QuietKept(w, e, w', name);
  }

  /** A `.creating` file of a quiet name goes away only with its container. */
  lemma CreatingStays(w: World, e: Event, w': World, name: Name)
    requires CoverInv(w) && Took(w, e, w') && Quiet(w, name)
    requires ByDaemon(e) || (LaunchPc(w, PcOf(w, e.p)) && CleanPc(w, PcOf(w, e.p)))
    requires name in w.reservations && w.reservations[name].Creating?
    ensures Gone(w', name) || (name in w'.reservations && w'.reservations[name].Creating?)
  {
    if name !in w'.reservations || !w'.reservations[name].Creating? {
      assert e.Release? || e.Rename?;
      QuietKept(w, e, w', name);
    }
  }

  lemma CleanPcOfOther(w: World, e: Event, w': World, q: Proc)
    requires CoverInv(w) && Took(w, e, w')
    requires ByDaemon(e) || (e.p != q && LaunchPc(w, PcOf(w, e.p)) && CleanPc(w, PcOf(w, e.p)))
    requires CleanPc(w, PcOf(w, q))
    ensures CleanPc(w', PcOf(w', q))
  {
    OthersStay(w, e, w', q);
    var pc := PcOf(w, q);
    if InCleanup(pc) && pc.quiet {
      QuietKept(w, e, w', pc.name);
      if Gone(w, pc.name) {
        GoneKept(w, e, w', pc.name);
      } else if pc.name in w.reservations && w.reservations[pc.name].Creating? {
        CreatingStays(w, e, w', pc.name);
      }
    }
  }

  lemma CleanPcOfOwn(w: World, e: Event, w': World)
    requires CoverInv(w) && Took(w, e, w') && !ByDaemon(e)
    requires CleanPc(w, PcOf(w, e.p))
    ensures CleanPc(w', PcOf(w', e.p))
  {
    var pc, pc' := PcOf(w, e.p), PcOf(w', e.p);
    if InCleanup(pc') && !StartsCleanup(e) {
      assert InCleanup(pc) && pc.name == pc'.name && pc.quiet == pc'.quiet;
      if pc.quiet {
        QuietKept(w, e, w', pc.name);
        if Gone(w, pc.name) {
          GoneKept(w, e, w', pc.name);
        }
      }
    }
  }

  lemma CleanKept(w: World, e: Event, w': World)
    requires CoverInv(w) && LaunchInv(w) && CleanInv(w) && Took(w, e, w')
    ensures CleanInv(w')
  {
    forall q <- w'.procs ensures CleanPc(w', w'.procs[q]) {
      if ByDaemon(e) || e.p != q {
        CleanPcOfOther(w, e, w', q);
      } else {
        CleanPcOfOwn(w, e, w');
      }
    }
  }

  lemma InvKept(w: World, e: Event, w': World)
    requires Inv(w) && Took(w, e, w')
    ensures Inv(w')
  {
    LockKept(w, e, w');
    CoverKept(w, e, w');
    BoundKept(w, e, w');
    LaunchKept(w, e, w');
    CleanKept(w, e, w');
  }

  lemma InitInv(w: World)
    requires Init(w)
    ensures Inv(w)
  {
    assert w.containers + w.reservations.Keys == w.containers;
  }

  lemma RunStep(ws: seq<World>, w: World, rule: Rule, i: nat) returns (e: Event)
    requires Runs(ws, w, rule) && i + 1 < |ws|
    ensures Enabled(ws[i], e) && Allows(rule, ws[i], e) && ws[i + 1] == Effect(ws[i], e)
    ensures Took(ws[i], e, ws[i + 1])
  {
    assert NextAt(ws, i, rule);
    e :| Enabled(ws[i], e) && Allows(rule, ws[i], e) && ws[i + 1] == Effect(ws[i], e);
  }

  /** No two processes launch one name. */
  lemma OneLauncher(w: World, p: Proc, q: Proc)
    requires LaunchInv(w)
    ensures Launching(PcOf(w, p)) && Launching(PcOf(w, q)) && PcOf(w, p).name == PcOf(w, q).name ==> p == q
  {
    if Launching(PcOf(w, p)) && Launching(PcOf(w, q)) && PcOf(w, p).name == PcOf(w, q).name {
      assert LaunchPc(w, w.procs[p]) && LaunchPc(w, w.procs[q]);
    }
  }

  lemma StepInv(ws: seq<World>, w: World, rule: Rule, i: nat)
    requires Runs(ws, w, rule) && i + 1 < |ws| && Inv(ws[i])
    ensures Inv(ws[i + 1])
  {
    var e := RunStep(ws, w, rule, i);
    InvKept(ws[i], e, ws[i + 1]);
  }

  ghost predicate Hands(ws: seq<World>, good: World -> bool, i: nat)
    requires i + 1 < |ws|
  {
    good(ws[i]) ==> good(ws[i + 1])
  }

  /** What every step hands on holds all along. */
  lemma {:induction false} Along(ws: seq<World>, good: World -> bool, i: nat)
    requires i < |ws| && good(ws[0]) && forall k: nat | k + 1 < |ws| :: Hands(ws, good, k)
    ensures good(ws[i])
  {
    if i > 0 {
      Along(ws, good, i - 1);
      assert Hands(ws, good, i - 1);
    }
  }

  lemma RunInv(ws: seq<World>, w: World, rule: Rule, i: nat)
    requires Runs(ws, w, rule) && Inv(w) && i < |ws|
    ensures Inv(ws[i])
  {
    var good := v => Inv(v);
    forall k: nat | k + 1 < |ws| ensures Hands(ws, good, k) {
      if Inv(ws[k]) {
        StepInv(ws, w, rule, k);
      }
    }
    Along(ws, good, i);
  }

  lemma InvAt(ws: seq<World>, i: nat)
    requires Run(ws) && i < |ws|
    ensures Inv(ws[i])
  {
    InitInv(ws[0]);
    RunInv(ws, ws[0], Once, i);
  }

  // ---------------------------------------------------------------- theorems

  /**
   At most AUTHOR_LIMIT workers are live at any moment of any run, and that stays so
   even if every outstanding create request lands at once.
   */
  lemma LiveWorkersBounded(ws: seq<World>, i: nat)
    requires Run(ws) && i < |ws|
    ensures |ws[i].containers + ws[i].reservations.Keys| <= AUTHOR_LIMIT
    ensures |ws[i].containers + ws[i].inflight| <= AUTHOR_LIMIT
    ensures forall n <- ws[i].inflight :: n in ws[i].reservations && ws[i].reservations[n].Creating?
  {
    InvAt(ws, i);
    var w := ws[i];
    SubsetSize(w.containers + w.inflight, w.containers + w.reservations.Keys);
  }

  lemma GoneStep(ws: seq<World>, i: nat, name: Name)
    requires Run(ws) && i + 1 < |ws| && Gone(ws[i], name)
    ensures Gone(ws[i + 1], name)
  {
    var e := RunStep(ws, ws[0], Once, i);
    GoneKept(ws[i], e, ws[i + 1], name);
  }

  lemma {:induction false} GoneForever(ws: seq<World>, i: nat, j: nat, name: Name)
    requires Run(ws) && i <= j < |ws| && Gone(ws[i], name)
    ensures Gone(ws[j], name)
    decreases j
  {
    if i < j {
      GoneForever(ws, i, j - 1, name);
      GoneStep(ws, j - 1, name);
    }
  }
}
