/**
 What the gateway publishes about its budget while it runs: `report_progress` and
 `budget_snapshot` of the gateway and `progress` of the executor
 (artifacts/codeagent-launcher/docker_executor.py).

 One relay thread writes the counters one after the other, the main thread may switch the
 phase at any time, and whoever publishes reads the request count first and then phase,
 authoring and repair counters, each at its own moment.
 */
module GatewayProgress {
  import opened Gateway

  // ---------------------------------------------------------------- the published snapshot

  datatype Meter = Meter(limit: int, used: int, remaining: int)
  datatype Snapshot = Snapshot(phase: BudgetPhase, total: Meter, authoring: Meter, repair: Meter)

  /** `budget_snapshot` of a phase and two counters, which it reads one after the other. */
  function SnapshotOf(phase: BudgetPhase, authoring: nat, repair: nat): Snapshot {
    Snapshot(phase,
             Meter(MAX_REQUESTS, authoring + repair, MAX_REQUESTS - (authoring + repair)),
             Meter(AUTHORING_LIMIT, authoring, AUTHORING_LIMIT - authoring),
             Meter(REPAIR_LIMIT, repair, REPAIR_LIMIT - repair))
  }

  /** Read all at once. */
  function TakeSnapshot(b: Budget): Snapshot {
    SnapshotOf(b.phase, b.authoring, b.repair)
  }

  predicate ValidMeter(m: Meter) {
    && 0 <= m.limit <= 64 && 0 <= m.used <= 64 && 0 <= m.remaining <= 64
    && m.limit >= 1 && m.used + m.remaining == m.limit
  }

  predicate MetersAddUp(s: Snapshot) {
    && ValidMeter(s.total) && ValidMeter(s.authoring) && ValidMeter(s.repair)
    && s.total.limit == s.authoring.limit + s.repair.limit
    && s.total.used == s.authoring.used + s.repair.used
  }

  /** `validate_model_request_budget` on a snapshot and the request count published with it. */
  predicate ValidSnapshot(s: Snapshot, modelRequests: int) {
    && 0 <= modelRequests <= 64 && MetersAddUp(s)
    && s.total.used == modelRequests
    && (s.phase.Authoring? ==> s.repair.used == 0)
  }

  // ---------------------------------------------------------------- single writes

  /** How far the relay thread is with one POST. */
  datatype Post = NoPost | Checked(retry: bool) | Totalled(retry: bool) | Phased(retry: bool)

  datatype Live = Live(b: Budget, post: Post)

  /** `Abandon`: the attempt ends before its POST. */
  datatype Event = Check(retry: bool) | CountTotal | CountPhase | CountKind | Abandon | ToRepair

  const START := Live(FRESH, NoPost)

  predicate Enabled(l: Live, e: Event) {
    match e
    case Check(retry) => l.post.NoPost? && Available(l.b) && (retry ==> l.b.retries < MAX_RETRIES_PER_JOB)
    case CountTotal => l.post.Checked?
    case CountPhase => l.post.Totalled?
    case CountKind => l.post.Phased?
    case Abandon => l.post.Checked?
    case ToRepair => true
  }

  function Effect(l: Live, e: Event): Live
    requires Enabled(l, e)
  {
    var b := l.b;
    match e
    case Check(retry) => l.(post := Checked(retry))
    case CountTotal => Live(b.(requests := b.requests + 1), Totalled(l.post.retry))
    case CountPhase =>
      Live(if b.phase.Authoring? then b.(authoring := b.authoring + 1) else b.(repair := b.repair + 1),
           Phased(l.post.retry))
    case CountKind =>
      Live(if l.post.retry then b.(retries := b.retries + 1) else b.(logical := b.logical + 1), NoPost)
    case Abandon => l.(post := NoPost)
    case ToRepair => l.(b := b.(phase := Repair))
  }

  ghost predicate NextAt(ls: seq<Live>, i: nat)
    requires i + 1 < |ls|
  {
    exists e: Event :: Enabled(ls[i], e) && ls[i + 1] == Effect(ls[i], e)
  }

  ghost predicate Run(ls: seq<Live>) {
    |ls| > 0 && ls[0] == START && forall i: nat | i + 1 < |ls| :: NextAt(ls, i)
  }

  ghost predicate LiveInv(l: Live) {
    var b, post := l.b, l.post;
    && b.requests == b.authoring + b.repair + (if post.Totalled? then 1 else 0)
    && b.requests == b.logical + b.retries + (if post.Totalled? || post.Phased? then 1 else 0)
    && b.authoring <= AUTHORING_LIMIT && b.repair <= REPAIR_LIMIT && b.retries <= MAX_RETRIES_PER_JOB
    && (b.phase.Authoring? ==> b.repair == 0)
    && (post.Checked? || post.Totalled? ==> PhaseUsed(b) < PhaseLimit(b.phase))
    && (!post.NoPost? && post.retry ==> b.retries < MAX_RETRIES_PER_JOB)
  }

  /** Counters only grow and the phase only goes to repair. */
  ghost predicate Later(a: Live, z: Live) {
    && a.b.requests <= z.b.requests && a.b.authoring <= z.b.authoring && a.b.repair <= z.b.repair
    && (a.b.phase.Repair? ==> z.b.phase.Repair?)
  }

  lemma StepKeeps(l: Live, e: Event)
    requires LiveInv(l) && Enabled(l, e)
    ensures LiveInv(Effect(l, e)) && Later(l, Effect(l, e))
  {
  }

  lemma {:induction false} RunInv(ls: seq<Live>, i: nat)
    requires Run(ls) && i < |ls|
    ensures LiveInv(ls[i])
    ensures i > 0 ==> Later(ls[i - 1], ls[i])
  {
    if i > 0 {
      RunInv(ls, i - 1);
      assert NextAt(ls, i - 1);
      var e: Event :| Enabled(ls[i - 1], e) && ls[i] == Effect(ls[i - 1], e);
      StepKeeps(ls[i - 1], e);
    }
  }

  lemma {:induction false} RunGrows(ls: seq<Live>, i: nat, j: nat)
    requires Run(ls) && i <= j < |ls|
    ensures Later(ls[i], ls[j])
    decreases j - i
  {
    if i < j {
      RunGrows(ls, i, j - 1);
      RunInv(ls, j);
    }
  }

  // ---------------------------------------------------------------- counting the writes

  datatype Counter = AuthoringCount | RepairCount | LogicalCount | RetryCount

  function Value(b: Budget, c: Counter): nat {
    match c
    case AuthoringCount => b.authoring
    case RepairCount => b.repair
    case LogicalCount => b.logical
    case RetryCount => b.retries
  }

  /** The step after moment `k` writes one of the phase counters. */
  ghost predicate PhaseWrite(ls: seq<Live>, k: nat) {
    k + 1 < |ls| && ls[k].post.Totalled? && ls[k + 1].post.Phased?
  }

  /** The step after moment `k` adds one to this counter. */
  ghost predicate IsWrite(ls: seq<Live>, c: Counter, k: nat) {
    && k + 1 < |ls|
    && match c
       case AuthoringCount => PhaseWrite(ls, k) && ls[k].b.phase.Authoring?
       case RepairCount => PhaseWrite(ls, k) && ls[k].b.phase.Repair?
       case LogicalCount => ls[k].post.Phased? && ls[k + 1].post.NoPost? && !ls[k].post.retry
       case RetryCount => ls[k].post.Phased? && ls[k + 1].post.NoPost? && ls[k].post.retry
  }

  ghost function Writes(ls: seq<Live>, c: Counter, i: nat, j: nat): set<nat> {
    set k | i <= k < j && IsWrite(ls, c, k)
  }

  lemma OneWrite(ls: seq<Live>, c: Counter, k: nat)
    requires Run(ls) && k + 1 < |ls|
    ensures Value(ls[k + 1].b, c) == Value(ls[k].b, c) + if IsWrite(ls, c, k) then 1 else 0
  {
    assert NextAt(ls, k);
  }

  lemma NextWrite(ls: seq<Live>, c: Counter, i: nat, j: nat)
    requires i <= j
    ensures Writes(ls, c, i, j + 1) == Writes(ls, c, i, j) + if IsWrite(ls, c, j) then {j} else {}
    ensures |Writes(ls, c, i, j + 1)| == |Writes(ls, c, i, j)| + if IsWrite(ls, c, j) then 1 else 0
  {
    assert Writes(ls, c, i, j + 1) == Writes(ls, c, i, j) + if IsWrite(ls, c, j) then {j} else {};
    assert j !in Writes(ls, c, i, j);
  }

  /** A counter is what it was, and one more for each of its writes since. */
  lemma {:induction false} CountsWrites(ls: seq<Live>, c: Counter, i: nat, j: nat)
    requires Run(ls) && i <= j < |ls|
    ensures Value(ls[j].b, c) == Value(ls[i].b, c) + |Writes(ls, c, i, j)|
    decreases j - i
  {
    if i == j {
      assert Writes(ls, c, i, j) == {};
    } else {
      CountsWrites(ls, c, i, j - 1);
      OneWrite(ls, c, j - 1);
      NextWrite(ls, c, i, j - 1);
    }
  }

  // ---------------------------------------------------------------- what is published

  /** The moments at which one publication reads the request count, the phase and the two counters. */
  datatype Reads = Reads(requests: nat, phase: nat, authoring: nat, repair: nat)

  predicate InOrder(r: Reads, end: nat) {
    r.requests <= r.phase <= r.authoring <= r.repair < end
  }

  ghost predicate PublishedValid(ls: seq<Live>, r: Reads)
    requires InOrder(r, |ls|)
  {
    ValidSnapshot(SnapshotOf(ls[r.phase].b.phase, ls[r.authoring].b.authoring, ls[r.repair].b.repair),
      ls[r.requests].b.requests)
  }

  lemma MeterFits(limit: int, used: int)
    requires 1 <= limit <= 64 && 0 <= used <= limit
    ensures ValidMeter(Meter(limit, used, limit - used))
  {
  }

  lemma MetersFit(phase: BudgetPhase, authoring: nat, repair: nat)
    requires authoring <= AUTHORING_LIMIT && repair <= REPAIR_LIMIT
    ensures MetersAddUp(SnapshotOf(phase, authoring, repair))
  {
    MeterFits(MAX_REQUESTS, authoring + repair);
    MeterFits(AUTHORING_LIMIT, authoring);
    MeterFits(REPAIR_LIMIT, repair);
  }

  /** Within the limits, only agreement of the three numbers is left to check. */
  lemma WithinLimits(phase: BudgetPhase, authoring: nat, repair: nat, requests: nat)
    requires authoring <= AUTHORING_LIMIT && repair <= REPAIR_LIMIT
    ensures ValidSnapshot(SnapshotOf(phase, authoring, repair), requests)
       <==> requests == authoring + repair && (phase.Authoring? ==> repair == 0)
  {
    MetersFit(phase, authoring, repair);
    if requests == authoring + repair {
      assert SnapshotOf(phase, authoring, repair).total.used == requests;
    } else {
      assert SnapshotOf(phase, authoring, repair).total.used != requests;
    }
  }

  lemma LiveLimits(ls: seq<Live>, i: nat)
    requires Run(ls) && i < |ls|
    ensures ls[i].b.authoring <= AUTHORING_LIMIT && ls[i].b.repair <= REPAIR_LIMIT && ls[i].b.requests <= MAX_REQUESTS
  {
    RunInv(ls, i);
  }

  /**
   Over every interleaving a publication is valid exactly when the counters it read add up
   to the count it read, and a repair request does not stand beside the authoring phase.
   */
  lemma PublishedExact(ls: seq<Live>, r: Reads)
    requires Run(ls) && InOrder(r, |ls|)
    ensures PublishedValid(ls, r) <==>
              && ls[r.requests].b.requests == ls[r.authoring].b.authoring + ls[r.repair].b.repair
              && (ls[r.phase].b.phase.Authoring? ==> ls[r.repair].b.repair == 0)
  {
    LiveLimits(ls, r.requests);
    LiveLimits(ls, r.authoring);
    LiveLimits(ls, r.repair);
    WithinLimits(ls[r.phase].b.phase, ls[r.authoring].b.authoring, ls[r.repair].b.repair, ls[r.requests].b.requests);
  }

  /**
   When the count is read outside the two writes of a POST, that is: no phase counter was
   written between reading the count and reading that counter.
   */
  lemma PublishedWhole(ls: seq<Live>, r: Reads)
    requires Run(ls) && InOrder(r, |ls|) && !ls[r.requests].post.Totalled?
    ensures PublishedValid(ls, r) <==>
              && ls[r.authoring].b.authoring == ls[r.requests].b.authoring
              && ls[r.repair].b.repair == ls[r.requests].b.repair
  {
    PublishedExact(ls, r);
    RunInv(ls, r.requests);
    RunInv(ls, r.phase);
    RunGrows(ls, r.requests, r.phase);
    RunGrows(ls, r.requests, r.authoring);
    RunGrows(ls, r.requests, r.repair);
  }

  /** The phase counter writes since the count was read that the two counters, as read, include. */
  ghost function Seen(ls: seq<Live>, r: Reads): set<nat> {
    Writes(ls, AuthoringCount, r.requests, r.authoring) + Writes(ls, RepairCount, r.requests, r.repair)
  }

  lemma SeenCounts(ls: seq<Live>, r: Reads)
    requires Run(ls) && InOrder(r, |ls|)
    ensures ls[r.authoring].b.authoring + ls[r.repair].b.repair
         == ls[r.requests].b.authoring + ls[r.requests].b.repair + |Seen(ls, r)|
  {
    CountsWrites(ls, AuthoringCount, r.requests, r.authoring);
    CountsWrites(ls, RepairCount, r.requests, r.repair);
    var a, p := Writes(ls, AuthoringCount, r.requests, r.authoring), Writes(ls, RepairCount, r.requests, r.repair);
    assert a !! p;
    assert |a + p| == |a| + |p|;
  }

  /** The write of the POST that is being counted at moment `i`. */
  ghost predicate Pending(ls: seq<Live>, i: nat, m: nat) {
    i <= m && PhaseWrite(ls, m) && forall k | i <= k < m :: !PhaseWrite(ls, k)
  }

  /** The only write that was seen is the pending one. */
  lemma SeenIsPending(ls: seq<Live>, r: Reads, m: nat)
    requires Run(ls) && InOrder(r, |ls|) && Seen(ls, r) == {m}
    requires ls[r.phase].b.phase.Authoring? ==> ls[r.repair].b.repair == 0
    ensures Pending(ls, r.requests, m)
    ensures ls[m].b.phase.Repair? ==> ls[r.phase].b.phase.Repair?
  {
    assert m in Seen(ls, r);
    if IsWrite(ls, RepairCount, m) {
      OneWrite(ls, RepairCount, m);
      RunGrows(ls, m + 1, r.repair);
    }
    forall k | r.requests <= k < m ensures !PhaseWrite(ls, k) {
      assert k !in Seen(ls, r);
      if r.phase <= k {
        RunGrows(ls, r.phase, k);
      }
    }
  }

  lemma PendingSuits(ls: seq<Live>, r: Reads, m: nat)
    requires Run(ls) && InOrder(r, |ls|) && Seen(ls, r) == {m}
    requires ls[m].b.phase.Repair? ==> ls[r.phase].b.phase.Repair?
    ensures ls[r.phase].b.phase.Authoring? ==> ls[r.repair].b.repair == 0
  {
    assert m in Seen(ls, r);
    if ls[m].b.phase.Authoring? {
      RunInv(ls, m);
      RunGrows(ls, r.requests, m);
      CountsWrites(ls, RepairCount, r.requests, r.repair);
      assert !IsWrite(ls, RepairCount, m);
      assert Writes(ls, RepairCount, r.requests, r.repair) <= Seen(ls, r);
      assert Writes(ls, RepairCount, r.requests, r.repair) == {};
    }
  }

  /** The pending write and no other lies before its counter is read, and the phase read suits it. */
  ghost predicate SawPending(ls: seq<Live>, r: Reads, m: nat)
    requires InOrder(r, |ls|)
  {
    && Pending(ls, r.requests, m) && Seen(ls, r) == {m}
    && (ls[m].b.phase.Repair? ==> ls[r.phase].b.phase.Repair?)
  }

  lemma ValidSawPending(ls: seq<Live>, r: Reads) returns (m: nat)
    requires Run(ls) && InOrder(r, |ls|) && |Seen(ls, r)| == 1
    requires ls[r.phase].b.phase.Authoring? ==> ls[r.repair].b.repair == 0
    ensures SawPending(ls, r, m)
  {
    m :| m in Seen(ls, r);
    assert |Seen(ls, r) - {m}| == 0;
    assert Seen(ls, r) == {m};
    SeenIsPending(ls, r, m);
  }

  /**
   When the count is read between the two writes of a POST: exactly when the pending write,
   and no other, lies before its counter is read, and the phase read suits it.
   */
  lemma PublishedPending(ls: seq<Live>, r: Reads)
    requires Run(ls) && InOrder(r, |ls|) && ls[r.requests].post.Totalled?
    ensures PublishedValid(ls, r) <==> exists m: nat :: SawPending(ls, r, m)
  {
    PublishedExact(ls, r);
    RunInv(ls, r.requests);
    SeenCounts(ls, r);
    if PublishedValid(ls, r) {
      var m := ValidSawPending(ls, r);
    }
    if m: nat :| SawPending(ls, r, m) {
      PendingSuits(ls, r, m);
    }
  }

  /** Only the phase may have been switched in between. */
  ghost predicate NothingCounted(ls: seq<Live>, i: nat, j: nat)
    requires i <= j < |ls|
  {
    forall k | i <= k <= j :: ls[k].b.(phase := Repair) == ls[i].b.(phase := Repair)
  }

  /** The relay thread reports when it is not between two writes and counts nothing while it reads: always valid. */
  lemma RelayReportsValid(ls: seq<Live>, r: Reads)
    requires Run(ls) && InOrder(r, |ls|)
    requires !ls[r.requests].post.Totalled? && NothingCounted(ls, r.requests, r.repair)
    ensures PublishedValid(ls, r)
  {
    PublishedWhole(ls, r);
    assert ls[r.authoring].b.(phase := Repair) == ls[r.requests].b.(phase := Repair);
    assert ls[r.repair].b.(phase := Repair) == ls[r.requests].b.(phase := Repair);
  }

  /** Reads at two moments, each between POSTs: valid exactly when no POST was counted in between. */
  lemma TwoReadsExact(ls: seq<Live>, i: nat, j: nat)
    requires Run(ls) && i <= j < |ls| && ls[i].post.NoPost? && ls[j].post.NoPost?
    ensures ValidSnapshot(TakeSnapshot(ls[j].b), ls[i].b.requests) <==> ls[i].b.requests == ls[j].b.requests
  {
    var r := Reads(i, j, j, j);
    PublishedWhole(ls, r);
    RunInv(ls, i);
    RunInv(ls, j);
    RunGrows(ls, i, j);
    assert PublishedValid(ls, r) <==> ValidSnapshot(TakeSnapshot(ls[j].b), ls[i].b.requests);
  }

  // ---------------------------------------------------------------- logical requests and retries

  /** What the reader of docker-progress.json demands of these two; otherwise it drops the whole record. */
  predicate RecordKept(requests: int, logical: int, retries: int) {
    && 0 <= logical <= 64 && logical <= requests
    && 0 <= retries <= MAX_RETRIES_PER_JOB && retries <= requests
    && logical + retries == requests
  }

  /** The writes since the count was read that the two numbers, read at `l` and `t`, include. */
  ghost function SeenKinds(ls: seq<Live>, i: nat, l: nat, t: nat): set<nat> {
    Writes(ls, LogicalCount, i, l) + Writes(ls, RetryCount, i, t)
  }

  /**
   Over every interleaving: the record is kept exactly when the two numbers include as many
   writes as were outstanding when the count was read, one within a POST and none otherwise.
   */
  lemma RecordKeptExactly(ls: seq<Live>, i: nat, l: nat, t: nat)
    requires Run(ls) && i <= l <= t < |ls|
    ensures RecordKept(ls[i].b.requests, ls[l].b.logical, ls[t].b.retries) <==>
              |SeenKinds(ls, i, l, t)| == if ls[i].post.Totalled? || ls[i].post.Phased? then 1 else 0
  {
    RunInv(ls, i);
    RunInv(ls, t);
    CountsWrites(ls, LogicalCount, i, l);
    CountsWrites(ls, RetryCount, i, t);
    var a, p := Writes(ls, LogicalCount, i, l), Writes(ls, RetryCount, i, t);
    assert a !! p;
    assert |a + p| == |a| + |p|;
  }

  // ---------------------------------------------------------------- publications that fail

  lemma Extend(ls: seq<Live>, e: Event) returns (longer: seq<Live>)
    requires Run(ls) && Enabled(ls[|ls| - 1], e)
    ensures Run(longer) && longer == ls + [Effect(ls[|ls| - 1], e)]
  {
    longer := ls + [Effect(ls[|ls| - 1], e)];
    forall i: nat | i + 1 < |longer| ensures NextAt(longer, i) {
      if i + 1 < |ls| {
        assert NextAt(ls, i);
        var d: Event :| Enabled(ls[i], d) && ls[i + 1] == Effect(ls[i], d);
        assert Enabled(longer[i], d) && longer[i + 1] == Effect(longer[i], d);
      } else {
        assert Enabled(longer[i], e) && longer[i + 1] == Effect(longer[i], e);
      }
    }
  }

  /** One POST, written in three steps. */
  lemma FirstPost() returns (ls: seq<Live>)
    ensures Run(ls) && |ls| == 5 && ls[0] == START && ls[1] == Live(FRESH, Checked(false))
    ensures ls[2] == Live(FRESH.(requests := 1), Totalled(false))
    ensures ls[3] == Live(FRESH.(requests := 1, authoring := 1), Phased(false))
    ensures ls[4] == Live(FRESH.(requests := 1, authoring := 1, logical := 1), NoPost)
  {
    ls := [START];
    ls := Extend(ls, Check(false));
    ls := Extend(ls, CountTotal);
    ls := Extend(ls, CountPhase);
    ls := Extend(ls, CountKind);
  }

  /**
   The main thread's publication can be invalid: a POST counted after the request count was
   read, and a count read between the two writes of a POST.
   */
  lemma TornPublications() returns (ls: seq<Live>)
    ensures Run(ls) && |ls| == 5
    ensures ls[0].post.NoPost? && ls[4].post.NoPost? && !PublishedValid(ls, Reads(0, 4, 4, 4))
    ensures ls[2].post.Totalled? && !PublishedValid(ls, Reads(2, 2, 2, 2))
  {
    ls := FirstPost();
  }

  /** So can one whose three numbers add up: the phase was switched while the first repair request was counted. */
  lemma TornPhase() returns (ls: seq<Live>, r: Reads)
    ensures Run(ls) && InOrder(r, |ls|) && !PublishedValid(ls, r)
    ensures ls[r.requests].b.requests == ls[r.authoring].b.authoring + ls[r.repair].b.repair
  {
    ls := [START];
    ls := Extend(ls, Check(false));
    ls := Extend(ls, CountTotal);
    ls := Extend(ls, ToRepair);
    ls := Extend(ls, CountPhase);
    r := Reads(2, 2, 2, 4);
  }

  /** The same POST: a number read after its last write does not go with a count read before its first. */
  lemma TornRecord() returns (ls: seq<Live>)
    ensures Run(ls) && |ls| == 5
    ensures !RecordKept(ls[0].b.requests, ls[4].b.logical, ls[4].b.retries)
    ensures !RecordKept(ls[2].b.requests, ls[3].b.logical, ls[3].b.retries)
  {
    ls := FirstPost();
  }

  /** A record can be kept though it missed a write: a later retry stands for the logical request not seen. */
  lemma MixedRecord() returns (ls: seq<Live>)
    ensures Run(ls) && |ls| == 9
    ensures RecordKept(ls[3].b.requests, ls[3].b.logical, ls[8].b.retries)
    ensures ls[3].b.logical == 0 && ls[8].b.logical == 1
  {
    ls := FirstPost();
    ls := Extend(ls, Check(true));
    ls := Extend(ls, CountTotal);
    ls := Extend(ls, CountPhase);
    ls := Extend(ls, CountKind);
  }

  // ---------------------------------------------------------------- the calls of the gateway

  ghost predicate Reached(l: Live) {
    exists ls :: Run(ls) && ls[|ls| - 1] == l
  }

  lemma ReachedStep(l: Live, e: Event)
    requires Reached(l) && Enabled(l, e)
    ensures Reached(Effect(l, e))
  {
    var ls :| Run(ls) && ls[|ls| - 1] == l;
    var longer := Extend(ls, e);
    assert longer[|longer| - 1] == Effect(l, e);
  }

  lemma ReachedSwitch(b: Budget, post: Post, now: bool)
    requires Reached(Live(b, post))
    ensures Reached(Live(Switch(b, now), post))
  {
    ReachedStep(Live(b, post), ToRepair);
  }

  /** One attempt is these writes. */
  lemma OnceReached(b: Budget, id: int, retry: bool, a: Attempt)
    requires Reached(Live(b, NoPost)) && (retry ==> b.retries < MAX_RETRIES_PER_JOB)
    ensures Reached(Live(RelayOnce(b, id, retry, a).budget, NoPost))
  {
    if Available(b) {
      ReachedStep(Live(b, NoPost), Check(retry));
      ReachedSwitch(b, Checked(retry), a.switchBetween);
      var c := Switch(b, a.switchBetween);
      if a.wire.Refused? {
        ReachedStep(Live(c, Checked(retry)), Abandon);
      } else {
        ReachedStep(Live(c, Checked(retry)), CountTotal);
        ReachedStep(Effect(Live(c, Checked(retry)), CountTotal), CountPhase);
        var l := Effect(Effect(Live(c, Checked(retry)), CountTotal), CountPhase);
        ReachedStep(l, CountKind);
        assert Effect(l, CountKind) == Live(Count(c, retry), NoPost);
      }
    }
  }

  lemma RoundReached(b: Budget, id: int, n: nat, a: Attempt)
    requires Reached(Live(b, NoPost)) && (n > 1 ==> b.retries < MAX_RETRIES_PER_JOB)
    ensures Reached(Live(TryRound(b, id, n, a).budget, NoPost))
  {
    if !a.cancelled {
      ReachedSwitch(b, NoPost, a.switchBefore);
      var c := Switch(b, a.switchBefore);
      OnceReached(c, id, n > 1, a);
      ReachedSwitch(RelayOnce(c, id, n > 1, a).budget, NoPost, a.switchAfter);
    }
  }

  lemma {:induction false} RelayFromReached(b: Budget, id: int, n: nat, attempts: seq<Attempt>)
    requires |attempts| == MAX_ATTEMPTS_PER_REQUEST && 1 <= n <= MAX_ATTEMPTS_PER_REQUEST
    requires Reached(Live(b, NoPost)) && BudgetInv(b) && (n > 1 ==> b.retries < MAX_RETRIES_PER_JOB)
    ensures Reached(Live(RelayFrom(b, id, n, attempts).budget, NoPost))
    decreases MAX_ATTEMPTS_PER_REQUEST - n
  {
    var round := TryRound(b, id, n, attempts[n - 1]);
    RoundReached(b, id, n, attempts[n - 1]);
    RoundKeeps(b, id, n, attempts[n - 1]);
    RelayFromUnfolds(b, id, n, attempts);
    if round.again {
      RelayFromReached(round.budget, id, n + 1, attempts);
    }
  }

  /** Every run of calls is a run of these writes, with the same counters between the calls. */
  lemma {:induction false} CallsReached(ops: seq<Op>)
    requires forall op <- ops :: op.RelayOp? ==> |op.attempts| == MAX_ATTEMPTS_PER_REQUEST
    ensures Reached(Live(AfterAll(ops), NoPost))
  {
    if ops == [] {
      assert Run([START]);
    } else {
      var op, before := ops[|ops| - 1], ops[..|ops| - 1];
      CallsReached(before);
      Conservation(before);
      var b := AfterAll(before);
      if op.SetPhaseOp? {
        ReachedSwitch(b, NoPost, op.phase.Repair?);
      } else if !op.cancelled && Available(b) {
        RelayFromReached(b, op.id, 1, op.attempts);
      }
    }
  }

  /** A snapshot and a count taken at one moment, between calls, are valid together. */
  lemma SnapshotsValid(ops: seq<Op>)
    requires forall op <- ops :: op.RelayOp? ==> |op.attempts| == MAX_ATTEMPTS_PER_REQUEST
    ensures ValidSnapshot(TakeSnapshot(AfterAll(ops)), AfterAll(ops).requests)
  {
    CallsReached(ops);
    var ls :| Run(ls) && ls[|ls| - 1] == Live(AfterAll(ops), NoPost);
    TwoReadsExact(ls, |ls| - 1, |ls| - 1);
  }
}
