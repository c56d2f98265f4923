/**
 Admission of authoring jobs (artifacts/codeagent-adapter/codeagent_adapter.py, with
 `claim_consent` of artifacts/cloud-agent/cloud_agent.py) on top of the host budget.

 Any number of processes run `execute_task` at once. A Docker caller takes one of two
 author slots; a legacy caller takes the legacy singleton first. Locks die with their
 owner, files do not. A crash may come between any two steps.
 */
module AuthorAdmission {
  import opened HostBudget

  type Root = string
  type StatusPath = string
  type ConsentId = string

  datatype Task = Task(root: Root, status: StatusPath, consent: ConsentId, legacy: bool)

  datatype Status = Running | SourceReady | Failed

  /** How far a process is in `execute_task`. `Refused` is an exception before admission. */
  datatype Pc =
    | Idle
    | Arriving(t: Task)
    | Scanning(t: Task, slot: nat)
    | Rooting(t: Task)
    | Checking(t: Task)
    | Admitted(t: Task)
    | Working(t: Task)
    | Claimed(t: Task)
    | Executed(t: Task)
    | Failing(t: Task)
    | Refused(t: Task)
    | Done(t: Task)

  datatype World = World(
    authors: Slots,
    legacy: Slots,
    attempts: map<Root, Proc>,
    status: map<StatusPath, Status>,
    consents: set<(Root, ConsentId)>,
    executions: seq<(Root, ConsentId)>,
    procs: map<Proc, Pc>)

  datatype Event =
    | Arrive(p: Proc, task: Task)
    | Crash(p: Proc)
    | Lock(p: Proc)
    | Work(p: Proc)
    | Fail(p: Proc)

  function PcOf(w: World, p: Proc): Pc {
    if p in w.procs then w.procs[p] else Idle
  }

  /** Owns an author slot. */
  predicate InLease(pc: Pc) {
    pc.Rooting? || InAttempt(pc)
  }

  /** Owns the lock of its output root as well. */
  predicate InAttempt(pc: Pc) {
    pc.Checking? || pc.Admitted? || pc.Working? || pc.Claimed? || pc.Executed?
  }

  predicate InLegacy(pc: Pc) {
    (pc.Scanning? || InLease(pc)) && pc.t.legacy
  }

  predicate BeforeAdmission(pc: Pc) {
    pc.Idle? || pc.Arriving? || pc.Scanning? || pc.Rooting? || pc.Checking? || pc.Refused?
  }

  function Key(t: Task): (Root, ConsentId) {
    (t.root, t.consent)
  }

  predicate Enabled(w: World, e: Event) {
    match e
    case Arrive(p, task) => PcOf(w, p).Idle? && task.status !in w.status
    case Crash(p) => true
    case Lock(p) => var pc := PcOf(w, p); pc.Arriving? || pc.Scanning? || pc.Rooting? || pc.Checking?
    case Work(p) => var pc := PcOf(w, p); pc.Admitted? || pc.Working? || pc.Claimed? || pc.Executed? || pc.Failing?
    case Fail(p) => var pc := PcOf(w, p); pc.Admitted? || pc.Working? || pc.Claimed? || pc.Executed?
  }

  /** Leaving the `with` blocks, on any way out, releases every lock of the process. */
  function Leave(w: World, p: Proc, pc: Pc): World {
    w.(authors := Drop(w.authors, p), legacy := Drop(w.legacy, p),
       attempts := map r | r in w.attempts && w.attempts[r] != p :: w.attempts[r],
       procs := w.procs[p := pc])
  }

  /** One locking step: a free lock is taken, an occupied one is passed over or refuses the caller. */
  function LockEffect(w: World, p: Proc, pc: Pc): World
    requires pc.Arriving? || pc.Scanning? || pc.Rooting? || pc.Checking?
  {
    match pc
    case Arriving(t) =>
      if !t.legacy then w.(procs := w.procs[p := Scanning(t, 0)])
      else if 0 in w.legacy then Leave(w, p, Refused(t))
      else w.(legacy := Take(w.legacy, 0, p), procs := w.procs[p := Scanning(t, 0)])
    case Scanning(t, slot) =>
      if slot >= Limit(CodeAgent) then Leave(w, p, Refused(t))
      else if slot in w.authors then w.(procs := w.procs[p := Scanning(t, slot + 1)])
      else w.(authors := Take(w.authors, slot, p), procs := w.procs[p := Rooting(t)])
    case Rooting(t) =>
      if t.root in w.attempts then Leave(w, p, Refused(t))
      else w.(attempts := w.attempts[t.root := p], procs := w.procs[p := Checking(t)])
    case Checking(t) =>
      if t.status in w.status then Leave(w, p, Refused(t))
      else w.(procs := w.procs[p := Admitted(t)])
  }

  /** One step of the admitted job: status, exclusive consent file, provider, terminal status. */
  function WorkEffect(w: World, p: Proc, pc: Pc): World
    requires pc.Admitted? || pc.Working? || pc.Claimed? || pc.Executed? || pc.Failing?
  {
    match pc
    case Admitted(t) => w.(status := w.status[t.status := Running], procs := w.procs[p := Working(t)])
    case Working(t) =>
      if Key(t) in w.consents then Leave(w, p, Failing(t))
      else w.(consents := w.consents + {Key(t)}, procs := w.procs[p := Claimed(t)])
    case Claimed(t) => w.(executions := w.executions + [Key(t)], procs := w.procs[p := Executed(t)])
    case Executed(t) => Leave(w.(status := w.status[t.status := SourceReady]), p, Done(t))
    case Failing(t) => w.(status := w.status[t.status := Failed], procs := w.procs[p := Done(t)])
  }

  function Effect(w: World, e: Event): World
    requires Enabled(w, e)
  {
    match e
    case Arrive(p, task) => w.(procs := w.procs[p := Arriving(task)])
    case Crash(p) => Leave(w, p, Idle)
    case Lock(p) => LockEffect(w, p, PcOf(w, p))
    case Work(p) => WorkEffect(w, p, PcOf(w, p))
    case Fail(p) => Leave(w, p, Failing(PcOf(w, p).t))
  }

  /** No process and no lock; files of earlier jobs may be there, executed or not. */
  ghost predicate Init(w: World) {
    && w.authors == map[] && w.legacy == map[] && w.attempts == map[] && w.procs == map[]
    && w.executions == []
  }

  ghost predicate Next(w: World, w': World) {
    exists e: Event :: Enabled(w, e) && w' == Effect(w, e)
  }

  ghost predicate NextAt(ws: seq<World>, i: nat)
    requires i + 1 < |ws|
  {
    Next(ws[i], ws[i + 1])
  }

  ghost predicate Run(ws: seq<World>) {
    && |ws| > 0 && Init(ws[0])
    && forall i: nat | i + 1 < |ws| :: NextAt(ws, i)
  }

  // ---------------------------------------------------------------- invariant

  ghost predicate LockInv(w: World) {
    && WellFormed(w.authors, Limit(CodeAgent)) && WellFormed(w.legacy, Limit(CodeAgentLegacy))
    && (forall p: Proc :: Holds(w.authors, p) <==> InLease(PcOf(w, p)))
    && (forall p: Proc :: Holds(w.legacy, p) <==> InLegacy(PcOf(w, p)))
    && (forall p: Proc :: InAttempt(PcOf(w, p)) ==>
           PcOf(w, p).t.root in w.attempts && w.attempts[PcOf(w, p).t.root] == p)
    && (forall r <- w.attempts :: InAttempt(PcOf(w, w.attempts[r])) && PcOf(w, w.attempts[r]).t.root == r)
  }

  ghost predicate NoRepeats(s: seq<(Root, ConsentId)>) {
    forall i, j | 0 <= i < j < |s| :: s[i] != s[j]
  }

  ghost predicate ConsentInv(w: World) {
    && NoRepeats(w.executions)
    && (forall k | k in w.executions :: k in w.consents)
    && (forall p <- w.procs :: w.procs[p].Claimed? ==>
          Key(w.procs[p].t) in w.consents && Key(w.procs[p].t) !in w.executions)
    && (forall p, q | p in w.procs && q in w.procs && p != q && w.procs[p].Claimed? && w.procs[q].Claimed? ::
          Key(w.procs[p].t) != Key(w.procs[q].t))
  }

  lemma OthersStay(w: World, e: Event, q: Proc)
    requires Enabled(w, e) && e.p != q
    ensures PcOf(Effect(w, e), q) == PcOf(w, q)
  {
  }

  lemma LeaveKeepsLocks(w: World, p: Proc, pc: Pc)
    requires LockInv(w) && !InLease(pc) && !InLegacy(pc)
    ensures LockInv(Leave(w, p, pc))
  {
    DropKeeps(w.authors, Limit(CodeAgent), p);
    DropKeeps(w.legacy, Limit(CodeAgentLegacy), p);
    var w' := Leave(w, p, pc);
    forall q: Proc ensures PcOf(w', q) == if q == p then pc else PcOf(w, q) {}
  }

  /** A process that changes its place but neither lock owned nor root keeps the locks right. */
  lemma StayKeepsLocks(w: World, w': World, p: Proc, pc: Pc)
    requires LockInv(w) && w'.procs == w.procs[p := pc]
    requires w'.authors == w.authors && w'.legacy == w.legacy && w'.attempts == w.attempts
    requires var old' := PcOf(w, p);
      && (InLease(pc) <==> InLease(old')) && (InLegacy(pc) <==> InLegacy(old'))
      && (InAttempt(pc) <==> InAttempt(old')) && (InAttempt(pc) ==> pc.t == old'.t)
    ensures LockInv(w')
  {
    forall q: Proc ensures PcOf(w', q) == if q == p then pc else PcOf(w, q) {}
  }

  lemma LegacyTaken(w: World, p: Proc, t: Task)
    requires LockInv(w) && PcOf(w, p) == Arriving(t) && t.legacy && 0 !in w.legacy
    ensures LockInv(w.(legacy := Take(w.legacy, 0, p), procs := w.procs[p := Scanning(t, 0)]))
  {
    TakeKeeps(w.legacy, Limit(CodeAgentLegacy), 0, p);
    var w' := w.(legacy := Take(w.legacy, 0, p), procs := w.procs[p := Scanning(t, 0)]);
    forall q: Proc ensures PcOf(w', q) == if q == p then Scanning(t, 0) else PcOf(w, q) {}
  }

  lemma AuthorTaken(w: World, p: Proc, t: Task, slot: nat)
    requires LockInv(w) && PcOf(w, p) == Scanning(t, slot) && slot < Limit(CodeAgent) && slot !in w.authors
    ensures LockInv(w.(authors := Take(w.authors, slot, p), procs := w.procs[p := Rooting(t)]))
  {
    TakeKeeps(w.authors, Limit(CodeAgent), slot, p);
    var w' := w.(authors := Take(w.authors, slot, p), procs := w.procs[p := Rooting(t)]);
    forall q: Proc ensures PcOf(w', q) == if q == p then Rooting(t) else PcOf(w, q) {}
  }

  lemma RootTaken(w: World, p: Proc, t: Task)
    requires LockInv(w) && PcOf(w, p) == Rooting(t) && t.root !in w.attempts
    ensures LockInv(w.(attempts := w.attempts[t.root := p], procs := w.procs[p := Checking(t)]))
  {
    var w' := w.(attempts := w.attempts[t.root := p], procs := w.procs[p := Checking(t)]);
    forall q: Proc ensures PcOf(w', q) == if q == p then Checking(t) else PcOf(w, q) {}
  }

  lemma LockStepKeepsLocks(w: World, p: Proc)
    requires LockInv(w) && Enabled(w, Lock(p))
    ensures LockInv(LockEffect(w, p, PcOf(w, p)))
  {
    var pc := PcOf(w, p);
    var w' := LockEffect(w, p, pc);
    match pc
    case Arriving(t) =>
      if !t.legacy {
        StayKeepsLocks(w, w', p, Scanning(t, 0));
      } else if 0 in w.legacy {
        LeaveKeepsLocks(w, p, Refused(t));
      } else {
        LegacyTaken(w, p, t);
      }
    case Scanning(t, slot) =>
      if slot >= Limit(CodeAgent) {
        LeaveKeepsLocks(w, p, Refused(t));
      } else if slot in w.authors {
        StayKeepsLocks(w, w', p, Scanning(t, slot + 1));
      } else {
        AuthorTaken(w, p, t, slot);
      }
    case Rooting(t) =>
      if t.root in w.attempts {
        LeaveKeepsLocks(w, p, Refused(t));
      } else {
        RootTaken(w, p, t);
      }
    case Checking(t) =>
      if t.status in w.status {
        LeaveKeepsLocks(w, p, Refused(t));
      } else {
        StayKeepsLocks(w, w', p, Admitted(t));
      }
  }

  lemma WorkStepKeepsLocks(w: World, p: Proc)
    requires LockInv(w) && Enabled(w, Work(p))
    ensures LockInv(WorkEffect(w, p, PcOf(w, p)))
  {
    var pc := PcOf(w, p);
    var w' := WorkEffect(w, p, pc);
    match pc
    case Admitted(t) => StayKeepsLocks(w, w', p, Working(t));
    case Working(t) =>
      if Key(t) in w.consents {
        LeaveKeepsLocks(w, p, Failing(t));
      } else {
        StayKeepsLocks(w, w', p, Claimed(t));
      }
    case Claimed(t) => StayKeepsLocks(w, w', p, Executed(t));
    case Executed(t) =>
      var written := w.(status := w.status[t.status := SourceReady]);
      assert forall q: Proc :: PcOf(written, q) == PcOf(w, q);
      LeaveKeepsLocks(written, p, Done(t));
    case Failing(t) => StayKeepsLocks(w, w', p, Done(t));
  }

  lemma LockKept(w: World, e: Event)
    requires LockInv(w) && Enabled(w, e)
    ensures LockInv(Effect(w, e))
  {
    match e
    case Arrive(p, task) => StayKeepsLocks(w, Effect(w, e), p, Arriving(task));
    case Crash(p) => LeaveKeepsLocks(w, p, Idle);
    case Lock(p) => LockStepKeepsLocks(w, p);
    case Work(p) => WorkStepKeepsLocks(w, p);
    case Fail(p) => LeaveKeepsLocks(w, p, Failing(PcOf(w, p).t));
  }

  /** Becoming a claimer takes the exclusive creation of a claim that was not there. */
  lemma ClaimedFresh(w: World, e: Event, q: Proc)
    requires Enabled(w, e) && PcOf(Effect(w, e), q).Claimed?
    ensures var t := PcOf(Effect(w, e), q).t;
      || (PcOf(w, q) == Claimed(t) && e.p != q)
      || (e == Work(q) && Key(t) !in w.consents && Effect(w, e).consents == w.consents + {Key(t)})
  {
    if q != e.p {
      OthersStay(w, e, q);
    }
  }

  /** Claims are never taken back, and a provider start is recorded by its claimer. */
  lemma FilesGrow(w: World, e: Event)
    requires Enabled(w, e)
    ensures w.consents <= Effect(w, e).consents
    ensures Effect(w, e).executions == w.executions
            || (PcOf(w, e.p).Claimed? && Effect(w, e).executions == w.executions + [Key(PcOf(w, e.p).t)]
                && Effect(w, e).consents == w.consents)
  {
  }

  lemma ConsentKept(w: World, e: Event)
    requires ConsentInv(w) && Enabled(w, e)
    ensures ConsentInv(Effect(w, e))
  {
    var w' := Effect(w, e);
    FilesGrow(w, e);
    forall q <- w'.procs | w'.procs[q].Claimed?
      ensures Key(w'.procs[q].t) in w'.consents && Key(w'.procs[q].t) !in w'.executions
    {
      ClaimedFresh(w, e, q);
    }
    forall p, q | p in w'.procs && q in w'.procs && p != q && w'.procs[p].Claimed? && w'.procs[q].Claimed?
      ensures Key(w'.procs[p].t) != Key(w'.procs[q].t)
    {
      ClaimedFresh(w, e, p);
      ClaimedFresh(w, e, q);
    }
  }

  ghost predicate Inv(w: World) {
    LockInv(w) && ConsentInv(w)
  }

  lemma RunStep(ws: seq<World>, i: nat) returns (e: Event)
    requires Run(ws) && i + 1 < |ws|
    ensures Enabled(ws[i], e) && ws[i + 1] == Effect(ws[i], e)
  {
    assert NextAt(ws, i);
    e :| Enabled(ws[i], e) && ws[i + 1] == Effect(ws[i], e);
  }

  lemma {:induction false} RunInv(ws: seq<World>, i: nat)
    requires Run(ws) && i < |ws|
    ensures Inv(ws[i])
  {
    if i > 0 {
      RunInv(ws, i - 1);
      var e := RunStep(ws, i - 1);
      LockKept(ws[i - 1], e);
      ConsentKept(ws[i - 1], e);
    }
  }

  // ---------------------------------------------------------------- theorems

  /** Mixed callers hold at most two author slots, at most one of them a legacy caller. */
  lemma AuthorsBounded(ws: seq<World>, i: nat, callers: set<Proc>, legacyCallers: set<Proc>)
    requires Run(ws) && i < |ws|
    requires forall p <- callers :: InLease(PcOf(ws[i], p))
    requires forall p <- legacyCallers :: InLease(PcOf(ws[i], p)) && PcOf(ws[i], p).t.legacy
    ensures |callers| <= AUTHOR_LIMIT && |legacyCallers| <= 1
  {
    RunInv(ws, i);
    HoldersBounded(ws[i].authors, Limit(CodeAgent), callers);
    HoldersBounded(ws[i].legacy, Limit(CodeAgentLegacy), legacyCallers);
  }

  /** Two processes never author into one output root at once. */
  lemma OneAuthorPerRoot(ws: seq<World>, i: nat, p: Proc, q: Proc)
    requires Run(ws) && i < |ws|
    requires InAttempt(PcOf(ws[i], p)) && InAttempt(PcOf(ws[i], q)) && PcOf(ws[i], p).t.root == PcOf(ws[i], q).t.root
    ensures p == q
  {
    RunInv(ws, i);
  }

  /** A provider starts at most once per consent and output root, and only after the durable claim. */
  lemma ConsentSpentOnce(ws: seq<World>, i: nat)
    requires Run(ws) && i < |ws|
    ensures NoRepeats(ws[i].executions)
    ensures forall k | k in ws[i].executions :: k in ws[i].consents
  {
    RunInv(ws, i);
  }

  /** A claim is durable: no later event of any process, crashes included, takes it back. */
  lemma {:induction false} ClaimsPersist(ws: seq<World>, i: nat, j: nat)
    requires Run(ws) && i <= j < |ws|
    ensures ws[i].consents <= ws[j].consents
    ensures ws[i].executions <= ws[j].executions
    decreases j
  {
    if i < j {
      ClaimsPersist(ws, i, j - 1);
      var e := RunStep(ws, j - 1);
      FilesGrow(ws[j - 1], e);
    }
  }

  /** A consent that was spent before the run began starts no provider during it. */
  lemma {:induction false} SpentConsentNeverRuns(ws: seq<World>, i: nat, k: (Root, ConsentId))
    requires Run(ws) && i < |ws| && k in ws[0].consents
    ensures k !in ws[i].executions
    ensures forall p <- ws[i].procs :: ws[i].procs[p].Claimed? ==> Key(ws[i].procs[p].t) != k
  {
    if i > 0 {
      SpentConsentNeverRuns(ws, i - 1, k);
      ClaimsPersist(ws, 0, i - 1);
      var e := RunStep(ws, i - 1);
      FilesGrow(ws[i - 1], e);
      forall p <- ws[i].procs | ws[i].procs[p].Claimed? ensures Key(ws[i].procs[p].t) != k {
        ClaimedFresh(ws[i - 1], e, p);
      }
    }
  }

  /** Whoever is not admitted writes no status, spends no consent and starts no provider. */
  lemma LosersWriteNothing(w: World, e: Event)
    requires Enabled(w, e) && BeforeAdmission(PcOf(w, e.p))
    ensures var w' := Effect(w, e);
            w'.status == w.status && w'.consents == w.consents && w'.executions == w.executions
    ensures PcOf(Effect(w, e), e.p).Admitted? ==> PcOf(w, e.p).Checking? && PcOf(w, e.p).t.status !in w.status
  {
  }

  /** Files that outlive a process: status, consents and what providers were started. */
  predicate SameFiles(w: World, w': World) {
    w'.status == w.status && w'.consents == w.consents && w'.executions == w.executions
  }

  /** Once admitted, a process is back before admission only after it was gone. */
  lemma AdmissionSticks(w: World, e: Event, p: Proc)
    requires Enabled(w, e) && !BeforeAdmission(PcOf(w, p)) && BeforeAdmission(PcOf(Effect(w, e), p))
    ensures PcOf(Effect(w, e), p).Idle?
  {
    if e.p != p {
      OthersStay(w, e, p);
    }
  }

  /** A caller that ends up refused had not been admitted at any moment since it arrived. */
  lemma {:induction false} RefusedNeverAdmitted(ws: seq<World>, i: nat, j: nat, p: Proc)
    requires Run(ws) && i <= j < |ws| && BeforeAdmission(PcOf(ws[j], p))
    requires forall k | i <= k <= j :: !PcOf(ws[k], p).Idle?
    ensures forall k | i <= k <= j :: BeforeAdmission(PcOf(ws[k], p))
    decreases j
  {
    if i < j {
      var e := RunStep(ws, j - 1);
      if !BeforeAdmission(PcOf(ws[j - 1], p)) {
        AdmissionSticks(ws[j - 1], e, p);
      }
      RefusedNeverAdmitted(ws, i, j - 1, p);
    }
  }

  /**
   Over every run: from its arrival on, a caller that ends up refused writes no status,
   spends no consent and starts no provider in any of its own steps.
   */
  lemma RefusedWroteNothing(ws: seq<World>, i: nat, j: nat, p: Proc, k: nat, e: Event)
    requires Run(ws) && i <= k < j < |ws| && PcOf(ws[i], p).Arriving? && PcOf(ws[j], p).Refused?
    requires forall m | i <= m <= j :: !PcOf(ws[m], p).Idle?
    requires e.p == p && Enabled(ws[k], e) && ws[k + 1] == Effect(ws[k], e)
    ensures SameFiles(ws[k], ws[k + 1])
  {
    RefusedNeverAdmitted(ws, i, j, p);
    LosersWriteNothing(ws[k], e);
  }
}
