/**
 The crash-recoverable file queue (artifacts/orchestrator/orchestrator.py): `submit`,
 `recover`, `quarantine_processing` and `process_one`, one file operation at a time.

 File names carry the idempotency key, so the state is that of one key. A submitter holds
 the key's lock; one worker is alive at a time; either may stop between any two operations.
 What a file holds matters only for receipts; a check that content decides may go either way.
 */
module FileQueue {
  import opened Outcomes

  type RunId = nat

  /** `Partial` is a receipt that was created but not filled. */
  datatype Receipt = NoReceipt | Partial | Queued | Complete

  datatype Submitter =
    | SIdle
    | Checked                 // read that there is no receipt
    | ReadyWritten
    | ReceiptOpen             // created the receipt file
    | ReceiptFilled
    | Unlinking               // the receipt failed, the task is taken back

  datatype Worker =
    | WIdle
    | RecoverLook
    | RecoverMove(occupied: bool)
    | Loading(recovered: bool)
    | Loaded(existing: Receipt)
    | Moved(existing: Receipt)
    | Running
    | Attempted(id: RunId)    // ran its attempt and checked the handoff
    | Free(id: RunId)         // read that the run directory does not exist
    | Published(id: RunId)
    | Completed
    | Quarantining
    | Withdrawing

  /** `published` is a history of every run directory that was ever put in place. */
  datatype Queue = Queue(
    ready: bool, processing: bool, done: bool, receipt: Receipt, run: Option<RunId>,
    published: seq<RunId>, sub: Submitter, wrk: Worker)

  datatype Event =
    | Submit              // the submitter's next operation
    | SubmitFails
    | SubmitterStops
    | Start(skip: bool)   // `skip`: some slot looked active, so nothing is recovered
    | Work(id: RunId)     // the worker's next operation; `id` names a fresh attempt
    | WorkFails
    | WorkerStops

  predicate Enabled(q: Queue, e: Event) {
    match e
    case Submit => true
    case SubmitFails => q.sub.ReadyWritten? || q.sub.ReceiptOpen? || q.sub.ReceiptFilled?
    case SubmitterStops => true
    case Start(_) => q.wrk.WIdle?
    case Work(_) => !q.wrk.WIdle?
    case WorkFails => (q.wrk.Moved? && q.processing) || q.wrk.Running? || q.wrk.Attempted? || q.wrk.Published?
    case WorkerStops => true
  }

  /** `O_EXCL` creations fail where the file exists; a receipt that was moved away is filled in vain. */
  function SubmitEffect(q: Queue): Queue {
    match q.sub
    case SIdle => if q.receipt == NoReceipt then q.(sub := Checked) else q
    case Checked => if q.ready then q.(sub := SIdle) else q.(ready := true, sub := ReadyWritten)
    case ReadyWritten =>
      if q.receipt == NoReceipt then q.(receipt := Partial, sub := ReceiptOpen) else q.(sub := Unlinking)
    case ReceiptOpen => q.(receipt := if q.receipt == Partial then Queued else q.receipt, sub := ReceiptFilled)
    case ReceiptFilled => q.(sub := SIdle)
    case Unlinking => q.(ready := false, sub := SIdle)
  }

  function RecoverEffect(q: Queue): Queue
    requires q.wrk.RecoverLook? || q.wrk.RecoverMove?
  {
    match q.wrk
    case RecoverLook => q.(wrk := if q.processing then RecoverMove(q.ready) else Loading(true))
    case RecoverMove(occupied) =>
      if !q.processing then q.(wrk := WIdle)
      else q.(processing := false, ready := q.ready || !occupied, wrk := Loading(true))
  }

  /**
   Moving a file that is gone, reading one that is gone and replacing a run directory raise
   errors that nobody catches, so they end the worker and leave the files as they are.
   */
  function WorkEffect(q: Queue, id: RunId): Queue
    requires !q.wrk.WIdle?
  {
    match q.wrk
    case RecoverLook => RecoverEffect(q)
    case RecoverMove(_) => RecoverEffect(q)
    case Loading(_) =>
      if q.receipt == Partial || q.receipt == Complete then q.(wrk := WIdle) else q.(wrk := Loaded(q.receipt))
    case Loaded(existing) =>
      if q.ready then q.(ready := false, processing := true, wrk := Moved(existing)) else q.(wrk := Quarantining)
    case Moved(existing) =>
      q.(wrk := if !q.processing then WIdle else if existing == Queued then Running else Quarantining)
    case Running => q.(wrk := Attempted(id))
    case Attempted(a) => q.(wrk := if q.run.Some? then Quarantining else Free(a))
    case Free(a) =>
      if q.run.Some? then q.(wrk := WIdle)
      else q.(run := Some(a), published := q.published + [a], wrk := Published(a))
    case Published(_) => q.(receipt := Complete, wrk := Completed)
    case Completed =>
      if !q.processing then q.(wrk := WIdle) else q.(processing := false, done := true, wrk := WIdle)
    case Quarantining => q.(processing := false, wrk := Withdrawing)
    case Withdrawing => q.(receipt := NoReceipt, wrk := WIdle)
  }

  function Effect(q: Queue, e: Event): Queue
    requires Enabled(q, e)
  {
    match e
    case Submit => SubmitEffect(q)
    case SubmitFails => q.(sub := Unlinking)
    case SubmitterStops => q.(sub := SIdle)
    case Start(skip) => q.(wrk := if skip then Loading(false) else RecoverLook)
    case Work(id) => WorkEffect(q, id)
    case WorkFails => q.(wrk := Quarantining)
    case WorkerStops => q.(wrk := WIdle)
  }

  const EMPTY := Queue(false, false, false, NoReceipt, None, [], SIdle, WIdle)

  ghost predicate Next(q: Queue, q': Queue) {
    exists e: Event :: Enabled(q, e) && q' == Effect(q, e)
  }

  ghost predicate NextAt(t: seq<Queue>, i: nat)
    requires i + 1 < |t|
  {
    Next(t[i], t[i + 1])
  }

  ghost predicate Trace(t: seq<Queue>) {
    && t != [] && t[0] == EMPTY
    && forall i: nat | i + 1 < |t| :: NextAt(t, i)
  }

  // ---------------------------------------------------------------- what every step keeps

  /** The worker took the task over on a queued receipt and has not completed it. */
  predicate Owns(w: Worker) {
    (w.Moved? && w.existing == Queued) || w.Running? || w.Attempted? || w.Free? || w.Published?
  }

  /** While a submitter is between its check and its receipt, there is no finished receipt. */
  ghost predicate SubmitterInv(q: Queue) {
    && (q.sub.Checked? || q.sub.ReadyWritten? ==> q.receipt == NoReceipt)
    && (q.sub.ReceiptOpen? ==> q.receipt == NoReceipt || q.receipt == Partial)
  }

  ghost predicate WorkerInv(q: Queue) {
    && (q.wrk.Loaded? ==> q.wrk.existing == NoReceipt || q.wrk.existing == Queued)
    && (q.wrk.Moved? ==> q.wrk.existing == NoReceipt || q.wrk.existing == Queued)
    && (q.wrk.Loaded? && q.wrk.existing == Queued ==> q.receipt == Queued)
    && (Owns(q.wrk) ==> q.receipt == Queued && q.processing && !q.ready)
    && (q.wrk.Completed? ==> q.receipt == Complete && q.processing && !q.ready)
    && (q.wrk.Loaded? || q.wrk.Moved? || q.wrk.Quarantining? || q.wrk.Withdrawing? ==> q.receipt != Complete)
    && (q.wrk.RecoverMove? ==> q.processing)
    && (q.wrk.Loading? && q.wrk.recovered ==> !q.processing)
  }

  ghost predicate RunDirInv(q: Queue) {
    && q.published == (match q.run case None => [] case Some(id) => [id])
    && (q.wrk.Free? ==> q.run == None)
    && (q.wrk.Published? ==> q.run == Some(q.wrk.id))
    && (q.receipt == Complete ==> q.run.Some?)
  }

  ghost predicate DoneInv(q: Queue) {
    q.done ==> q.receipt == Complete && !q.ready && !q.processing
  }

  ghost predicate QueueInv(q: Queue) {
    SubmitterInv(q) && WorkerInv(q) && RunDirInv(q) && DoneInv(q)
  }

  /** What a step never takes back. */
  ghost predicate Keeps(q: Queue, q': Queue) {
    && (q.run.Some? ==> q'.run == q.run)
    && (q.receipt == Complete ==> q'.receipt == Complete)
    && (q.done ==> q'.done)
    && q.published <= q'.published
  }

  lemma SubmitterStep(q: Queue, e: Event)
    requires QueueInv(q) && Enabled(q, e) && (e.Submit? || e.SubmitFails? || e.SubmitterStops?)
    ensures QueueInv(Effect(q, e)) && Keeps(q, Effect(q, e))
  {
  }

  predicate Taking(w: Worker) {
    w.RecoverLook? || w.RecoverMove? || w.Loading? || w.Loaded? || w.Moved?
  }

  lemma TakingStep(q: Queue, id: RunId)
    requires QueueInv(q) && Taking(q.wrk)
    ensures QueueInv(WorkEffect(q, id)) && Keeps(q, WorkEffect(q, id))
  {
  }

  lemma RunningStep(q: Queue, id: RunId)
    requires QueueInv(q) && !q.wrk.WIdle? && !Taking(q.wrk)
    ensures QueueInv(WorkEffect(q, id)) && Keeps(q, WorkEffect(q, id))
  {
  }

  lemma WorkerStep(q: Queue, e: Event)
    requires QueueInv(q) && Enabled(q, e) && (e.Start? || e.Work? || e.WorkFails? || e.WorkerStops?)
    ensures QueueInv(Effect(q, e)) && Keeps(q, Effect(q, e))
  {
    if e.Work? {
      if Taking(q.wrk) {
        TakingStep(q, e.id);
      } else {
        RunningStep(q, e.id);
      }
    }
  }

  lemma StepKeeps(q: Queue, e: Event)
    requires QueueInv(q) && Enabled(q, e)
    ensures QueueInv(Effect(q, e)) && Keeps(q, Effect(q, e))
  {
    if e.Submit? || e.SubmitFails? || e.SubmitterStops? {
      SubmitterStep(q, e);
    } else {
      WorkerStep(q, e);
    }
  }

  lemma {:induction false} RunInv(t: seq<Queue>, i: nat)
    requires Trace(t) && i < |t|
    ensures QueueInv(t[i])
    ensures i > 0 ==> Keeps(t[i - 1], t[i])
  {
    if i > 0 {
      RunInv(t, i - 1);
      assert NextAt(t, i - 1);
      var e: Event :| Enabled(t[i - 1], e) && t[i] == Effect(t[i - 1], e);
      StepKeeps(t[i - 1], e);
    }
  }

  lemma KeepsTransitive(a: Queue, b: Queue, c: Queue)
    requires Keeps(a, b) && Keeps(b, c)
    ensures Keeps(a, c)
  {
  }

  // ---------------------------------------------------------------- over every run

  /** At most one run directory is ever published, and a complete receipt comes only after it. */
  lemma PublishedOnce(t: seq<Queue>, i: nat)
    requires Trace(t) && i < |t|
    ensures |t[i].published| <= 1
    ensures t[i].receipt == Complete ==> t[i].run.Some? && t[i].published == [t[i].run.value]
  {
    RunInv(t, i);
  }

  /** A published directory is never replaced, a complete receipt never withdrawn, a done task stays done. */
  lemma {:induction false} NeverWithdrawn(t: seq<Queue>, i: nat, j: nat)
    requires Trace(t) && i <= j < |t|
    ensures Keeps(t[i], t[j])
    decreases j - i
  {
    if i < j {
      NeverWithdrawn(t, i, j - 1);
      RunInv(t, j);
      KeepsTransitive(t[i], t[j - 1], t[j]);
    }
  }

  /** A done task has its receipt and its directory, and is never ready or processing again. */
  lemma DoneIsFinal(t: seq<Queue>, i: nat, j: nat)
    requires Trace(t) && i <= j < |t| && t[i].done
    ensures t[j].done && t[j].receipt == Complete && t[j].run == t[i].run != None
    ensures !t[j].ready && !t[j].processing
  {
    RunInv(t, i);
    RunInv(t, j);
    NeverWithdrawn(t, i, j);
  }

  function Copies(q: Queue): nat {
    (if q.ready then 1 else 0) + if q.processing then 1 else 0
  }

  /**
   After a recovery that was not skipped at most one live copy is left; a worker that runs
   the task has the only one.
   */
  lemma OneLiveCopy(t: seq<Queue>, i: nat)
    requires Trace(t) && i < |t|
    ensures t[i].wrk == Loading(true) ==> Copies(t[i]) <= 1
    ensures Owns(t[i].wrk) || t[i].wrk.Completed? ==> t[i].processing && Copies(t[i]) == 1
  {
    RunInv(t, i);
  }
}
