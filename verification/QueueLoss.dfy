/**
 When the file queue loses a task (artifacts/orchestrator/orchestrator.py): its receipt says
 that it is queued, and so answers every new submission, but its file is neither ready nor
 processing. And what an undisturbed submission, recovery and worker achieve.
 */
module QueueLoss {
  import opened FileQueue
  import opened Outcomes

  /** The worker is about to withdraw the receipt too. */
  predicate Withdraws(w: Worker) {
    w.Quarantining? || w.Withdrawing?
  }

  predicate NoFile(q: Queue) {
    !q.ready && !q.processing
  }

  /** Queued without a file, and nobody is in the middle of taking the task out of the queue. */
  predicate Lost(q: Queue) {
    q.receipt == Queued && NoFile(q) && !Withdraws(q.wrk) && !q.sub.Unlinking?
  }

  /** A worker stops between moving the file and moving the receipt into quarantine. */
  predicate HalfQuarantined(q: Queue, e: Event) {
    e.WorkerStops? && Withdraws(q.wrk) && q.receipt == Queued && NoFile(q) && !q.sub.Unlinking?
  }

  /** A submitter takes the file back, or is done with that, beside the receipt it had filled. */
  predicate TakenBack(q: Queue, e: Event) {
    && q.sub.Unlinking? && q.receipt == Queued && !q.processing && !Withdraws(q.wrk)
    && (e.Submit? || (e.SubmitterStops? && !q.ready))
  }

  /** A submitter fills the receipt of a file that a worker has quarantined before. */
  predicate FilledTooLate(q: Queue, e: Event) {
    e.Submit? && q.sub.ReceiptOpen? && q.receipt == Partial && NoFile(q) && !Withdraws(q.wrk)
  }

  /** A recovery drops the file as a duplicate of one that was taken back after it had looked. */
  predicate DroppedAsDuplicate(q: Queue, e: Event) {
    && e.Work? && q.wrk == RecoverMove(true) && q.receipt == Queued && q.processing && !q.ready
    && !q.sub.Unlinking?
  }

  predicate Loses(q: Queue, e: Event) {
    HalfQuarantined(q, e) || TakenBack(q, e) || FilledTooLate(q, e) || DroppedAsDuplicate(q, e)
  }

  lemma SubmitLoses(q: Queue, e: Event)
    requires QueueInv(q) && Enabled(q, e) && !Lost(q) && (e.Submit? || e.SubmitFails? || e.SubmitterStops?)
    ensures Lost(Effect(q, e)) <==> Loses(q, e)
  {
  }

  lemma WorkLoses(q: Queue, e: Event)
    requires QueueInv(q) && Enabled(q, e) && !Lost(q) && e.Work?
    ensures Lost(Effect(q, e)) <==> Loses(q, e)
  {
  }

  /** A step loses a task exactly in these four ways. */
  lemma LosesExactly(q: Queue, e: Event)
    requires QueueInv(q) && Enabled(q, e) && !Lost(q)
    ensures Lost(Effect(q, e)) <==> Loses(q, e)
  {
    if e.Submit? || e.SubmitFails? || e.SubmitterStops? {
      SubmitLoses(q, e);
    } else if e.Work? {
      WorkLoses(q, e);
    }
  }

  ghost predicate LosesAt(t: seq<Queue>, k: nat)
    requires k + 1 < |t|
  {
    exists e: Event :: Enabled(t[k], e) && t[k + 1] == Effect(t[k], e) && Loses(t[k], e)
  }

  /**
   Over every run: a task that is lost was lost in one of these ways; and where none of them
   happened, a queued task has its file, unless it is just being taken out of the queue.
   */
  lemma {:induction false} LostSomewhere(t: seq<Queue>, i: nat)
    requires Trace(t) && i < |t|
    ensures Lost(t[i]) ==> exists k: nat :: k < i && LosesAt(t, k)
    ensures (forall k: nat | k < i :: !LosesAt(t, k)) && t[i].receipt == Queued ==>
              t[i].ready || t[i].processing || Withdraws(t[i].wrk) || t[i].sub.Unlinking?
  {
    if i > 0 {
      LostSomewhere(t, i - 1);
      RunInv(t, i - 1);
      assert NextAt(t, i - 1);
      var e: Event :| Enabled(t[i - 1], e) && t[i] == Effect(t[i - 1], e);
      if !Lost(t[i - 1]) {
        LosesExactly(t[i - 1], e);
        assert Lost(t[i]) ==> LosesAt(t, i - 1);
      }
    }
  }

  // ---------------------------------------------------------------- runs that lose a task

  lemma Extend(t: seq<Queue>, e: Event) returns (longer: seq<Queue>)
    requires Trace(t) && Enabled(t[|t| - 1], e)
    ensures Trace(longer) && longer == t + [Effect(t[|t| - 1], e)]
  {
    longer := t + [Effect(t[|t| - 1], e)];
    forall i: nat | i + 1 < |longer| ensures NextAt(longer, i) {
      if i + 1 < |t| {
        assert NextAt(t, i);
      } else {
        assert Next(longer[i], longer[i + 1]);
      }
    }
  }

  function Last(t: seq<Queue>): Queue
    requires t != []
  {
    t[|t| - 1]
  }

  /** A worker that starts as soon as the file is written quarantines it before there is a receipt. */
  lemma EagerWorkerLoses() returns (t: seq<Queue>)
    ensures Trace(t) && Lost(Last(t)) && Last(t).sub.ReceiptFilled? && Last(t).wrk.WIdle?
  {
    t := [EMPTY];
    t := Extend(t, Submit);
    t := Extend(t, Submit);
    t := Extend(t, Start(true));
    t := Extend(t, Work(0));
    t := Extend(t, Work(0));
    t := Extend(t, Work(0));
    t := Extend(t, Work(0));
    t := Extend(t, Work(0));
    t := Extend(t, Submit);
    t := Extend(t, Submit);
  }

  /** A submission, undisturbed, has written the file and its queued receipt. */
  lemma Submitted() returns (t: seq<Queue>)
    ensures Trace(t) && Last(t) == Queue(true, false, false, Queued, None, [], SIdle, WIdle)
  {
    t := [EMPTY];
    t := Extend(t, Submit);
    t := Extend(t, Submit);
    t := Extend(t, Submit);
    t := Extend(t, Submit);
    t := Extend(t, Submit);
  }

  /** A worker whose run fails stops before it has withdrawn the receipt. */
  lemma HalfQuarantineLoses() returns (t: seq<Queue>)
    ensures Trace(t) && Lost(Last(t)) && Last(t).sub.SIdle? && Last(t).wrk.WIdle?
  {
    t := Submitted();
    t := Extend(t, Start(true));
    t := Extend(t, Work(0));
    t := Extend(t, Work(0));
    t := Extend(t, Work(0));
    t := Extend(t, WorkFails);
    t := Extend(t, Work(0));
    t := Extend(t, WorkerStops);
  }

  // ---------------------------------------------------------------- what is achieved

  /**
   A recovery that was not skipped puts a task that it finds in processing back to ready,
   unless a submitter takes it back meanwhile.
   */
  lemma {:induction false} RecoveryRestores(t: seq<Queue>, i: nat, j: nat)
    requires Trace(t) && i < j < |t| && t[i].wrk.RecoverLook? && t[i].processing
    requires forall k | i < k < j :: t[k].wrk.RecoverMove?
    requires t[j].wrk == Loading(true) || t[j].wrk.RecoverMove?
    requires forall k | i <= k <= j :: !t[k].sub.Unlinking?
    ensures t[j].wrk == Loading(true) ==> t[j].ready && !t[j].processing
    ensures t[j].wrk.RecoverMove? ==> t[j].processing && (t[j].wrk.occupied ==> t[j].ready)
    decreases j
  {
    assert NextAt(t, j - 1);
    var e: Event :| Enabled(t[j - 1], e) && t[j] == Effect(t[j - 1], e);
    if i + 1 < j {
      RecoveryRestores(t, i, j - 1);
    }
  }

  /** The files after the worker's next `n` operations. */
  function WorkOn(q: Queue, id: RunId, n: nat): Queue
    decreases n
  {
    if n == 0 || q.wrk.WIdle? then q else WorkOn(WorkEffect(q, id), id, n - 1)
  }

  lemma {:induction false} WorkAdds(q: Queue, id: RunId, m: nat, n: nat)
    ensures WorkOn(q, id, m + n) == WorkOn(WorkOn(q, id, m), id, n)
    decreases m
  {
    if m > 0 && !q.wrk.WIdle? {
      WorkAdds(WorkEffect(q, id), id, m - 1, n);
    }
  }

  lemma TakesTask(q: Queue, id: RunId)
    requires q.wrk.Loading? && q.receipt == Queued && q.ready
    ensures WorkOn(q, id, 3) == q.(ready := false, processing := true, wrk := Running)
  {
    var q1 := WorkEffect(q, id);
    var q2 := WorkEffect(q1, id);
    assert WorkOn(q, id, 3) == WorkOn(q1, id, 2) == WorkOn(q2, id, 1);
  }

  lemma RunsTask(q: Queue, id: RunId)
    requires q.wrk.Running? && q.run == None && q.processing
    ensures WorkOn(q, id, 3) == q.(run := Some(id), published := q.published + [id], wrk := Published(id))
  {
    var q1 := WorkEffect(q, id);
    var q2 := WorkEffect(q1, id);
    assert WorkOn(q, id, 3) == WorkOn(q1, id, 2) == WorkOn(q2, id, 1);
  }

  lemma FinishesTask(q: Queue, id: RunId)
    requires q.wrk.Published? && q.processing
    ensures WorkOn(q, id, 2) == q.(receipt := Complete, processing := false, done := true, wrk := WIdle)
  {
    var q1 := WorkEffect(q, id);
    assert WorkOn(q, id, 2) == WorkOn(q1, id, 1);
  }

  lemma Recovers(q: Queue, id: RunId)
    requires q.wrk.RecoverLook? && (q.ready || q.processing)
    ensures WorkOn(q, id, if q.processing then 2 else 1) == q.(ready := true, processing := false, wrk := Loading(true))
  {
    var q1 := WorkEffect(q, id);
    if q.processing {
      assert WorkOn(q, id, 2) == WorkOn(q1, id, 1);
    }
  }

  /**
   A worker that nobody disturbs completes a queued task, also one that an earlier worker left
   in processing: one directory, the complete receipt, and the file among the done.
   */
  lemma WorkerCompletes(q: Queue, id: RunId)
    requires q.wrk.RecoverLook? && q.receipt == Queued && q.run == None && (q.ready || q.processing)
    ensures WorkOn(q, id, if q.processing then 10 else 9) ==
            q.(ready := false, processing := false, done := true, receipt := Complete, run := Some(id),
               published := q.published + [id], wrk := WIdle)
  {
    var m: nat := if q.processing then 2 else 1;
    Recovers(q, id);
    WorkAdds(q, id, m, 8);
    var q1 := WorkOn(q, id, m);
    TakesTask(q1, id);
    WorkAdds(q1, id, 3, 5);
    var q2 := WorkOn(q1, id, 3);
    RunsTask(q2, id);
    WorkAdds(q2, id, 3, 2);
    FinishesTask(WorkOn(q2, id, 3), id);
  }
}
