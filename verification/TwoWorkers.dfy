/**
 The file queue with two live workers (artifacts/orchestrator/orchestrator.py), which its two
 slots allow: exactly when a complete receipt can be withdrawn, and when its task can come
 back.
 */
module TwoWorkers {
  import opened FileQueue
  import opened Outcomes

  /** The files and the first worker, as FileQueue has them, and a second worker. */
  datatype Two = Two(q: Queue, other: Worker)

  /** The files as one of the workers meets them. */
  function Of(t: Two, first: bool): Queue {
    if first then t.q else t.q.(wrk := t.other)
  }

  function Rival(t: Two, first: bool): Worker {
    if first then t.other else t.q.wrk
  }

  /** It is past `acquire_slot`; a recovery that begins now sees its slot and does nothing. */
  predicate HasSlot(w: Worker) {
    !(w.WIdle? || w.RecoverLook? || w.RecoverMove? || w.Loading?)
  }

  predicate Can(t: Two, first: bool, e: Event) {
    Enabled(Of(t, first), e) && (e.Start? && !e.skip ==> !HasSlot(Rival(t, first)))
  }

  /** A step of one worker, or of the submitter. */
  function Step(t: Two, first: bool, e: Event): Two
    requires Can(t, first, e)
  {
    var q := Effect(Of(t, first), e);
    if first then t.(q := q) else Two(q.(wrk := t.q.wrk), q.wrk)
  }

  ghost predicate StepAt(run: seq<Two>, i: nat)
    requires i + 1 < |run|
  {
    exists first, e: Event :: Can(run[i], first, e) && run[i + 1] == Step(run[i], first, e)
  }

  ghost predicate RunFrom(run: seq<Two>, t: Two) {
    run != [] && run[0] == t && forall i: nat | i + 1 < |run| :: StepAt(run, i)
  }

  const NOBODY := Two(EMPTY, WIdle)

  ghost predicate RunOfTwo(run: seq<Two>) {
    RunFrom(run, NOBODY)
  }

  function Now(run: seq<Two>): Two
    requires run != []
  {
    run[|run| - 1]
  }

  lemma Extend(run: seq<Two>, t: Two, first: bool, e: Event) returns (longer: seq<Two>)
    requires RunFrom(run, t) && Can(Now(run), first, e)
    ensures RunFrom(longer, t) && run <= longer && Now(longer) == Step(Now(run), first, e)
  {
    longer := run + [Step(Now(run), first, e)];
    forall i: nat | i + 1 < |longer| ensures StepAt(longer, i) {
      if i + 1 < |run| {
        assert StepAt(run, i);
        var f, d: Event :| Can(run[i], f, d) && run[i + 1] == Step(run[i], f, d);
        assert Can(longer[i], f, d) && longer[i + 1] == Step(longer[i], f, d);
      } else {
        assert Can(longer[i], first, e) && longer[i + 1] == Step(longer[i], first, e);
      }
    }
  }

  // ---------------------------------------------------------------- what two workers keep

  ghost predicate TwoInv(t: Two) {
    && t.q.published == (match t.q.run case None => [] case Some(id) => [id])
    && (t.q.wrk.Published? || t.other.Published? || t.q.receipt == Complete ==> t.q.run.Some?)
    && !(t.q.wrk.Published? && t.other.Published?)
    && (t.q.receipt == Complete ==> !t.q.wrk.Published? && !t.other.Published?)
  }

  /** Only two of a worker's operations touch the run directory or complete the receipt. */
  predicate Publishes(w: Worker) {
    w.Free? || w.Published?
  }

  lemma FewWrites(q: Queue, e: Event)
    requires Enabled(q, e) && !(e.Work? && Publishes(q.wrk))
    requires e.Submit? || e.SubmitFails? || e.SubmitterStops? ==> !q.wrk.Published?
    ensures var q' := Effect(q, e);
      && q'.run == q.run && q'.published == q.published && !q'.wrk.Published?
      && (q'.receipt == Complete ==> q.receipt == Complete)
  {
  }

  lemma TwoKept(t: Two, first: bool, e: Event)
    requires TwoInv(t) && Can(t, first, e)
    ensures TwoInv(Step(t, first, e))
    ensures t.q.run.Some? ==> Step(t, first, e).q.run == t.q.run
  {
    var q := Of(t, first);
    if !(e.Work? && Publishes(q.wrk)) && !(q.wrk.Published? && (e.Submit? || e.SubmitFails? || e.SubmitterStops?)) {
      FewWrites(q, e);
    }
  }

  lemma {:induction false} RunOfTwoInv(run: seq<Two>, i: nat)
    requires RunOfTwo(run) && i < |run|
    ensures TwoInv(run[i])
    ensures i > 0 && run[i - 1].q.run.Some? ==> run[i].q.run == run[i - 1].q.run
  {
    if i > 0 {
      RunOfTwoInv(run, i - 1);
      assert StepAt(run, i - 1);
      var first, e: Event :| Can(run[i - 1], first, e) && run[i] == Step(run[i - 1], first, e);
      TwoKept(run[i - 1], first, e);
    }
  }

  /** Two workers still publish at most one directory, never replace it, and complete a receipt only after it. */
  lemma {:induction false} TwoPublishOnce(run: seq<Two>, i: nat, j: nat)
    requires RunOfTwo(run) && i <= j < |run|
    ensures |run[j].q.published| <= 1
    ensures run[j].q.receipt == Complete ==> run[j].q.run.Some? && run[j].q.published == [run[j].q.run.value]
    ensures run[i].q.run.Some? ==> run[j].q.run == run[i].q.run
    decreases j - i
  {
    RunOfTwoInv(run, j);
    if i < j {
      TwoPublishOnce(run, i, j - 1);
    }
  }

  // ---------------------------------------------------------------- when a receipt can be withdrawn

  /**
   The worker read the receipt before it was complete and is on its way: it has yet to take
   the task, has a task file to read, works on it, or quarantines it.
   */
  predicate Late(q: Queue, w: Worker) {
    w.Loaded? || (w.Moved? && q.processing) || w.Running? || w.Attempted? || w.Quarantining? || w.Withdrawing?
  }

  predicate SomeLate(t: Two) {
    Late(t.q, t.q.wrk) || Late(t.q, t.other)
  }

  ghost predicate CanWithdraw(t: Two) {
    exists run :: RunFrom(run, t) && Now(run).q.receipt == NoReceipt
  }

  function Rank(w: Worker): nat {
    match w
    case Loaded(_) => 5
    case Moved(_) => 4
    case Running => 3
    case Attempted(_) => 2
    case Quarantining => 1
    case _ => 0
  }

  /** A late worker that just goes on withdraws the receipt. */
  lemma {:induction false} LateWithdraws(run: seq<Two>, t: Two, first: bool) returns (longer: seq<Two>)
    requires RunFrom(run, t) && Now(run).q.receipt == Complete && Now(run).q.run.Some?
    requires Late(Now(run).q, Of(Now(run), first).wrk)
    ensures RunFrom(longer, t) && run <= longer && Now(longer).q.receipt == NoReceipt
    ensures Now(longer).q.done == Now(run).q.done
    decreases Rank(Of(Now(run), first).wrk)
  {
    longer := Extend(run, t, first, Work(0));
    if !Of(Now(run), first).wrk.Withdrawing? {
      longer := LateWithdraws(longer, t, first);
    }
  }

  ghost predicate Settled(t: Two) {
    TwoInv(t) && t.q.receipt == Complete && !SomeLate(t)
  }

  lemma SettledStays(t: Two, first: bool, e: Event)
    requires Settled(t) && Can(t, first, e)
    ensures Settled(Step(t, first, e))
  {
    TwoKept(t, first, e);
  }

  lemma {:induction false} SettledRun(run: seq<Two>, t: Two, i: nat)
    requires RunFrom(run, t) && Settled(t) && i < |run|
    ensures Settled(run[i])
  {
    if i > 0 {
      SettledRun(run, t, i - 1);
      assert StepAt(run, i - 1);
      var first, e: Event :| Can(run[i - 1], first, e) && run[i] == Step(run[i - 1], first, e);
      SettledStays(run[i - 1], first, e);
    }
  }

  /**
   Wherever two workers get to with a complete receipt, some continuation withdraws it
   exactly when one of them is late; otherwise it stays complete in all of them.
   */
  lemma WithdrawnExactly(run: seq<Two>)
    requires RunOfTwo(run) && Now(run).q.receipt == Complete
    ensures CanWithdraw(Now(run)) <==> SomeLate(Now(run))
    ensures !SomeLate(Now(run)) ==>
              forall more | RunFrom(more, Now(run)) :: Now(more).q.receipt == Complete
  {
    var t := Now(run);
    RunOfTwoInv(run, |run| - 1);
    if SomeLate(t) {
      var more := LateWithdraws([t], t, Late(t.q, t.q.wrk));
    } else {
      forall more | RunFrom(more, t) ensures Now(more).q.receipt == Complete {
        SettledRun(more, t, |more| - 1);
      }
    }
  }

  // ---------------------------------------------------------------- when the task can come back

  ghost predicate CanReturn(t: Two) {
    exists run :: RunFrom(run, t) && (Now(run).q.ready || Now(run).q.processing)
  }

  ghost predicate Finished(t: Two) {
    Settled(t) && !t.q.ready && !t.q.processing && !t.q.sub.Checked?
  }

  lemma FinishedStays(t: Two, first: bool, e: Event)
    requires Finished(t) && Can(t, first, e)
    ensures Finished(Step(t, first, e))
  {
    SettledStays(t, first, e);
  }

  lemma {:induction false} FinishedRun(run: seq<Two>, t: Two, i: nat)
    requires RunFrom(run, t) && Finished(t) && i < |run|
    ensures Finished(run[i])
  {
    if i > 0 {
      FinishedRun(run, t, i - 1);
      assert StepAt(run, i - 1);
      var first, e: Event :| Can(run[i - 1], first, e) && run[i] == Step(run[i - 1], first, e);
      FinishedStays(run[i - 1], first, e);
    }
  }

  /** A new submission finds no receipt and writes the task again. */
  lemma Resubmits(run: seq<Two>, t: Two) returns (longer: seq<Two>)
    requires RunFrom(run, t) && Now(run).q.receipt == NoReceipt
    ensures RunFrom(longer, t) && run <= longer && Now(longer).q.ready
    ensures Now(longer).q.receipt == NoReceipt && Now(longer).q.done == Now(run).q.done
  {
    longer := Extend(run, t, true, SubmitterStops);
    longer := Extend(longer, t, true, Submit);
    if !Now(longer).q.ready {
      longer := Extend(longer, t, true, Submit);
    }
  }

  /**
   A task with a complete receipt that is neither ready nor processing can be so again
   exactly when a worker is late or a submitter had looked before there was a receipt.
   */
  lemma ReturnsExactly(run: seq<Two>)
    requires RunOfTwo(run) && Now(run).q.receipt == Complete
    requires !Now(run).q.ready && !Now(run).q.processing
    ensures CanReturn(Now(run)) <==> SomeLate(Now(run)) || Now(run).q.sub.Checked?
  {
    var t := Now(run);
    RunOfTwoInv(run, |run| - 1);
    if SomeLate(t) {
      var withdrawn := LateWithdraws([t], t, Late(t.q, t.q.wrk));
      var more := Resubmits(withdrawn, t);
    } else if t.q.sub.Checked? {
      var more := Extend([t], t, true, Submit);
      assert Now(more).q.ready;
    } else {
      forall more | RunFrom(more, t) ensures !Now(more).q.ready && !Now(more).q.processing {
        FinishedRun(more, t, |more| - 1);
      }
    }
  }

  // ---------------------------------------------------------------- such a run

  /** A task is submitted, and both workers have read its queued receipt. */
  lemma BothLoaded() returns (run: seq<Two>)
    ensures RunOfTwo(run)
    ensures Now(run) == Two(Queue(true, false, false, Queued, None, [], SIdle, Loaded(Queued)), Loaded(Queued))
  {
    run := [NOBODY];
    run := Extend(run, NOBODY, true, Submit);
    run := Extend(run, NOBODY, true, Submit);
    run := Extend(run, NOBODY, true, Submit);
    run := Extend(run, NOBODY, true, Submit);
    run := Extend(run, NOBODY, true, Submit);
    run := Extend(run, NOBODY, true, Start(false));
    run := Extend(run, NOBODY, true, Work(0));
    run := Extend(run, NOBODY, false, Start(true));
    run := Extend(run, NOBODY, true, Work(0));
    run := Extend(run, NOBODY, false, Work(0));
  }

  /** The first worker takes the task and completes it. */
  lemma FirstCompletes() returns (run: seq<Two>)
    ensures RunOfTwo(run)
    ensures Now(run) == Two(Queue(false, false, true, Complete, Some(0), [0], SIdle, WIdle), Loaded(Queued))
  {
    run := BothLoaded();
    run := Extend(run, NOBODY, true, Work(0));
    run := Extend(run, NOBODY, true, Work(0));
    run := Extend(run, NOBODY, true, Work(0));
    run := Extend(run, NOBODY, true, Work(0));
    run := Extend(run, NOBODY, true, Work(0));
    run := Extend(run, NOBODY, true, Work(0));
    run := Extend(run, NOBODY, true, Work(0));
  }

  /** Both happen: a done task has its complete receipt withdrawn and is made ready again. */
  lemma TwoWorkersWithdraw() returns (run: seq<Two>, i: nat)
    ensures RunOfTwo(run) && i < |run|
    ensures run[i].q.done && run[i].q.receipt == Complete && SomeLate(run[i])
    ensures Now(run).q.done && Now(run).q.receipt == NoReceipt && Now(run).q.ready
  {
    run := FirstCompletes();
    i := |run| - 1;
    run := LateWithdraws(run, NOBODY, false);
    run := Resubmits(run, NOBODY);
  }
}
