/**
 What one caller of `execute_task` gets when nobody disturbs it
 (artifacts/codeagent-adapter/codeagent_adapter.py), over all runs in which it alone moves and
 neither crashes nor fails.
 */
module AuthorAlone {
  import opened AuthorAdmission
  import opened HostBudget
  import opened Outcomes

  predicate Undisturbed(p: Proc, e: Event) {
    e == Lock(p) || e == Work(p)
  }

  ghost predicate Alone(w: World, w': World, p: Proc) {
    exists e: Event :: Enabled(w, e) && Undisturbed(p, e) && w' == Effect(w, e)
  }

  ghost predicate AloneAt(ws: seq<World>, i: nat, p: Proc)
    requires i + 1 < |ws|
  {
    Alone(ws[i], ws[i + 1], p)
  }

  ghost predicate AloneFrom(ws: seq<World>, w: World, p: Proc) {
    |ws| > 0 && ws[0] == w && forall i: nat | i + 1 < |ws| :: AloneAt(ws, i, p)
  }

  ghost predicate AtEnd(w: World, p: Proc) {
    forall v :: !Alone(w, v, p)
  }

  lemma {:induction false} AloneAlong(ws: seq<World>, w: World, p: Proc, good: World -> bool, i: nat)
    requires AloneFrom(ws, w, p) && good(w) && i < |ws|
    requires forall u, v | good(u) && Alone(u, v, p) :: good(v)
    ensures good(ws[i])
  {
    if i > 0 {
      AloneAlong(ws, w, p, good, i - 1);
      assert AloneAt(ws, i - 1, p);
    }
  }

  /** It has arrived and holds no lock. */
  ghost predicate Ready(w: World, p: Proc, t: Task) {
    PcOf(w, p) == Arriving(t) && !Holds(w.authors, p) && !Holds(w.legacy, p) && p !in w.attempts.Values
  }

  /** The lowest free author slot. */
  function FreeSlot(w: World): Option<nat> {
    if 0 !in w.authors then Some(0) else if 1 !in w.authors then Some(1) else None
  }

  /** Every lock the caller needs is free, and there is no status yet. */
  predicate Admissible(w: World, t: Task) {
    && (t.legacy ==> 0 !in w.legacy) && FreeSlot(w).Some?
    && t.root !in w.attempts && t.status !in w.status
  }

  function Moved(w: World, p: Proc, pc: Pc): World {
    w.(procs := w.procs[p := pc])
  }

  /** How the attempt ends; all locks are as they were. */
  function AttemptEnd(w: World, p: Proc, t: Task): World {
    if !Admissible(w, t) then Moved(w, p, Refused(t))
    else if Key(t) in w.consents then Moved(w.(status := w.status[t.status := Failed]), p, Done(t))
    else
      Moved(w.(status := w.status[t.status := SourceReady], consents := w.consents + {Key(t)},
               executions := w.executions + [Key(t)]), p, Done(t))
  }

  function WithLegacy(w: World, p: Proc, t: Task): World {
    if t.legacy then w.(legacy := w.legacy[0 := p]) else w
  }

  function Leased(w: World, p: Proc, t: Task): World
    requires FreeSlot(w).Some?
  {
    WithLegacy(w, p, t).(authors := w.authors[FreeSlot(w).value := p])
  }

  function Inside(w: World, p: Proc, t: Task): World
    requires FreeSlot(w).Some?
  {
    Leased(w, p, t).(attempts := w.attempts[t.root := p])
  }

  function Started(w: World, t: Task): World {
    w.(status := w.status[t.status := AuthorAdmission.Running])
  }

  /** How far the attempt that began in `w` is in `u`. */
  predicate Attempts(w: World, u: World, p: Proc, t: Task) {
    var pc := PcOf(u, p);
    match pc
    case Arriving(_) => u == w
    case Scanning(_, slot) =>
      && (t.legacy ==> 0 !in w.legacy) && slot <= 2 && (forall s: nat | s < slot :: s in w.authors)
      && u == Moved(WithLegacy(w, p, t), p, Scanning(t, slot))
    case Rooting(_) =>
      (t.legacy ==> 0 !in w.legacy) && FreeSlot(w).Some? && u == Moved(Leased(w, p, t), p, Rooting(t))
    case Checking(_) =>
      && (t.legacy ==> 0 !in w.legacy) && FreeSlot(w).Some? && t.root !in w.attempts
      && u == Moved(Inside(w, p, t), p, Checking(t))
    case Admitted(_) => Admissible(w, t) && u == Moved(Inside(w, p, t), p, Admitted(t))
    case Working(_) => Admissible(w, t) && u == Moved(Started(Inside(w, p, t), t), p, Working(t))
    case Claimed(_) =>
      && Admissible(w, t) && Key(t) !in w.consents
      && u == Moved(Started(Inside(w, p, t), t).(consents := w.consents + {Key(t)}), p, Claimed(t))
    case Executed(_) =>
      && Admissible(w, t) && Key(t) !in w.consents
      && u == Moved(Started(Inside(w, p, t), t).(consents := w.consents + {Key(t)},
                                                 executions := w.executions + [Key(t)]), p, Executed(t))
    case Failing(_) => Admissible(w, t) && Key(t) in w.consents && u == Moved(Started(w, t), p, Failing(t))
    case Refused(_) => !Admissible(w, t) && u == AttemptEnd(w, p, t)
    case Done(_) => Admissible(w, t) && u == AttemptEnd(w, p, t)
    case Idle => false
  }

  lemma MovedTwice(w: World, p: Proc, a: Pc, b: Pc)
    ensures Moved(Moved(w, p, a), p, b) == Moved(w, p, b)
  {
    assert w.procs[p := a][p := b] == w.procs[p := b];
  }

  /** Leaving gives back exactly what the attempt took. */
  lemma DropTaken(slots: Slots, slot: nat, p: Proc)
    requires slot !in slots && !Holds(slots, p)
    ensures Drop(slots[slot := p], p) == slots
  {
    forall s <- slots ensures slots[s] != p {
      assert slots[s] in slots.Values;
    }
  }

  lemma DropNothing(slots: Slots, p: Proc)
    requires !Holds(slots, p)
    ensures Drop(slots, p) == slots
  {
    forall s <- slots ensures slots[s] != p {
      assert slots[s] in slots.Values;
    }
  }

  lemma LegacyBack(w: World, p: Proc, t: Task)
    requires !Holds(w.legacy, p) && (t.legacy ==> 0 !in w.legacy)
    ensures Drop(WithLegacy(w, p, t).legacy, p) == w.legacy
  {
    if t.legacy {
      DropTaken(w.legacy, 0, p);
    } else {
      DropNothing(w.legacy, p);
    }
  }

  /** Whatever of its locks it has by then, leaving restores the locks of `w`. */
  lemma LeaveRestores(w: World, u: World, p: Proc, t: Task, pc: Pc)
    requires Ready(w, p, t) && (t.legacy ==> 0 !in w.legacy)
    requires u.legacy == WithLegacy(w, p, t).legacy || u.legacy == w.legacy
    requires u.authors == w.authors || (FreeSlot(w).Some? && u.authors == w.authors[FreeSlot(w).value := p])
    requires u.attempts == w.attempts || (t.root !in w.attempts && u.attempts == w.attempts[t.root := p])
    ensures Leave(u, p, pc) == Moved(u.(legacy := w.legacy, authors := w.authors, attempts := w.attempts), p, pc)
  {
    LegacyBack(w, p, t);
    DropNothing(w.legacy, p);
    DropNothing(w.authors, p);
    if FreeSlot(w).Some? {
      DropTaken(w.authors, FreeSlot(w).value, p);
    }
    forall r <- w.attempts ensures w.attempts[r] != p {
      assert w.attempts[r] in w.attempts.Values;
    }
    var left := map r | r in u.attempts && u.attempts[r] != p :: u.attempts[r];
    assert left == w.attempts;
  }

  function NextEvent(u: World, p: Proc): Event {
    var pc := PcOf(u, p);
    if pc.Arriving? || pc.Scanning? || pc.Rooting? || pc.Checking? then Lock(p) else Work(p)
  }

  lemma OneWay(u: World, p: Proc, e: Event)
    requires Enabled(u, e) && Undisturbed(p, e)
    ensures e == NextEvent(u, p)
  {
  }

  predicate Goes(w: World, u: World, p: Proc, t: Task) {
    Enabled(u, NextEvent(u, p)) && Attempts(w, Effect(u, NextEvent(u, p)), p, t)
  }

  lemma Arrives(w: World, p: Proc, t: Task)
    requires Ready(w, p, t)
    ensures Goes(w, w, p, t)
  {
    if t.legacy && 0 in w.legacy {
      DropNothing(w.legacy, p);
      DropNothing(w.authors, p);
      var left := map r | r in w.attempts && w.attempts[r] != p :: w.attempts[r];
      assert left == w.attempts by {
        forall r <- w.attempts ensures w.attempts[r] != p { assert w.attempts[r] in w.attempts.Values; }
      }
    }
  }

  lemma Scans(w: World, u: World, p: Proc, t: Task)
    requires Ready(w, p, t) && Attempts(w, u, p, t) && PcOf(u, p).Scanning?
    ensures Goes(w, u, p, t)
  {
    var slot := PcOf(u, p).slot;
    if slot >= 2 {
      LeaveRestores(w, u, p, t, Refused(t));
      MovedTwice(w, p, Scanning(t, slot), Refused(t));
    } else if slot in w.authors {
      MovedTwice(WithLegacy(w, p, t), p, Scanning(t, slot), Scanning(t, slot + 1));
    } else {
      assert FreeSlot(w) == Some(slot);
      MovedTwice(Leased(w, p, t), p, Scanning(t, slot), Rooting(t));
    }
  }

  lemma Roots(w: World, u: World, p: Proc, t: Task)
    requires Ready(w, p, t) && Attempts(w, u, p, t) && PcOf(u, p).Rooting?
    ensures Goes(w, u, p, t)
  {
    if t.root in w.attempts {
      LeaveRestores(w, u, p, t, Refused(t));
      MovedTwice(w, p, Rooting(t), Refused(t));
    } else {
      MovedTwice(Inside(w, p, t), p, Rooting(t), Checking(t));
    }
  }

  lemma Checks(w: World, u: World, p: Proc, t: Task)
    requires Ready(w, p, t) && Attempts(w, u, p, t) && PcOf(u, p).Checking?
    ensures Goes(w, u, p, t)
  {
    if t.status in w.status {
      LeaveRestores(w, u, p, t, Refused(t));
      MovedTwice(w, p, Checking(t), Refused(t));
    } else {
      MovedTwice(Inside(w, p, t), p, Checking(t), Admitted(t));
    }
  }

  lemma Starts(w: World, u: World, p: Proc, t: Task)
    requires Ready(w, p, t) && Attempts(w, u, p, t) && PcOf(u, p).Admitted?
    ensures Goes(w, u, p, t)
  {
    MovedTwice(Started(Inside(w, p, t), t), p, Admitted(t), Working(t));
  }

  lemma Claims(w: World, u: World, p: Proc, t: Task)
    requires Ready(w, p, t) && Attempts(w, u, p, t) && PcOf(u, p).Working?
    ensures Goes(w, u, p, t)
  {
    if Key(t) in w.consents {
      LeaveRestores(w, u, p, t, Failing(t));
      MovedTwice(Started(w, t), p, Working(t), Failing(t));
    } else {
      MovedTwice(Started(Inside(w, p, t), t).(consents := w.consents + {Key(t)}), p, Working(t), Claimed(t));
    }
  }

  lemma Executes(w: World, u: World, p: Proc, t: Task)
    requires Ready(w, p, t) && Attempts(w, u, p, t) && PcOf(u, p).Claimed?
    ensures Goes(w, u, p, t)
  {
    MovedTwice(Started(Inside(w, p, t), t).(consents := w.consents + {Key(t)}, executions := w.executions + [Key(t)]),
               p, Claimed(t), Executed(t));
  }

  lemma StatusTwice(w: World, t: Task, end: Status)
    ensures Started(w, t).status[t.status := end] == w.status[t.status := end]
  {
  }

  /** The files with the final status and the locks of `w`. */
  lemma PublishedFiles(w: World, u: World, p: Proc, t: Task)
    requires Attempts(w, u, p, t) && PcOf(u, p).Executed?
    ensures var v := u.(status := u.status[t.status := SourceReady]);
      Moved(v.(legacy := w.legacy, authors := w.authors, attempts := w.attempts), p, Done(t)) == AttemptEnd(w, p, t)
  {
    StatusTwice(w, t, SourceReady);
    MovedTwice(w.(status := w.status[t.status := SourceReady], consents := w.consents + {Key(t)},
                  executions := w.executions + [Key(t)]), p, Executed(t), Done(t));
  }

  lemma WorkOfExecuted(u: World, p: Proc, t: Task)
    requires PcOf(u, p) == Executed(t)
    ensures NextEvent(u, p) == Work(p) && Enabled(u, Work(p))
    ensures Effect(u, Work(p)) == Leave(u.(status := u.status[t.status := SourceReady]), p, Done(t))
  {
  }

  lemma Publishes(w: World, u: World, p: Proc, t: Task)
    requires Ready(w, p, t) && Attempts(w, u, p, t) && PcOf(u, p).Executed?
    ensures Goes(w, u, p, t)
  {
    var v := u.(status := u.status[t.status := SourceReady]);
    LeaveRestores(w, v, p, t, Done(t));
    PublishedFiles(w, u, p, t);
    WorkOfExecuted(u, p, t);
  }

  lemma Fails(w: World, u: World, p: Proc, t: Task)
    requires Ready(w, p, t) && Attempts(w, u, p, t) && PcOf(u, p).Failing?
    ensures Goes(w, u, p, t)
  {
    StatusTwice(w, t, Failed);
    assert w.procs[p := Failing(t)][p := Done(t)] == w.procs[p := Done(t)];
  }

  /** The attempt goes on until it is refused or done. */
  lemma AttemptGoes(w: World, u: World, p: Proc, t: Task)
    requires Ready(w, p, t) && Attempts(w, u, p, t) && !PcOf(u, p).Refused? && !PcOf(u, p).Done?
    ensures Goes(w, u, p, t)
  {
    match PcOf(u, p)
    case Arriving(_) => Arrives(w, p, t);
    case Scanning(_, _) => Scans(w, u, p, t);
    case Rooting(_) => Roots(w, u, p, t);
    case Checking(_) => Checks(w, u, p, t);
    case Admitted(_) => Starts(w, u, p, t);
    case Working(_) => Claims(w, u, p, t);
    case Claimed(_) => Executes(w, u, p, t);
    case Executed(_) => Publishes(w, u, p, t);
    case _ => Fails(w, u, p, t);
  }

  lemma NoMore(u: World, p: Proc, e: Event)
    requires (PcOf(u, p).Refused? || PcOf(u, p).Done?) && Undisturbed(p, e)
    ensures !Enabled(u, e)
  {
  }

  lemma AttemptStep(w: World, u: World, v: World, p: Proc, t: Task)
    requires Ready(w, p, t) && Attempts(w, u, p, t) && Alone(u, v, p)
    ensures Attempts(w, v, p, t)
  {
    var e: Event :| Enabled(u, e) && Undisturbed(p, e) && v == Effect(u, e);
    OneWay(u, p, e);
    if PcOf(u, p).Refused? || PcOf(u, p).Done? {
      NoMore(u, p, e);
    } else {
      AttemptGoes(w, u, p, t);
    }
  }

  lemma AttemptOver(w: World, u: World, p: Proc, t: Task)
    requires Ready(w, p, t) && Attempts(w, u, p, t)
    ensures AtEnd(u, p) <==> u == AttemptEnd(w, p, t)
  {
    if PcOf(u, p).Refused? || PcOf(u, p).Done? {
      forall v ensures !Alone(u, v, p) {
        if e: Event :| Enabled(u, e) && Undisturbed(p, e) && v == Effect(u, e) {
          NoMore(u, p, e);
        }
      }
    } else {
      AttemptGoes(w, u, p, t);
      assert Alone(u, Effect(u, NextEvent(u, p)), p);
    }
  }

  /**
   Every undisturbed attempt that goes to its end is refused, changing nothing, exactly when a
   lock it needs is taken or its status exists; otherwise it executes its consent once and is
   source-ready, unless the consent was spent, and then it fails without executing. All locks
   are given back.
   */
  lemma AttemptAnswers(ws: seq<World>, w: World, p: Proc, t: Task)
    requires Ready(w, p, t) && AloneFrom(ws, w, p)
    ensures AtEnd(ws[|ws| - 1], p) <==> ws[|ws| - 1] == AttemptEnd(w, p, t)
  {
    var good := u => Attempts(w, u, p, t);
    forall u, v | good(u) && Alone(u, v, p) ensures good(v) {
      AttemptStep(w, u, v, p, t);
    }
    AloneAlong(ws, w, p, good, |ws| - 1);
    AttemptOver(w, ws[|ws| - 1], p, t);
  }

  /** A caller that has arrived is ready, in every run. */
  lemma ArrivedIsReady(w: World, p: Proc, t: Task)
    requires LockInv(w) && PcOf(w, p) == Arriving(t)
    ensures Ready(w, p, t)
  {
  }
}
