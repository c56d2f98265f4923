/**
 Host-wide admission slots (artifacts/codeagent-launcher/host_budget.py).

 A slot is a stable lock inode; an exclusive `flock` on it is the only thing that
 makes a process its owner, and the kernel drops the lock when the owner dies.
 A budget is therefore a map from locked slot numbers to their owners.
 */
module HostBudget {
  import opened Outcomes

  const AUTHOR_LIMIT: nat := 2

  datatype Kind = Pipeline | CodeAgent | Compiler | DockerAdmission | PipelineLegacy | CodeAgentLegacy

  function Limit(kind: Kind): nat {
    match kind
    case Pipeline => AUTHOR_LIMIT
    case CodeAgent => AUTHOR_LIMIT
    case _ => 1
  }

  type Proc = nat
  type Slots = map<nat, Proc>

  /** Slots exist only below the limit, and no process locks two of them. */
  ghost predicate WellFormed(slots: Slots, limit: nat) {
    && (forall s <- slots :: s < limit)
    && (forall s, t | s in slots && t in slots && slots[s] == slots[t] :: s == t)
  }

  ghost predicate Holds(slots: Slots, p: Proc) {
    p in slots.Values
  }

  /** A lock taken on a free slot; the kernel refuses it on an occupied one. */
  function Take(slots: Slots, slot: nat, p: Proc): Slots {
    if slot in slots then slots else slots[slot := p]
  }

  /** The locks of `p` disappear together: on release, on an exception, or on a crash. */
  function Drop(slots: Slots, p: Proc): Slots {
    map s | s in slots && slots[s] != p :: slots[s]
  }

  /**
   One pass of `lease` over its slots: the lowest free slot is locked, and the
   pass fails exactly when every slot is occupied.
   */
  method ScanSlots(kind: Kind, slots: Slots, p: Proc) returns (taken: Option<nat>, after: Slots)
    requires WellFormed(slots, Limit(kind)) && !Holds(slots, p)
    ensures taken.None? <==> |slots| == Limit(kind)
    ensures taken.None? ==> after == slots
    ensures taken.Some? ==>
              && taken.value < Limit(kind) && taken.value !in slots
              && (forall s: nat :: s < taken.value ==> s in slots)
              && after == slots[taken.value := p]
    ensures WellFormed(after, Limit(kind))
  {
    taken, after := None, slots;
    var slot := 0;
    while slot < Limit(kind)
      invariant slot <= Limit(kind)
      invariant taken.None? && after == slots
      invariant forall s: nat :: s < slot ==> s in slots
    {
      if slot !in slots {
        taken, after := Some(slot), Take(slots, slot, p);
        FullBudget(slots, Limit(kind), slot);
        return;
      }
      slot := slot + 1;
    }
    AllLocked(slots, Limit(kind));
  }

  lemma InitialSegment(n: nat) returns (s: set<nat>)
    ensures |s| == n && forall k: nat :: k in s <==> k < n
  {
    s := {};
    for i := 0 to n
      invariant |s| == i && forall k: nat :: k in s <==> k < i
    {
      s := s + {i};
    }
  }

  lemma SubsetSize<T>(a: set<T>, b: set<T>)
    requires a <= b
    ensures |a| <= |b|
  {
    assert b == a + (b - a);
  }

  lemma AllLocked(slots: Slots, limit: nat)
    requires forall s <- slots :: s < limit
    requires forall s: nat :: s < limit ==> s in slots
    ensures |slots| == limit
  {
    var all := InitialSegment(limit);
    assert slots.Keys == all;
  }

  lemma FullBudget(slots: Slots, limit: nat, free: nat)
    requires forall s <- slots :: s < limit
    requires free < limit && free !in slots
    ensures |slots| < limit
  {
    var all := InitialSegment(limit);
    SubsetSize(slots.Keys + {free}, all);
  }

  /** However locks were taken and lost, at most `limit` processes own one. */
  lemma {:induction false} HoldersBounded(slots: Slots, limit: nat, holders: set<Proc>)
    requires forall s <- slots :: s < limit
    requires forall p <- holders :: Holds(slots, p)
    ensures |holders| <= |slots| <= limit
    decreases |holders|
  {
    var all := InitialSegment(limit);
    SubsetSize(slots.Keys, all);
    if holders != {} {
      var p :| p in holders;
      var s :| s in slots && slots[s] == p;
      var rest := slots - {s};
      forall q <- holders - {p} ensures Holds(rest, q) {
        var t :| t in slots && slots[t] == q;
        assert t in rest && rest[t] == q;
      }
      HoldersBounded(rest, limit, holders - {p});
    }
  }

  lemma TakeKeeps(slots: Slots, limit: nat, slot: nat, p: Proc)
    requires WellFormed(slots, limit) && slot < limit && !Holds(slots, p)
    ensures WellFormed(Take(slots, slot, p), limit)
    ensures slot !in slots ==> Holds(Take(slots, slot, p), p)
    ensures forall q | q != p :: Holds(Take(slots, slot, p), q) <==> Holds(slots, q)
  {
    var after := Take(slots, slot, p);
    if slot !in slots {
      assert after[slot] == p;
      assert forall s | s in slots :: slots[s] != p;
      forall q | q != p && Holds(slots, q) ensures Holds(after, q) {
        var s :| s in slots && slots[s] == q;
        assert after[s] == q;
      }
    }
  }

  lemma DropKeeps(slots: Slots, limit: nat, p: Proc)
    requires WellFormed(slots, limit)
    ensures WellFormed(Drop(slots, p), limit)
    ensures !Holds(Drop(slots, p), p)
    ensures forall q | q != p :: Holds(Drop(slots, p), q) <==> Holds(slots, q)
  {
    forall q | q != p && Holds(slots, q) ensures Holds(Drop(slots, p), q) {
      var s :| s in slots && slots[s] == q;
      assert Drop(slots, p)[s] == q;
    }
  }
}
