/**
 When a relayed model request is tried again and how it ends: `relay` and `_relay_once` of
 `OpenAIGateway` (artifacts/codeagent-launcher/docker_executor.py) over a whole call.
 */
module GatewayRetry {
  import opened Gateway
  import opened Outcomes

  /** The budget as attempt `k` of a call that is at attempt `n` finds it, if it comes so far. */
  function BudgetAt(b: Budget, id: int, n: nat, attempts: seq<Attempt>, k: nat): Budget
    requires |attempts| == MAX_ATTEMPTS_PER_REQUEST && 1 <= n <= k <= MAX_ATTEMPTS_PER_REQUEST
    decreases k - n
  {
    if n == k then b else BudgetAt(TryRound(b, id, n, attempts[n - 1]).budget, id, n + 1, attempts, k)
  }

  /** The attempt is made: nobody cancelled before it, and there is budget for it. */
  predicate Made(before: Budget, a: Attempt) {
    !a.cancelled && Available(Switch(before, a.switchBefore))
  }

  /** A transient rejection whose delay is within the bound, and nobody cancels while it lasts. */
  predicate Waits(a: Attempt) {
    a.wire.Rejected? && a.wire.delay.Some? && !a.cancelledWaiting
  }

  /** Attempts, the retries of the job, or the requests of the phase are used up. */
  predicate UsedUp(n: nat, after: Budget) {
    n == MAX_ATTEMPTS_PER_REQUEST || after.retries >= MAX_RETRIES_PER_JOB || !Available(after)
  }

  /** How a call ends on an attempt: with one whole answer, or with the error that belongs to what happened. */
  predicate EndsWith(before: Budget, a: Attempt, n: nat, after: Budget, error: Option<ErrorCode>) {
    if a.cancelled then error == Some(Cancelled)
    else if !Made(before, a) then error == Some(BudgetExhausted)
    else
      match a.wire
      case Refused(code) => error == Some(code)
      case Lost(code) => error == Some(code)
      case Answered(_, body, stop) =>
        if Fitting(body, 0) != body then error == Some(ResponseLimit) else error == stop
      case Rejected(limited, delay) =>
        if UsedUp(n, after) || delay.None? then
          error == Some(if limited then RateLimited else UpstreamUnavailable)
        else error == Some(Cancelled) && a.cancelledWaiting
  }

  /** Attempt `k` is made, is rejected, and something is left to try again with. */
  predicate Retried(b: Budget, id: int, n: nat, attempts: seq<Attempt>, k: nat)
    requires |attempts| == MAX_ATTEMPTS_PER_REQUEST && 1 <= n <= k < MAX_ATTEMPTS_PER_REQUEST
  {
    && Made(BudgetAt(b, id, n, attempts, k), attempts[k - 1]) && Waits(attempts[k - 1])
    && !UsedUp(k, BudgetAt(b, id, n, attempts, k + 1))
  }

  lemma RoundExactly(b: Budget, id: int, n: nat, a: Attempt)
    ensures var r := TryRound(b, id, n, a);
      if r.again then Made(b, a) && Waits(a) && !UsedUp(n, r.budget) else EndsWith(b, a, n, r.budget, r.error)
  {
  }

  lemma {:induction false} RelayFromExactly(b: Budget, id: int, n: nat, attempts: seq<Attempt>)
    requires |attempts| == MAX_ATTEMPTS_PER_REQUEST && 1 <= n <= MAX_ATTEMPTS_PER_REQUEST
    ensures var r := RelayFrom(b, id, n, attempts);
      && n <= r.last <= MAX_ATTEMPTS_PER_REQUEST
      && (forall k | n <= k < r.last :: Retried(b, id, n, attempts, k))
      && EndsWith(BudgetAt(b, id, n, attempts, r.last), attempts[r.last - 1], r.last, r.budget, r.error)
    decreases MAX_ATTEMPTS_PER_REQUEST - n
  {
    RelayFromUnfolds(b, id, n, attempts);
    RoundExactly(b, id, n, attempts[n - 1]);
    var round := TryRound(b, id, n, attempts[n - 1]);
    if round.again {
      RelayFromExactly(round.budget, id, n + 1, attempts);
      forall k | n <= k < RelayFrom(b, id, n, attempts).last ensures Retried(b, id, n, attempts, k) {
        if k > n {
          assert Retried(round.budget, id, n + 1, attempts, k);
        }
      }
    }
  }

  /**
   A call with budget that is not cancelled goes on after an attempt exactly as long as it was
   rejected with a delay within the bound, nobody cancels, and neither attempts nor retries
   nor the phase's requests are used up; then it ends as its last attempt says.
   */
  lemma RelayExactly(b: Budget, id: int, cancelled: bool, attempts: seq<Attempt>)
    requires |attempts| == MAX_ATTEMPTS_PER_REQUEST
    ensures var r := Relay(b, id, cancelled, attempts);
      if cancelled then r.error == Some(Cancelled) && r.budget == b && r.frames == []
      else if !Available(b) then r.error == Some(BudgetExhausted) && r.budget == b && r.frames == []
      else
        && 1 <= r.last <= MAX_ATTEMPTS_PER_REQUEST
        && (forall k | 1 <= k < r.last :: Retried(b, id, 1, attempts, k))
        && EndsWith(BudgetAt(b, id, 1, attempts, r.last), attempts[r.last - 1], r.last, r.budget, r.error)
  {
    RelayFromExactly(b, id, 1, attempts);
  }

  /** In particular, with budget, a first attempt that is answered whole is the call's answer. */
  lemma AnsweredAtOnce(b: Budget, id: int, attempts: seq<Attempt>)
    requires |attempts| == MAX_ATTEMPTS_PER_REQUEST && Available(b)
    requires Made(b, attempts[0]) && CleanAnswer(attempts[0].wire)
    ensures var r := Relay(b, id, false, attempts); var w := attempts[0].wire;
      r.error == None && r.last == 1 && r.frames == FullFrames(id, w.status, w.body)
  {
    RelayExactly(b, id, false, attempts);
    NoReplay(b, id, 1, attempts);
    assert !Retried(b, id, 1, attempts, 1);
  }

  /** And one that is rejected with a delay within the bound is tried again while anything is left. */
  lemma TriedAgain(b: Budget, id: int, attempts: seq<Attempt>)
    requires |attempts| == MAX_ATTEMPTS_PER_REQUEST && Available(b)
    requires Made(b, attempts[0]) && Waits(attempts[0])
    requires !UsedUp(1, BudgetAt(b, id, 1, attempts, 2))
    ensures Relay(b, id, false, attempts).last >= 2
  {
    RelayExactly(b, id, false, attempts);
  }

  // ---------------------------------------------------------------- what is counted

  /** The attempt is made and its POST is sent, whatever becomes of it. */
  predicate Posted(before: Budget, a: Attempt) {
    Made(before, a) && !a.wire.Refused?
  }

  /** The phase at the moment of the POST. */
  function PostPhase(before: Budget, a: Attempt): BudgetPhase {
    if a.switchBefore || a.switchBetween then Repair else before.phase
  }

  /** How many of the attempts from `n` to `last` posted, in any phase or in this one. */
  function Posts(b: Budget, id: int, n: nat, attempts: seq<Attempt>, last: nat, phase: Option<BudgetPhase>): nat
    requires |attempts| == MAX_ATTEMPTS_PER_REQUEST && 1 <= n <= last <= MAX_ATTEMPTS_PER_REQUEST
    decreases last - n
  {
    var a := attempts[n - 1];
    (if Posted(b, a) && (phase.None? || phase == Some(PostPhase(b, a))) then 1 else 0)
    + if n == last then 0 else Posts(TryRound(b, id, n, a).budget, id, n + 1, attempts, last, phase)
  }

  lemma RoundCounts(b: Budget, id: int, n: nat, a: Attempt)
    ensures var c := TryRound(b, id, n, a).budget;
      var one := if Posted(b, a) then 1 else 0;
      && c.requests == b.requests + one
      && c.logical == b.logical + (if n > 1 then 0 else one)
      && c.retries == b.retries + (if n > 1 then one else 0)
      && c.authoring == b.authoring + (if PostPhase(b, a).Authoring? then one else 0)
      && c.repair == b.repair + (if PostPhase(b, a).Repair? then one else 0)
  {
  }

  /** Posts of later attempts are retries. */
  lemma {:induction false} FromCounts(b: Budget, id: int, n: nat, attempts: seq<Attempt>)
    requires |attempts| == MAX_ATTEMPTS_PER_REQUEST && 1 <= n <= MAX_ATTEMPTS_PER_REQUEST
    ensures var r := RelayFrom(b, id, n, attempts);
      && n <= r.last <= MAX_ATTEMPTS_PER_REQUEST
      && r.budget.requests == b.requests + Posts(b, id, n, attempts, r.last, None)
      && r.budget.authoring == b.authoring + Posts(b, id, n, attempts, r.last, Some(Authoring))
      && r.budget.repair == b.repair + Posts(b, id, n, attempts, r.last, Some(Repair))
      && (n > 1 ==> r.budget.logical == b.logical)
    decreases MAX_ATTEMPTS_PER_REQUEST - n
  {
    RelayFromUnfolds(b, id, n, attempts);
    RoundCounts(b, id, n, attempts[n - 1]);
    var round := TryRound(b, id, n, attempts[n - 1]);
    if round.again {
      FromCounts(round.budget, id, n + 1, attempts);
    }
  }

  /**
   A call that is let in counts every POST that it sends, once, in the phase of that moment;
   one logical request if its first attempt posted, and every other POST as a retry.
   */
  lemma CountsExactly(b: Budget, id: int, attempts: seq<Attempt>)
    requires |attempts| == MAX_ATTEMPTS_PER_REQUEST && BudgetInv(b) && Available(b)
    ensures var r := Relay(b, id, false, attempts);
      && 1 <= r.last <= MAX_ATTEMPTS_PER_REQUEST
      && r.budget.requests == b.requests + Posts(b, id, 1, attempts, r.last, None)
      && r.budget.authoring == b.authoring + Posts(b, id, 1, attempts, r.last, Some(Authoring))
      && r.budget.repair == b.repair + Posts(b, id, 1, attempts, r.last, Some(Repair))
      && r.budget.logical == b.logical + (if Posted(b, attempts[0]) then 1 else 0)
      && r.budget.logical + r.budget.retries == r.budget.requests
  {
    FromCounts(b, id, 1, attempts);
    RelayFromKeeps(b, id, 1, attempts);
    RelayFromUnfolds(b, id, 1, attempts);
    RoundCounts(b, id, 1, attempts[0]);
    var round := TryRound(b, id, 1, attempts[0]);
    if round.again {
      FromCounts(round.budget, id, 2, attempts);
    }
  }
}
