/**
 The model-request gateway of a Docker job: `OpenAIGateway` in
 artifacts/codeagent-launcher/docker_executor.py.

 `Budget` is the gateway's counters as a value; the functions say what one call does to
 them and which frames it emits, and the class at the end does the same with its fields.
 What the network, the caller's cancellation and the concurrent `set_phase("repair")` of
 the main thread do during a call is an argument.
 */
module Gateway {
  import opened ByteStrings
  import opened Facts
  import opened Outcomes

  const MAX_REQUESTS: nat := 48
  const AUTHORING_LIMIT: nat := 40
  const REPAIR_LIMIT: nat := 8
  const MAX_ATTEMPTS_PER_REQUEST: nat := 3
  const MAX_RETRIES_PER_JOB: nat := 8
  const MAX_RESPONSE: nat := 8 * 1024 * 1024

  datatype BudgetPhase = Authoring | Repair

  datatype Budget = Budget(
    phase: BudgetPhase, requests: nat, authoring: nat, repair: nat, logical: nat, retries: nat)

  datatype Frame = Head(id: int, status: int) | Chunk(id: int, body: Bytes) | End(id: int)

  datatype ErrorCode =
    | Cancelled | BudgetExhausted | RequestInvalid | NetworkError | TimedOut
    | RateLimited | UpstreamUnavailable | ResponseLimit | PhaseInvalid

  /**
   What happens to one wire attempt. `Refused`: nothing was posted. `Lost`: the POST was
   sent and no response head came. `Rejected`: a transient status, with None when the
   required delay exceeds the bound. `Answered`: the chunks read from the body, then
   either its clean end (None) or an interruption.
   */
  datatype Wire =
    | Refused(code: ErrorCode)
    | Lost(code: ErrorCode)
    | Rejected(rateLimited: bool, delay: Option<nat>)
    | Answered(status: int, body: seq<Bytes>, stop: Option<ErrorCode>)

  /** The moments of one attempt at which the main thread may have switched to repair. */
  datatype Attempt = Attempt(
    cancelled: bool, switchBefore: bool, switchBetween: bool, switchAfter: bool, wire: Wire, cancelledWaiting: bool)

  datatype Outcome = Complete | Transient(rateLimited: bool, delay: Option<nat>) | Failure(code: ErrorCode)

  // ---------------------------------------------------------------- counters

  function PhaseLimit(phase: BudgetPhase): nat {
    if phase.Authoring? then AUTHORING_LIMIT else REPAIR_LIMIT
  }

  function PhaseUsed(b: Budget): nat {
    if b.phase.Authoring? then b.authoring else b.repair
  }

  predicate Available(b: Budget) {
    b.requests < MAX_REQUESTS && PhaseUsed(b) < PhaseLimit(b.phase)
  }

  function SetPhase(b: Budget, phase: BudgetPhase): Result<Budget, ErrorCode> {
    if b.phase.Repair? && phase.Authoring? then Err(PhaseInvalid) else Ok(b.(phase := phase))
  }

  function Switch(b: Budget, now: bool): Budget {
    if now then b.(phase := Repair) else b
  }

  /** One admitted POST: the total, its phase, and either a logical request or a retry. */
  function Count(b: Budget, retry: bool): Budget {
    var c := b.(requests := b.requests + 1,
                logical := if retry then b.logical else b.logical + 1,
                retries := if retry then b.retries + 1 else b.retries);
    if b.phase.Authoring? then c.(authoring := c.authoring + 1) else c.(repair := c.repair + 1)
  }

  // ---------------------------------------------------------------- one relay call

  /** The chunks that stay under the response limit, from `size` bytes already read. */
  function Fitting(body: seq<Bytes>, size: nat): seq<Bytes> {
    if body == [] || size + |body[0]| > MAX_RESPONSE then [] else [body[0]] + Fitting(body[1..], size + |body[0]|)
  }

  function ChunkFrames(id: int, body: seq<Bytes>): seq<Frame> {
    seq(|body|, i requires 0 <= i < |body| => Chunk(id, body[i]))
  }

  /** Everything a fully read answer would emit. */
  function FullFrames(id: int, status: int, body: seq<Bytes>): seq<Frame> {
    [Head(id, status)] + ChunkFrames(id, body) + [End(id)]
  }

  predicate CleanAnswer(w: Wire) {
    w.Answered? && w.stop.None? && Fitting(w.body, 0) == w.body
  }

  function OnceOutcome(w: Wire): Outcome {
    match w
    case Refused(code) => Failure(code)
    case Lost(code) => Failure(code)
    case Rejected(limited, delay) => Transient(limited, delay)
    case Answered(_, body, stop) =>
      if Fitting(body, 0) != body then Failure(ResponseLimit)
      else if stop.Some? then Failure(stop.value)
      else Complete
  }

  function OnceFrames(id: int, w: Wire): seq<Frame> {
    if !w.Answered? then []
    else [Head(id, w.status)] + ChunkFrames(id, Fitting(w.body, 0)) + if CleanAnswer(w) then [End(id)] else []
  }

  datatype Step = Step(budget: Budget, frames: seq<Frame>, outcome: Outcome)

  /** `_relay_once`. */
  function RelayOnce(b: Budget, id: int, retry: bool, a: Attempt): Step {
    if !Available(b) then Step(b, [], Failure(BudgetExhausted))
    else
      var c := Switch(b, a.switchBetween);
      if a.wire.Refused? then Step(c, [], Failure(a.wire.code))
      else Step(Count(c, retry), OnceFrames(id, a.wire), OnceOutcome(a.wire))
  }

  function RejectionCode(rateLimited: bool): ErrorCode {
    if rateLimited then RateLimited else UpstreamUnavailable
  }

  /** One round of the loop in `relay`; `again` when it goes on to the next attempt. */
  datatype Round = Round(budget: Budget, frames: seq<Frame>, error: Option<ErrorCode>, again: bool)

  function TryRound(b: Budget, id: int, n: nat, a: Attempt): (r: Round)
    ensures r.again ==> n != MAX_ATTEMPTS_PER_REQUEST
  {
    if a.cancelled then Round(b, [], Some(Cancelled), false)
    else
      var step := RelayOnce(Switch(b, a.switchBefore), id, n > 1, a);
      match step.outcome
      case Complete => Round(step.budget, step.frames, None, false)
      case Failure(code) => Round(step.budget, step.frames, Some(code), false)
      case Transient(limited, delay) =>
        var after := Switch(step.budget, a.switchAfter);
        if n == MAX_ATTEMPTS_PER_REQUEST || after.retries >= MAX_RETRIES_PER_JOB
           || !Available(after) || delay.None? then
          Round(after, step.frames, Some(RejectionCode(limited)), false)
        else if a.cancelledWaiting then Round(after, step.frames, Some(Cancelled), false)
        else Round(after, step.frames, None, true)
  }

  /** The attempts `n`, `n + 1`, ... of `relay`; `last` is the final one. */
  datatype Relayed = Relayed(budget: Budget, frames: seq<Frame>, error: Option<ErrorCode>, last: nat)

  function RelayFrom(b: Budget, id: int, n: nat, attempts: seq<Attempt>): Relayed
    requires |attempts| == MAX_ATTEMPTS_PER_REQUEST && 1 <= n <= MAX_ATTEMPTS_PER_REQUEST
    decreases MAX_ATTEMPTS_PER_REQUEST - n
  {
    var round := TryRound(b, id, n, attempts[n - 1]);
    if round.again then
      var rest := RelayFrom(round.budget, id, n + 1, attempts);
      rest.(frames := round.frames + rest.frames)
    else Relayed(round.budget, round.frames, round.error, n)
  }

  /** `relay`: cancellation and capacity are checked before the first attempt. */
  function Relay(b: Budget, id: int, cancelled: bool, attempts: seq<Attempt>): Relayed
    requires |attempts| == MAX_ATTEMPTS_PER_REQUEST
  {
    if cancelled then Relayed(b, [], Some(Cancelled), 1)
    else if !Available(b) then Relayed(b, [], Some(BudgetExhausted), 1)
    else RelayFrom(b, id, 1, attempts)
  }

  // ---------------------------------------------------------------- conservation

  ghost predicate BudgetInv(b: Budget) {
    && b.requests == b.authoring + b.repair == b.logical + b.retries
    && b.authoring <= AUTHORING_LIMIT && b.repair <= REPAIR_LIMIT && b.retries <= MAX_RETRIES_PER_JOB
    && (b.phase.Authoring? ==> b.repair == 0)
  }

  /** Counting after the capacity check is safe even if the phase was switched in between. */
  lemma OnceKeeps(b: Budget, id: int, retry: bool, a: Attempt)
    requires BudgetInv(b) && (retry ==> b.retries < MAX_RETRIES_PER_JOB)
    ensures var s := RelayOnce(b, id, retry, a);
      && BudgetInv(s.budget)
      && b.requests <= s.budget.requests <= b.requests + 1
      && (s.outcome.Transient? ==> s.frames == [] && s.budget.requests == b.requests + 1)
      && (b.phase.Repair? ==> s.budget.phase.Repair?)
      && s.budget.logical <= b.logical + (if retry then 0 else 1)
      && s.budget.retries <= b.retries + (if retry then 1 else 0)
  {
  }

  /** From `b` to `b'` at most so many posts, new requests and retries were counted, and the phase only went forward. */
  ghost predicate Grew(b: Budget, b': Budget, posts: nat, logical: nat, retries: nat) {
    && BudgetInv(b')
    && b.requests <= b'.requests <= b.requests + posts
    && (b.phase.Repair? ==> b'.phase.Repair?)
    && b'.logical <= b.logical + logical
    && b'.retries <= b.retries + retries
  }

  lemma GrewFurther(b: Budget, c: Budget, d: Budget, posts: nat, logical: nat, retries: nat, more: nat)
    requires Grew(b, c, 1, logical, retries) && Grew(c, d, posts, 0, more)
    ensures Grew(b, d, posts + 1, logical, retries + more)
  {
  }

  lemma RoundKeeps(b: Budget, id: int, n: nat, a: Attempt)
    requires BudgetInv(b) && n >= 1 && (n > 1 ==> b.retries < MAX_RETRIES_PER_JOB)
    ensures var r := TryRound(b, id, n, a);
      && Grew(b, r.budget, 1, if n > 1 then 0 else 1, if n > 1 then 1 else 0)
      && (r.again ==> r.budget.retries < MAX_RETRIES_PER_JOB)
  {
    OnceKeeps(Switch(b, a.switchBefore), id, n > 1, a);
  }

  lemma RelayFromUnfolds(b: Budget, id: int, n: nat, attempts: seq<Attempt>)
    requires |attempts| == MAX_ATTEMPTS_PER_REQUEST && 1 <= n <= MAX_ATTEMPTS_PER_REQUEST
    ensures var round, whole := TryRound(b, id, n, attempts[n - 1]), RelayFrom(b, id, n, attempts);
      if round.again then
        && n < MAX_ATTEMPTS_PER_REQUEST
        && var rest := RelayFrom(round.budget, id, n + 1, attempts);
           whole == rest.(frames := round.frames + rest.frames)
      else whole == Relayed(round.budget, round.frames, round.error, n)
  {
  }

  lemma {:induction false} RelayFromKeeps(b: Budget, id: int, n: nat, attempts: seq<Attempt>)
    requires |attempts| == MAX_ATTEMPTS_PER_REQUEST && 1 <= n <= MAX_ATTEMPTS_PER_REQUEST
    requires BudgetInv(b) && (n > 1 ==> b.retries < MAX_RETRIES_PER_JOB)
    ensures var left := MAX_ATTEMPTS_PER_REQUEST + 1 - n;
      Grew(b, RelayFrom(b, id, n, attempts).budget, left, if n > 1 then 0 else 1, if n > 1 then left else left - 1)
    decreases MAX_ATTEMPTS_PER_REQUEST - n
  {
    var round := TryRound(b, id, n, attempts[n - 1]);
    RoundKeeps(b, id, n, attempts[n - 1]);
    RelayFromUnfolds(b, id, n, attempts);
    if round.again {
      var left := MAX_ATTEMPTS_PER_REQUEST - n;
      RelayFromKeeps(round.budget, id, n + 1, attempts);
      GrewFurther(b, round.budget, RelayFrom(round.budget, id, n + 1, attempts).budget,
                  left, if n > 1 then 0 else 1, if n > 1 then 1 else 0, left);
    }
  }

  datatype Op = RelayOp(id: int, cancelled: bool, attempts: seq<Attempt>) | SetPhaseOp(phase: BudgetPhase)

  const FRESH := Budget(Authoring, 0, 0, 0, 0, 0)

  function After(b: Budget, op: Op): Budget
    requires op.RelayOp? ==> |op.attempts| == MAX_ATTEMPTS_PER_REQUEST
  {
    match op
    case RelayOp(id, cancelled, attempts) => Relay(b, id, cancelled, attempts).budget
    case SetPhaseOp(phase) => if SetPhase(b, phase).Ok? then SetPhase(b, phase).value else b
  }

  function AfterAll(ops: seq<Op>): Budget
    requires forall op <- ops :: op.RelayOp? ==> |op.attempts| == MAX_ATTEMPTS_PER_REQUEST
  {
    if ops == [] then FRESH else After(AfterAll(ops[..|ops| - 1]), ops[|ops| - 1])
  }

  /**
   Over every run: requests = authoring + repair = logical + retries, each within its
   limit, the total within 48.
   */
  lemma {:induction false} Conservation(ops: seq<Op>)
    requires forall op <- ops :: op.RelayOp? ==> |op.attempts| == MAX_ATTEMPTS_PER_REQUEST
    ensures BudgetInv(AfterAll(ops)) && AfterAll(ops).requests <= MAX_REQUESTS
  {
    if ops != [] {
      var op, b := ops[|ops| - 1], AfterAll(ops[..|ops| - 1]);
      Conservation(ops[..|ops| - 1]);
      if op.RelayOp? && !op.cancelled && Available(b) {
        RelayFromKeeps(b, op.id, 1, op.attempts);
      }
    }
  }

  /** The phase never goes back, and counters never do. */
  lemma {:induction false} PhaseIsOneWay(ops: seq<Op>, n: nat)
    requires forall op <- ops :: op.RelayOp? ==> |op.attempts| == MAX_ATTEMPTS_PER_REQUEST
    requires n <= |ops|
    ensures var early, late := AfterAll(ops[..n]), AfterAll(ops);
      && (early.phase.Repair? ==> late.phase.Repair?)
      && early.requests <= late.requests
    decreases |ops|
  {
    if n == |ops| {
      assert ops[..n] == ops;
    } else {
      var prefix := ops[..|ops| - 1];
      var op, b := ops[|ops| - 1], AfterAll(prefix);
      PhaseIsOneWay(prefix, n);
      assert prefix[..n] == ops[..n];
      Conservation(prefix);
      if op.RelayOp? && !op.cancelled && Available(b) {
        RelayFromKeeps(b, op.id, 1, op.attempts);
      }
    }
  }

  /** One call posts at most three times, for at most one logical request. */
  lemma PostsPerCall(ops: seq<Op>, id: int, cancelled: bool, attempts: seq<Attempt>)
    requires forall op <- ops :: op.RelayOp? ==> |op.attempts| == MAX_ATTEMPTS_PER_REQUEST
    requires |attempts| == MAX_ATTEMPTS_PER_REQUEST
    ensures var b := AfterAll(ops); var r := Relay(b, id, cancelled, attempts);
      && b.requests <= r.budget.requests <= b.requests + MAX_ATTEMPTS_PER_REQUEST
      && r.budget.logical <= b.logical + 1
      && r.budget.retries <= b.retries + MAX_ATTEMPTS_PER_REQUEST - 1
  {
    var b := AfterAll(ops);
    Conservation(ops);
    if !cancelled && Available(b) {
      RelayFromKeeps(b, id, 1, attempts);
    }
  }

  // ---------------------------------------------------------------- no replay

  lemma {:induction false} FittingIsPrefix(body: seq<Bytes>, size: nat)
    ensures Fitting(body, size) <= body
  {
    if body != [] && size + |body[0]| <= MAX_RESPONSE {
      FittingIsPrefix(body[1..], size + |body[0]|);
    }
  }

  lemma FittingStep(body: seq<Bytes>, i: nat, size: nat)
    requires i < |body|
    ensures body[..i] + Fitting(body[i..], size) ==
            if size + |body[i]| > MAX_RESPONSE then body[..i]
            else body[..i + 1] + Fitting(body[i + 1..], size + |body[i]|)
  {
    assert body[i..][0] == body[i] && body[i..][1..] == body[i + 1..];
  }

  /** What one attempt emits is a prefix of its full answer, complete exactly when it succeeds. */
  lemma OncePrefix(id: int, w: Wire)
    ensures w.Answered? ==> OnceFrames(id, w) <= FullFrames(id, w.status, w.body)
    ensures !w.Answered? ==> OnceFrames(id, w) == []
    ensures OnceOutcome(w).Complete? <==> CleanAnswer(w)
    ensures w.Answered? ==> (CleanAnswer(w) <==> OnceFrames(id, w) == FullFrames(id, w.status, w.body))
  {
    if w.Answered? {
      FittingIsPrefix(w.body, 0);
      var fit := Fitting(w.body, 0);
      assert ChunkFrames(id, fit) <= ChunkFrames(id, w.body);
      assert |OnceFrames(id, w)| == 1 + |fit| + (if CleanAnswer(w) then 1 else 0);
    }
  }

  /** The frames are one complete answer of the attempt. */
  ghost predicate WholeAnswer(id: int, w: Wire, frames: seq<Frame>) {
    w.Answered? && frames == FullFrames(id, w.status, w.body)
  }

  ghost predicate PartialAnswer(id: int, w: Wire, frames: seq<Frame>) {
    frames == [] || (w.Answered? && frames <= FullFrames(id, w.status, w.body))
  }

  lemma RoundShape(b: Budget, id: int, n: nat, a: Attempt)
    ensures var r := TryRound(b, id, n, a);
      && PartialAnswer(id, a.wire, r.frames)
      && (r.again ==> a.wire.Rejected? && r.frames == [])
      && (!r.again ==> (r.error.None? <==> WholeAnswer(id, a.wire, r.frames)))
  {
    OncePrefix(id, a.wire);
  }

  /**
   All frames of one call come from its last attempt and are a prefix of that attempt's full
   answer; every earlier attempt was rejected and emitted nothing; and the call returns
   normally exactly when one complete answer was emitted.
   */
  lemma {:induction false} NoReplay(b: Budget, id: int, n: nat, attempts: seq<Attempt>)
    requires |attempts| == MAX_ATTEMPTS_PER_REQUEST && 1 <= n <= MAX_ATTEMPTS_PER_REQUEST
    ensures var r := RelayFrom(b, id, n, attempts);
      && n <= r.last <= MAX_ATTEMPTS_PER_REQUEST
      && (forall k | n - 1 <= k < r.last - 1 :: attempts[k].wire.Rejected?)
      && PartialAnswer(id, attempts[r.last - 1].wire, r.frames)
      && (r.error.None? <==> WholeAnswer(id, attempts[r.last - 1].wire, r.frames))
    decreases MAX_ATTEMPTS_PER_REQUEST - n
  {
    RoundShape(b, id, n, attempts[n - 1]);
    var round := TryRound(b, id, n, attempts[n - 1]);
    if round.again {
      NoReplay(round.budget, id, n + 1, attempts);
      assert round.frames + RelayFrom(round.budget, id, n + 1, attempts).frames
          == RelayFrom(round.budget, id, n + 1, attempts).frames;
    }
  }

  function Flatten(body: seq<Bytes>): Bytes {
    if body == [] then [] else body[0] + Flatten(body[1..])
  }

  /** What the author receives: the payloads of the chunk frames. */
  function Payload(frames: seq<Frame>): Bytes {
    if frames == [] then []
    else (if frames[0].Chunk? then frames[0].body else []) + Payload(frames[1..])
  }

  lemma {:induction false} ChunksCarryBody(id: int, body: seq<Bytes>, tail: seq<Frame>)
    requires Payload(tail) == []
    ensures Payload(ChunkFrames(id, body) + tail) == Flatten(body)
  {
    if body == [] {
      assert ChunkFrames(id, body) + tail == tail;
    } else {
      ChunksCarryBody(id, body[1..], tail);
      assert (ChunkFrames(id, body) + tail)[1..] == ChunkFrames(id, body[1..]) + tail;
    }
  }

  /** A call that returns normally has forwarded the upstream body, byte for byte. */
  lemma BodyForwarded(b: Budget, id: int, cancelled: bool, attempts: seq<Attempt>)
    requires |attempts| == MAX_ATTEMPTS_PER_REQUEST
    requires Relay(b, id, cancelled, attempts).error.None?
    ensures var r := Relay(b, id, cancelled, attempts);
      && 1 <= r.last <= MAX_ATTEMPTS_PER_REQUEST && attempts[r.last - 1].wire.Answered?
      && Payload(r.frames) == Flatten(attempts[r.last - 1].wire.body)
  {
    NoReplay(b, id, 1, attempts);
    var r := Relay(b, id, cancelled, attempts);
    var w := attempts[r.last - 1].wire;
    assert Payload([End(id)]) == [];
    ChunksCarryBody(id, w.body, [End(id)]);
    assert FullFrames(id, w.status, w.body) == [Head(id, w.status)] + (ChunkFrames(id, w.body) + [End(id)]);
    assert FullFrames(id, w.status, w.body)[1..] == ChunkFrames(id, w.body) + [End(id)];
  }

  // ---------------------------------------------------------------- the mutable gateway

  class OpenAIGateway {
    var budgetPhase: BudgetPhase
    var requests: nat
    var authoring: nat
    var repair: nat
    var logicalRequests: nat
    var modelRetries: nat
    /** Every frame handed to the author so far. */
    var emitted: seq<Frame>

    function View(): Budget
      reads this
    {
      Budget(budgetPhase, requests, authoring, repair, logicalRequests, modelRetries)
    }

    constructor ()
      ensures View() == FRESH && emitted == []
    {
      budgetPhase := Authoring;
      requests, authoring, repair, logicalRequests, modelRetries := 0, 0, 0, 0, 0;
      emitted := [];
    }

    method ChangePhase(phase: BudgetPhase) returns (r: Result<(), ErrorCode>)
      modifies this
      ensures SetPhase(old(View()), phase) == if r.Ok? then Ok(View()) else Err(r.error)
      ensures r.Err? ==> View() == old(View())
      ensures emitted == old(emitted)
    {
      if budgetPhase.Repair? && phase.Authoring? {
        return Err(PhaseInvalid);
      }
      budgetPhase := phase;
      return Ok(());
    }

    method CountPost(retry: bool)
      modifies this
      ensures View() == Count(old(View()), retry) && emitted == old(emitted)
    {
      requests := requests + 1;
      if budgetPhase.Authoring? {
        authoring := authoring + 1;
      } else {
        repair := repair + 1;
      }
      if retry {
        modelRetries := modelRetries + 1;
      } else {
        logicalRequests := logicalRequests + 1;
      }
    }

    /** The body loop: chunks are forwarded while they fit. */
    method ForwardBody(id: int, body: seq<Bytes>) returns (fits: bool)
      modifies this
      ensures View() == old(View())
      ensures emitted == old(emitted) + ChunkFrames(id, Fitting(body, 0))
      ensures fits <==> Fitting(body, 0) == body
    {
      var size: nat, i := 0, 0;
      assert body[..0] + Fitting(body[0..], 0) == Fitting(body, 0) by {
        assert body[0..] == body;
      }
      while i < |body|
        invariant 0 <= i <= |body|
        invariant View() == old(View())
        invariant emitted == old(emitted) + ChunkFrames(id, body[..i])
        invariant Fitting(body, 0) == body[..i] + Fitting(body[i..], size)
      {
        FittingStep(body, i, size);
        size := size + |body[i]|;
        if size > MAX_RESPONSE {
          return false;
        }
        assert ChunkFrames(id, body[..i + 1]) == ChunkFrames(id, body[..i]) + [Chunk(id, body[i])];
        emitted := emitted + [Chunk(id, body[i])];
        i := i + 1;
      }
      assert body[..|body|] == body && body[|body|..] == [];
      return true;
    }

    method TryOnce(id: int, retry: bool, a: Attempt) returns (outcome: Outcome)
      modifies this
      ensures var s := RelayOnce(old(View()), id, retry, a);
        View() == s.budget && outcome == s.outcome && emitted == old(emitted) + s.frames
    {
      if !Available(View()) {
        return Failure(BudgetExhausted);
      }
      if a.switchBetween {
        budgetPhase := Repair;
      }
      match a.wire {
        case Refused(code) =>
          return Failure(code);
        case Lost(code) =>
          CountPost(retry);
          return Failure(code);
        case Rejected(limited, delay) =>
          CountPost(retry);
          return Transient(limited, delay);
        case Answered(status, body, stop) =>
          CountPost(retry);
          emitted := emitted + [Head(id, status)];
          var fits := ForwardBody(id, body);
          if !fits {
            return Failure(ResponseLimit);
          }
          if stop.Some? {
            return Failure(stop.value);
          }
          emitted := emitted + [End(id)];
          return Complete;
      }
    }

    method RunRound(id: int, n: nat, a: Attempt) returns (error: Option<ErrorCode>, again: bool)
      modifies this
      ensures var r := TryRound(old(View()), id, n, a);
        View() == r.budget && error == r.error && again == r.again && emitted == old(emitted) + r.frames
    {
      if a.cancelled {
        return Some(Cancelled), false;
      }
      if a.switchBefore {
        budgetPhase := Repair;
      }
      var outcome := TryOnce(id, n > 1, a);
      match outcome {
        case Complete =>
          return None, false;
        case Failure(code) =>
          return Some(code), false;
        case Transient(limited, delay) =>
          if a.switchAfter {
            budgetPhase := Repair;
          }
          if n == MAX_ATTEMPTS_PER_REQUEST || modelRetries >= MAX_RETRIES_PER_JOB || !Available(View()) || delay.None? {
            return Some(RejectionCode(limited)), false;
          }
          if a.cancelledWaiting {
            return Some(Cancelled), false;
          }
          return None, true;
      }
    }

    /** One turn of the loop, seen from the rest of the call. */
    method Turn(id: int, n: nat, attempts: seq<Attempt>) returns (error: Option<ErrorCode>, again: bool)
      requires |attempts| == MAX_ATTEMPTS_PER_REQUEST && 1 <= n <= MAX_ATTEMPTS_PER_REQUEST
      modifies this
      ensures var whole := RelayFrom(old(View()), id, n, attempts);
        if again then
          && n < MAX_ATTEMPTS_PER_REQUEST
          && var rest := RelayFrom(View(), id, n + 1, attempts);
             whole.budget == rest.budget && whole.error == rest.error
             && old(emitted) + whole.frames == emitted + rest.frames
        else View() == whole.budget && error == whole.error && emitted == old(emitted) + whole.frames
    {
      ghost var b, before := View(), emitted;
      error, again := RunRound(id, n, attempts[n - 1]);
      RelayFromUnfolds(b, id, n, attempts);
      if again {
        Associate(before, TryRound(b, id, n, attempts[n - 1]).frames, RelayFrom(View(), id, n + 1, attempts).frames);
      }
    }

    method RelayCall(id: int, cancelled: bool, attempts: seq<Attempt>) returns (error: Option<ErrorCode>)
      requires |attempts| == MAX_ATTEMPTS_PER_REQUEST
      modifies this
      ensures var r := Relay(old(View()), id, cancelled, attempts);
        View() == r.budget && error == r.error && emitted == old(emitted) + r.frames
    {
      if cancelled {
        return Some(Cancelled);
      }
      if !Available(View()) {
        return Some(BudgetExhausted);
      }
      ghost var whole := Relay(View(), id, cancelled, attempts);
      var n, again := 1, true;
      error := None;
      while again
        invariant 1 <= n <= MAX_ATTEMPTS_PER_REQUEST
        invariant again ==> var rest := RelayFrom(View(), id, n, attempts);
                    && whole.budget == rest.budget && whole.error == rest.error
                    && old(emitted) + whole.frames == emitted + rest.frames
        invariant !again ==> View() == whole.budget && error == whole.error && emitted == old(emitted) + whole.frames
        decreases again, MAX_ATTEMPTS_PER_REQUEST - n
      {
        error, again := Turn(id, n, attempts);
        if again {
          n := n + 1;
        }
      }
    }
  }
}
