/**
 The launcher's jobs as values (artifacts/codeagent-launcher/codeagent_launcher.py).

 A `Job` is what a `_JobRecord` holds, and each function below is one private method of
 `LauncherService` as a function of that value; LauncherService.dfy proves that the
 mutating methods compute exactly these. Executors are arbitrary: whatever they return or
 raise arrives as an argument.
 */
module Launcher {
  import opened ByteStrings
  import opened Outcomes

  const MAX_EVENTS_PER_JOB: nat := 32
  const MAX_EVENT_PAGE_SIZE: nat := 100
  const MAX_BACKEND_EXECUTION_ID_LENGTH: nat := 256
  const RECEIPT_SCHEMA_VERSION: string := "codeagent-launcher-receipt.experimental-v0"

  datatype ExecutorKind = Docker | Kubernetes
  datatype BackendState = BackendRunning | BackendSucceeded | BackendFailed | BackendCancelled
  datatype State =
    | Queued | Starting | Running | CancelRequested | CleanupPending
    | Succeeded | Failed | Cancelled | Held
  datatype Phase = QueuedPhase | StartingPhase | RunningPhase | QuiescingPhase | TerminalPhase
  datatype Code =
    | JobQueued | ExecutorStarting | BackendIsRunning | CancelIsRequested | CleanupIsPending
    | JobSucceeded | JobFailed | JobCancelled | JobHeld
  datatype Failure =
    | EventBudgetExhausted | BackendExecutionIdMismatch | LaunchOutcomeUnknown | ExecutorIsUnavailable
    | MissingBackendExecutionId | InvalidBackendObservation | InvalidStateRegression
    | CleanupNotConfirmed | InvalidTerminalReceipt | BackendHasFailed

  datatype Event = Event(sequence: nat, phase: Phase, code: Code)

  datatype Request = Request(
    jobId: string, attemptId: string, idempotencyKey: string, profileId: string,
    providerId: string, model: string, taskDigest: string, inputDigest: string,
    promptDigest: string, resourcePolicyId: string, networkPolicyId: string)

  datatype Profile = Profile(
    profileId: string, profileDigest: string, providerId: string, allowedModels: set<string>,
    executorKind: ExecutorKind, imageDigest: string, resourcePolicyId: string,
    resourcePolicyDigest: string, networkPolicyId: string, networkPolicyDigest: string,
    maxOutputBytes: nat, outputMediaType: string)

  /** A Python value where a bool is expected. */
  datatype Flag = Yes | No | NotABool

  /** `executorKind` and `outputSize` are None when the value has another Python type. */
  datatype Receipt = Receipt(
    schemaVersion: string, jobId: string, attemptId: string, idempotencyKey: string,
    requestDigest: string, executionId: string, executorKind: Option<ExecutorKind>,
    profileId: string, profileDigest: string, providerId: string, model: string,
    imageDigest: string, resourcePolicyId: string, resourcePolicyDigest: string,
    networkPolicyId: string, networkPolicyDigest: string, taskDigest: string,
    inputDigest: string, promptDigest: string, outputDigest: string, outputMediaType: string,
    outputSize: Option<int>, cleanupConfirmed: Flag, wholeJobQuiescent: Flag)

  /** `output` and `receipt` are None when they are not bytes and not a SuccessReceipt. */
  datatype Success = Success(output: Option<Bytes>, outputMediaType: string, receipt: Option<Receipt>)

  /** `state` is None when it is not a BackendState. */
  datatype Observation = Observation(
    executionId: string, state: Option<BackendState>, cleanupConfirmed: Flag,
    wholeJobQuiescent: Flag, success: Option<Success>)

  /** What an executor call gives back. */
  datatype Reply<+T> = Returned(value: T) | Raised | Unavailable

  datatype Job = Job(
    request: Request, requestDigest: string, profile: Profile, state: State,
    executionId: Option<string>, failure: Option<Failure>, success: Option<Success>,
    events: seq<Event>, nextSequence: nat, pendingTerminal: Option<BackendState>)

  /** Parsing rules and SHA-256, which the model does not look into. */
  datatype Host = Host(wellFormed: Request -> bool, digest: Request -> string, sha256: Bytes -> string)

  predicate Terminal(s: State) {
    s.Succeeded? || s.Failed? || s.Cancelled? || s.Held?
  }

  predicate ValidExecutionId(id: string) {
    0 < |id| <= MAX_BACKEND_EXECUTION_ID_LENGTH && forall c <- id :: '!' <= c <= '~'
  }

  // ---------------------------------------------------------------- private methods as functions

  function AppendEvent(j: Job, phase: Phase, code: Code): Job {
    if |j.events| >= MAX_EVENTS_PER_JOB then
      j.(state := CleanupPending, failure := Some(EventBudgetExhausted), success := None)
    else if j.events != [] && j.events[|j.events| - 1].phase == phase && j.events[|j.events| - 1].code == code then
      j
    else
      j.(events := j.events + [Event(j.nextSequence, phase, code)], nextSequence := j.nextSequence + 1)
  }

  /** The code of the event that ends a job in this state. */
  function CodeOf(s: State): Code
    requires Terminal(s)
  {
    match s
    case Succeeded => JobSucceeded
    case Failed => JobFailed
    case Cancelled => JobCancelled
    case Held => JobHeld
  }

  function Holding(j: Job, failure: Failure): Job {
    j.(state := Held, failure := Some(failure), success := None)
  }

  function Hold(j: Job, failure: Failure): Job {
    AppendEvent(Holding(j, failure), TerminalPhase, JobHeld)
  }

  function QuiescencePending(j: Job, failure: Failure, pending: Option<BackendState>): Job {
    AppendEvent(
      j.(state := CleanupPending, failure := Some(failure), success := None, pendingTerminal := pending),
      QuiescingPhase, CleanupIsPending)
  }

  /** The one receipt that binds this output to this job. */
  function ExpectedReceipt(h: Host, j: Job, output: Bytes, mediaType: string): Receipt
    requires j.executionId.Some?
  {
    Receipt(RECEIPT_SCHEMA_VERSION, j.request.jobId, j.request.attemptId, j.request.idempotencyKey,
            j.requestDigest, j.executionId.value, Some(j.profile.executorKind),
            j.profile.profileId, j.profile.profileDigest, j.request.providerId, j.request.model,
            j.profile.imageDigest, j.profile.resourcePolicyId, j.profile.resourcePolicyDigest,
            j.profile.networkPolicyId, j.profile.networkPolicyDigest, j.request.taskDigest,
            j.request.inputDigest, j.request.promptDigest, h.sha256(output), mediaType,
            Some(|output|), Yes, Yes)
  }

  predicate ValidSuccess(h: Host, j: Job, s: Success) {
    && s.output.Some?
    && |s.output.value| <= j.profile.maxOutputBytes
    && s.outputMediaType == j.profile.outputMediaType
    && s.receipt.Some?
    && j.executionId.Some?
    && s.receipt.value == ExpectedReceipt(h, j, s.output.value, s.outputMediaType)
  }

  /** How the job ends on an observation whose cleanup and quiescence were confirmed. */
  function Outcome(h: Host, q: Job, obs: Observation): (ended: Job)
    requires obs.state.Some? && !obs.state.value.BackendRunning?
    ensures Terminal(ended.state) && ended.events == q.events
  {
    if obs.state.value.BackendSucceeded? then
      if obs.success.None? || !ValidSuccess(h, q, obs.success.value) then Holding(q, InvalidTerminalReceipt)
      else q.(success := obs.success, failure := None, pendingTerminal := None, state := Succeeded)
    else if obs.success.Some? then Holding(q, InvalidBackendObservation)
    else if obs.state.value.BackendFailed? then
      q.(success := None, pendingTerminal := None, failure := Some(BackendHasFailed), state := Failed)
    else q.(success := None, pendingTerminal := None, failure := None, state := Cancelled)
  }

  /** The terminal part of `_apply_observation`. */
  function Settle(h: Host, j: Job, obs: Observation): Job
    requires obs.state.Some? && !obs.state.value.BackendRunning?
  {
    var ended := Outcome(h, AppendEvent(j, QuiescingPhase, CleanupIsPending), obs);
    AppendEvent(ended, TerminalPhase, CodeOf(ended.state))
  }

  function ApplyObservation(h: Host, j: Job, obs: Observation): Job {
    if !ValidExecutionId(obs.executionId) then QuiescencePending(j, InvalidBackendObservation, None)
    else if Some(obs.executionId) != j.executionId then QuiescencePending(j, BackendExecutionIdMismatch, None)
    else if obs.state.None? then QuiescencePending(j, InvalidBackendObservation, None)
    else if obs.state.value.BackendRunning? then
      if obs.success.Some? then QuiescencePending(j, InvalidBackendObservation, None)
      else if j.pendingTerminal.Some? then QuiescencePending(j, InvalidStateRegression, j.pendingTerminal)
      else if !j.state.CancelRequested? then
        AppendEvent(j.(state := Running, failure := None), RunningPhase, BackendIsRunning)
      else j
    else if obs.cleanupConfirmed.NotABool? || obs.wholeJobQuiescent.NotABool? then
      QuiescencePending(j, InvalidBackendObservation, None)
    else if !(obs.cleanupConfirmed.Yes? && obs.wholeJobQuiescent.Yes?) then
      QuiescencePending(j, CleanupNotConfirmed, obs.state)
    else Settle(h, j, obs)
  }

  // ---------------------------------------------------------------- the calls on one job

  /** The full request digest names the backend execution. */
  function ExecutionId(requestDigest: string): string {
    "vibapp-" + requestDigest
  }

  /** The record as it is when `executor.launch` is called. */
  function StartingJob(h: Host, request: Request, profile: Profile): Job {
    var digest := h.digest(request);
    var queued := AppendEvent(
      Job(request, digest, profile, Queued, Some(ExecutionId(digest)), None, None, [], 1, None),
      QueuedPhase, JobQueued);
    AppendEvent(queued.(state := Starting), StartingPhase, ExecutorStarting)
  }

  /** Creation, reservation and `executor.launch`, as one `submit` of a new job does them. */
  function NewJob(h: Host, request: Request, profile: Profile, launch: Reply<string>): Job {
    AfterLaunch(StartingJob(h, request, profile), launch)
  }

  function AfterLaunch(starting: Job, launch: Reply<string>): Job {
    match launch
    case Unavailable =>
      AppendEvent(starting.(state := Failed, failure := Some(ExecutorIsUnavailable)), TerminalPhase, JobFailed)
    case Raised => QuiescencePending(starting, LaunchOutcomeUnknown, None)
    case Returned(confirmed) =>
      if !ValidExecutionId(confirmed) then QuiescencePending(starting, LaunchOutcomeUnknown, None)
      else if Some(confirmed) != starting.executionId then QuiescencePending(starting, BackendExecutionIdMismatch, None)
      else AppendEvent(starting.(state := Running), RunningPhase, BackendIsRunning)
  }

  /** A caller's operation on an existing job, with what the executor answers if it is asked. */
  datatype Op = StatusOp(reply: Reply<Observation>) | CancelOp(reply: Reply<Observation>)
    | ResultOp(reply: Reply<Observation>)

  function Status(h: Host, j: Job, reply: Reply<Observation>): Job {
    if Terminal(j.state) then j
    else if j.executionId.None? then QuiescencePending(j, MissingBackendExecutionId, None)
    else if reply.Returned? then ApplyObservation(h, j, reply.value)
    else j
  }

  function Cancel(h: Host, j: Job, reply: Reply<Observation>): Job {
    if Terminal(j.state) then j
    else
      var c := AppendEvent(j.(state := CancelRequested), QuiescingPhase, CancelIsRequested);
      if c.executionId.None? then QuiescencePending(c, MissingBackendExecutionId, None)
      else if reply.Returned? then ApplyObservation(h, c, reply.value)
      else c
  }

  /** The first half of `result`: it asks for status unless the job has ended. */
  function Refresh(h: Host, j: Job, reply: Reply<Observation>): Job {
    if Terminal(j.state) || j.executionId.None? || !reply.Returned? then j
    else ApplyObservation(h, j, reply.value)
  }

  /** All of `result`, with its second check of the receipt at the release point. */
  function ResultJob(h: Host, j: Job, reply: Reply<Observation>): Job {
    var r := Refresh(h, j, reply);
    if Terminal(j.state) || (j.executionId.Some? && reply.Returned?) then
      if r.state.Succeeded? && r.success.Some? && !ValidSuccess(h, r, r.success.value)
      then Hold(r, InvalidTerminalReceipt) else r
    else r
  }

  function Apply(h: Host, j: Job, op: Op): Job {
    match op
    case StatusOp(reply) => Status(h, j, reply)
    case CancelOp(reply) => Cancel(h, j, reply)
    case ResultOp(reply) => ResultJob(h, j, reply)
  }

  // ---------------------------------------------------------------- invariant

  /** Numbered 1..n, at most 32, no event twice in a row. */
  ghost predicate LogInv(events: seq<Event>) {
    && |events| <= MAX_EVENTS_PER_JOB
    && (forall i | 0 <= i < |events| :: events[i].sequence == i + 1)
    && (forall i | 0 <= i < |events| - 1 ::
          events[i].phase != events[i + 1].phase || events[i].code != events[i + 1].code)
  }

  /** A terminal event is there exactly when the job has ended, says how, and is the last one. */
  ghost predicate TerminalInv(j: Job) {
    && (forall i | 0 <= i < |j.events| - 1 :: !j.events[i].phase.TerminalPhase?)
    && (Terminal(j.state) <==> j.events != [] && j.events[|j.events| - 1].phase.TerminalPhase?)
    && (Terminal(j.state) ==> j.events[|j.events| - 1].code == CodeOf(j.state))
  }

  ghost predicate SuccessInv(h: Host, j: Job) {
    && (j.success.Some? <==> j.state.Succeeded?)
    && (j.success.Some? ==> ValidSuccess(h, j, j.success.value))
  }

  ghost predicate JobInv(h: Host, j: Job) {
    && LogInv(j.events) && j.nextSequence == |j.events| + 1
    && TerminalInv(j) && SuccessInv(h, j)
    && j.executionId.Some?
  }

  /** A live job: the invariant, and the job has not ended. */
  ghost predicate Live(h: Host, j: Job) {
    JobInv(h, j) && !Terminal(j.state)
  }

  // ---------------------------------------------------------------- preservation

  /** Appending a non-terminal event to a live job, whatever non-terminal state it was moved to. */
  lemma AppendKeeps(h: Host, j: Job, j': Job, phase: Phase, code: Code)
    requires Live(h, j) && !phase.TerminalPhase?
    requires j' == j.(state := j'.state, failure := j'.failure, pendingTerminal := j'.pendingTerminal)
    requires !Terminal(j'.state)
    ensures Live(h, AppendEvent(j', phase, code))
    ensures AppendEvent(j', phase, code).executionId == j.executionId
    ensures AppendEvent(j', phase, code).request == j.request && AppendEvent(j', phase, code).profile == j.profile
    ensures AppendEvent(j', phase, code).requestDigest == j.requestDigest
  {
  }

  /** Ending a live job: a full log vetoes it, otherwise the terminal event is added. */
  lemma EndKeeps(h: Host, j: Job, ended: Job)
    requires Live(h, j) && Terminal(ended.state)
    requires ended == j.(state := ended.state, failure := ended.failure, success := ended.success,
                         pendingTerminal := ended.pendingTerminal)
    requires SuccessInv(h, ended)
    ensures var r := AppendEvent(ended, TerminalPhase, CodeOf(ended.state));
      && JobInv(h, r)
      && (if |j.events| < MAX_EVENTS_PER_JOB then r.state == ended.state && r.success == ended.success
          else r.state.CleanupPending?)
  {
  }

  lemma SettleKeeps(h: Host, j: Job, obs: Observation)
    requires Live(h, j) && obs.state.Some? && !obs.state.value.BackendRunning?
    ensures JobInv(h, Settle(h, j, obs))
    ensures |j.events| == MAX_EVENTS_PER_JOB ==> !Terminal(Settle(h, j, obs).state)
  {
    AppendKeeps(h, j, j, QuiescingPhase, CleanupIsPending);
    var q := AppendEvent(j, QuiescingPhase, CleanupIsPending);
    EndKeeps(h, q, Outcome(h, q, obs));
  }

  lemma PendingKeeps(h: Host, j: Job, failure: Failure, pending: Option<BackendState>)
    requires Live(h, j)
    ensures Live(h, QuiescencePending(j, failure, pending))
    ensures QuiescencePending(j, failure, pending).state.CleanupPending?
  {
    AppendKeeps(h, j, j.(state := CleanupPending, failure := Some(failure), pendingTerminal := pending),
                QuiescingPhase, CleanupIsPending);
  }

  /** An observation that ends a job has the job's own id, confirmed cleanup and a quiescent job. */
  ghost predicate Conclusive(j: Job, obs: Observation) {
    && Some(obs.executionId) == j.executionId
    && obs.state.Some? && !obs.state.value.BackendRunning?
    && obs.cleanupConfirmed.Yes? && obs.wholeJobQuiescent.Yes?
  }

  lemma ApplyObservationKeeps(h: Host, j: Job, obs: Observation)
    requires Live(h, j)
    ensures JobInv(h, ApplyObservation(h, j, obs))
    ensures Terminal(ApplyObservation(h, j, obs).state) ==> Conclusive(j, obs) && |j.events| < MAX_EVENTS_PER_JOB
  {
    forall failure, pending ensures Live(h, QuiescencePending(j, failure, pending)) {
      PendingKeeps(h, j, failure, pending);
    }
    if Conclusive(j, obs) {
      SettleKeeps(h, j, obs);
    } else if obs.state == Some(BackendRunning) {
      AppendKeeps(h, j, j.(state := Running, failure := None), RunningPhase, BackendIsRunning);
    }
  }

  lemma StartingLive(h: Host, request: Request, profile: Profile)
    ensures Live(h, StartingJob(h, request, profile)) && |StartingJob(h, request, profile).events| == 2
    ensures var j := StartingJob(h, request, profile);
            j.request == request && j.requestDigest == h.digest(request)
            && j.executionId == Some(ExecutionId(h.digest(request)))
  {
    assert StartingJob(h, request, profile).events ==
           [Event(1, QueuedPhase, JobQueued), Event(2, StartingPhase, ExecutorStarting)];
  }

  lemma NewJobInv(h: Host, request: Request, profile: Profile, launch: Reply<string>)
    ensures JobInv(h, NewJob(h, request, profile, launch))
    ensures Terminal(NewJob(h, request, profile, launch).state) <==> launch.Unavailable?
    ensures SameIdentity(StartingJob(h, request, profile), NewJob(h, request, profile, launch))
  {
    StartingLive(h, request, profile);
    var j := StartingJob(h, request, profile);
    if launch.Unavailable? {
      EndKeeps(h, j, j.(state := Failed, failure := Some(ExecutorIsUnavailable)));
    } else {
      PendingKeeps(h, j, LaunchOutcomeUnknown, None);
      PendingKeeps(h, j, BackendExecutionIdMismatch, None);
      AppendKeeps(h, j, j.(state := Running), RunningPhase, BackendIsRunning);
    }
  }

  /** What no call on a job ever changes. */
  ghost predicate SameIdentity(j: Job, j': Job) {
    j'.request == j.request && j'.requestDigest == j.requestDigest && j'.profile == j.profile
    && j'.executionId == j.executionId
  }

  /** Every operation keeps the invariant, and leaves an ended job exactly as it is. */
  lemma ApplyKeeps(h: Host, j: Job, op: Op)
    requires JobInv(h, j)
    ensures JobInv(h, Apply(h, j, op))
    ensures Terminal(j.state) ==> Apply(h, j, op) == j
    ensures !Terminal(j.state) && Terminal(Apply(h, j, op).state) ==>
              op.reply.Returned? && Conclusive(j, op.reply.value) && |j.events| < MAX_EVENTS_PER_JOB
  {
    if !Terminal(j.state) {
      if op.CancelOp? {
        AppendKeeps(h, j, j.(state := CancelRequested), QuiescingPhase, CancelIsRequested);
        var c := AppendEvent(j.(state := CancelRequested), QuiescingPhase, CancelIsRequested);
        if op.reply.Returned? {
          ApplyObservationKeeps(h, c, op.reply.value);
        }
      } else if op.reply.Returned? {
        ApplyObservationKeeps(h, j, op.reply.value);
      }
    }
  }

  // ---------------------------------------------------------------- theorems over all call sequences

  function ApplyAll(h: Host, j: Job, ops: seq<Op>): Job {
    if ops == [] then j else Apply(h, ApplyAll(h, j, ops[..|ops| - 1]), ops[|ops| - 1])
  }

  /** The invariant holds after every sequence of calls on a submitted job. */
  lemma {:induction false} RunKeeps(h: Host, request: Request, profile: Profile, launch: Reply<string>, ops: seq<Op>)
    ensures JobInv(h, ApplyAll(h, NewJob(h, request, profile, launch), ops))
  {
    var j := NewJob(h, request, profile, launch);
    if ops == [] {
      NewJobInv(h, request, profile, launch);
    } else {
      RunKeeps(h, request, profile, launch, ops[..|ops| - 1]);
      ApplyKeeps(h, ApplyAll(h, j, ops[..|ops| - 1]), ops[|ops| - 1]);
    }
  }

  /** Once ended, a job record never changes again. */
  lemma {:induction false} EndedIsFinal(h: Host, j: Job, ops: seq<Op>)
    requires JobInv(h, j) && Terminal(j.state)
    ensures ApplyAll(h, j, ops) == j
  {
    if ops != [] {
      EndedIsFinal(h, j, ops[..|ops| - 1]);
      ApplyKeeps(h, j, ops[|ops| - 1]);
    }
  }

  /** Apart from a launch that proved no backend exists, a job ends only on a conclusive observation. */
  lemma {:induction false} EndedOnEvidence(h: Host, request: Request, profile: Profile,
    launch: Reply<string>, ops: seq<Op>)
    returns (k: nat)
    requires !launch.Unavailable? && Terminal(ApplyAll(h, NewJob(h, request, profile, launch), ops).state)
    ensures k < |ops| && ops[k].reply.Returned?
    ensures !Terminal(ApplyAll(h, NewJob(h, request, profile, launch), ops[..k]).state)
    ensures Conclusive(ApplyAll(h, NewJob(h, request, profile, launch), ops[..k]), ops[k].reply.value)
  {
    var j := NewJob(h, request, profile, launch);
    NewJobInv(h, request, profile, launch);
    var before := ops[..|ops| - 1];
    RunKeeps(h, request, profile, launch, before);
    if Terminal(ApplyAll(h, j, before).state) {
      k := EndedOnEvidence(h, request, profile, launch, before);
      assert before[..k] == ops[..k];
    } else {
      k := |ops| - 1;
      ApplyKeeps(h, ApplyAll(h, j, before), ops[k]);
    }
  }

  /** A live job whose log is full can never end. */
  lemma {:induction false} FullLogNeverEnds(h: Host, j: Job, ops: seq<Op>)
    requires Live(h, j) && |j.events| == MAX_EVENTS_PER_JOB
    ensures Live(h, ApplyAll(h, j, ops)) && ApplyAll(h, j, ops).events == j.events
  {
    if ops != [] {
      FullLogNeverEnds(h, j, ops[..|ops| - 1]);
      var before := ApplyAll(h, j, ops[..|ops| - 1]);
      ApplyKeeps(h, before, ops[|ops| - 1]);
      CallExtends(h, before, ops[|ops| - 1]);
    }
  }

  /** The second receipt check in `result` never fires: it changes nothing after the refresh. */
  lemma RecheckNeverFires(h: Host, request: Request, profile: Profile, launch: Reply<string>,
    ops: seq<Op>, reply: Reply<Observation>)
    ensures var j := ApplyAll(h, NewJob(h, request, profile, launch), ops);
      && ResultJob(h, j, reply) == Refresh(h, j, reply)
      && (Refresh(h, j, reply).state.Succeeded? ==> Refresh(h, j, reply).success.Some?)
  {
    RunKeeps(h, request, profile, launch, ops);
    var j := ApplyAll(h, NewJob(h, request, profile, launch), ops);
    if !Terminal(j.state) && reply.Returned? {
      ApplyObservationKeeps(h, j, reply.value);
    }
  }

  /** The identity stays and events are only added at the end. */
  ghost predicate Extends(j: Job, j': Job) {
    SameIdentity(j, j') && j.events <= j'.events
  }

  lemma AppendExtends(j: Job, phase: Phase, code: Code)
    ensures Extends(j, AppendEvent(j, phase, code))
  {
  }

  lemma PendingExtends(j: Job, failure: Failure, pending: Option<BackendState>)
    ensures Extends(j, QuiescencePending(j, failure, pending))
  {
    AppendExtends(j.(state := CleanupPending, failure := Some(failure), success := None, pendingTerminal := pending),
                  QuiescingPhase, CleanupIsPending);
  }

  lemma SettleExtends(h: Host, j: Job, obs: Observation)
    requires obs.state.Some? && !obs.state.value.BackendRunning?
    ensures Extends(j, Settle(h, j, obs))
  {
    var q := AppendEvent(j, QuiescingPhase, CleanupIsPending);
    AppendExtends(j, QuiescingPhase, CleanupIsPending);
    var ended := Outcome(h, q, obs);
    AppendExtends(ended, TerminalPhase, CodeOf(ended.state));
  }

  lemma ObservationExtends(h: Host, j: Job, obs: Observation)
    ensures Extends(j, ApplyObservation(h, j, obs))
  {
    if Conclusive(j, obs) && ValidExecutionId(obs.executionId) {
      SettleExtends(h, j, obs);
    } else if obs.state == Some(BackendRunning) && ApplyObservation(h, j, obs).state.Running? {
      AppendExtends(j.(state := Running, failure := None), RunningPhase, BackendIsRunning);
    } else {
      PendingExtends(j, InvalidBackendObservation, None);
      PendingExtends(j, BackendExecutionIdMismatch, None);
      PendingExtends(j, InvalidStateRegression, j.pendingTerminal);
      PendingExtends(j, CleanupNotConfirmed, obs.state);
    }
  }

  /** Every call keeps the job's identity and the events it already has. */
  lemma CallExtends(h: Host, j: Job, op: Op)
    ensures Extends(j, Apply(h, j, op))
  {
    var c := AppendEvent(j.(state := CancelRequested), QuiescingPhase, CancelIsRequested);
    AppendExtends(j.(state := CancelRequested), QuiescingPhase, CancelIsRequested);
    PendingExtends(j, MissingBackendExecutionId, None);
    PendingExtends(c, MissingBackendExecutionId, None);
    if op.reply.Returned? {
      ObservationExtends(h, c, op.reply.value);
      ObservationExtends(h, j, op.reply.value);
    }
    if op.ResultOp? {
      var r := Refresh(h, j, op.reply);
      AppendExtends(Holding(r, InvalidTerminalReceipt), TerminalPhase, JobHeld);
    }
  }
}
