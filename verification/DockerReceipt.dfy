/**
 The launcher together with the Docker executor: the observation that `_run` leaves behind
 (artifacts/codeagent-launcher/docker_executor.py) against what `_apply_observation` and
 `_valid_success` accept (artifacts/codeagent-launcher/codeagent_launcher.py).
 */
module DockerReceipt {
  import opened ByteStrings
  import opened Outcomes
  import opened Launcher
  import opened LauncherOutcome

  /**
   How a run ended: `result` is the canonical result frame, `cleanup` that the container is
   confirmed gone and both helper threads have stopped, `persisted` that docker-receipt.json
   was written.
   */
  datatype RunEnd = RunEnd(succeeded: bool, cancelled: bool, cleanup: bool, result: Bytes, persisted: bool)

  /** A result frame over the profile's limit fails the run before it can succeed. */
  predicate Possible(profile: Profile, end: RunEnd) {
    end.succeeded ==> |end.result| <= profile.maxOutputBytes
  }

  function Confirmed(b: bool): Flag {
    if b then Yes else No
  }

  function BuildReceipt(h: Host, request: Request, profile: Profile, executionId: string, result: Bytes): Receipt {
    Receipt(
      schemaVersion := RECEIPT_SCHEMA_VERSION, jobId := request.jobId, attemptId := request.attemptId,
      idempotencyKey := request.idempotencyKey, requestDigest := h.digest(request),
      executionId := executionId, executorKind := Some(Docker),
      profileId := profile.profileId, profileDigest := profile.profileDigest,
      providerId := request.providerId, model := request.model, imageDigest := profile.imageDigest,
      resourcePolicyId := profile.resourcePolicyId, resourcePolicyDigest := profile.resourcePolicyDigest,
      networkPolicyId := profile.networkPolicyId, networkPolicyDigest := profile.networkPolicyDigest,
      taskDigest := request.taskDigest, inputDigest := request.inputDigest,
      promptDigest := request.promptDigest, outputDigest := h.sha256(result),
      outputMediaType := profile.outputMediaType, outputSize := Some(|result|),
      cleanupConfirmed := Yes, wholeJobQuiescent := Yes)
  }

  /** `job["observation"]` before the worker thread finishes. */
  function RunningObservation(executionId: string): Observation {
    Observation(executionId, Some(BackendRunning), No, No, None)
  }

  /** `job["observation"]` after it. */
  function FinalObservation(h: Host, request: Request, profile: Profile,
    executionId: string, end: RunEnd): Observation {
    var state :=
      if end.succeeded && end.cleanup && !end.persisted then BackendFailed
      else if end.succeeded then BackendSucceeded
      else if end.cancelled then BackendCancelled
      else BackendFailed;
    var success :=
      if end.succeeded && end.cleanup && end.persisted then
        Some(Success(Some(end.result), profile.outputMediaType,
                     Some(BuildReceipt(h, request, profile, executionId, end.result))))
      else None;
    Observation(executionId, Some(state), Confirmed(end.cleanup), Confirmed(end.cleanup), success)
  }

  /** A job of this request that was sent to the Docker executor. */
  ghost predicate OfDocker(h: Host, request: Request, profile: Profile, j: Job) {
    && JobInv(h, j)
    && j.request == request && j.profile == profile && j.requestDigest == h.digest(request)
    && j.executionId == Some(ExecutionId(h.digest(request)))
    && profile.executorKind.Docker?
  }

  /** What the Docker executor can answer about a run that ends, or will end, as `end` says. */
  ghost predicate FromDocker(h: Host, request: Request, profile: Profile, end: RunEnd, reply: Reply<Observation>) {
    var id := ExecutionId(h.digest(request));
    reply == Raised || reply == Returned(RunningObservation(id))
    || reply == Returned(FinalObservation(h, request, profile, id, end))
  }

  /** The receipt the executor builds is exactly the one the launcher demands. */
  lemma ReceiptAccepted(h: Host, request: Request, profile: Profile, j: Job, end: RunEnd)
    requires OfDocker(h, request, profile, j) && Possible(profile, end)
    ensures var obs := FinalObservation(h, request, profile, j.executionId.value, end);
      && (obs.success.Some? <==> end.succeeded && end.cleanup && end.persisted)
      && (obs.success.Some? ==> obs.state == Some(BackendSucceeded) && ValidSuccess(h, j, obs.success.value))
  {
  }

  /** A run that ended as a clean, persisted success. */
  predicate CleanSuccess(profile: Profile, end: RunEnd) {
    Possible(profile, end) && end.succeeded && end.cleanup && end.persisted
  }

  /** Its observation drives a live job to Succeeded exactly when the log has room. */
  lemma SuccessApplied(h: Host, request: Request, profile: Profile, j: Job, end: RunEnd)
    requires OfDocker(h, request, profile, j) && !Terminal(j.state)
    requires CleanSuccess(profile, end) && ValidExecutionId(j.executionId.value)
    ensures var obs := FinalObservation(h, request, profile, j.executionId.value, end);
      var after := ApplyObservation(h, j, obs);
      if HasRoom(j.events) then after.state.Succeeded? && after.success == obs.success
      else !Terminal(after.state) && after.success.None?
  {
    var obs := FinalObservation(h, request, profile, j.executionId.value, end);
    var q := AppendEvent(j, QuiescingPhase, CleanupIsPending);
    AppendKeeps(h, j, j, QuiescingPhase, CleanupIsPending);
    ReceiptAccepted(h, request, profile, q, end);
    EndKeeps(h, q, Outcome(h, q, obs));
  }

  /**
   A status or result call that sees a clean, persisted success ends a live job as Succeeded
   exactly when the log has room; two free slots always suffice.
   */
  lemma SuccessReached(h: Host, request: Request, profile: Profile, j: Job, end: RunEnd, op: Op)
    requires OfDocker(h, request, profile, j) && !Terminal(j.state)
    requires CleanSuccess(profile, end) && ValidExecutionId(j.executionId.value)
    requires !op.CancelOp?
    requires op.reply == Returned(FinalObservation(h, request, profile, j.executionId.value, end))
    ensures var after := Apply(h, j, op);
      if HasRoom(j.events) then after.state.Succeeded? && after.success == op.reply.value.success
      else !Terminal(after.state) && after.success.None?
    ensures |j.events| <= MAX_EVENTS_PER_JOB - 2 ==> HasRoom(j.events)
  {
    SuccessApplied(h, request, profile, j, end);
    ApplyObservationKeeps(h, j, op.reply.value);
  }

  /** The record as a cancel call leaves it before it asks the executor. */
  function Cancelling(j: Job): Job {
    AppendEvent(j.(state := CancelRequested), QuiescingPhase, CancelIsRequested)
  }

  lemma CancellingRoom(h: Host, request: Request, profile: Profile, j: Job)
    requires OfDocker(h, request, profile, j) && !Terminal(j.state)
    ensures OfDocker(h, request, profile, Cancelling(j)) && !Terminal(Cancelling(j).state)
    ensures HasRoom(Cancelling(j).events) <==> HasRoomToCancel(j.events)
  {
    AppendKeeps(h, j, j.(state := CancelRequested), QuiescingPhase, CancelIsRequested);
  }

  /** A cancel call that sees the same needs room for its own event too; three free slots always suffice. */
  lemma SuccessReachedByCancel(h: Host, request: Request, profile: Profile, j: Job, end: RunEnd)
    requires OfDocker(h, request, profile, j) && !Terminal(j.state)
    requires CleanSuccess(profile, end) && ValidExecutionId(j.executionId.value)
    ensures var obs := FinalObservation(h, request, profile, j.executionId.value, end);
      var after := Cancel(h, j, Returned(obs));
      if HasRoomToCancel(j.events) then after.state.Succeeded? && after.success == obs.success
      else !Terminal(after.state) && after.success.None?
    ensures |j.events| <= MAX_EVENTS_PER_JOB - 3 ==> HasRoomToCancel(j.events)
  {
    CancellingRoom(h, request, profile, j);
    SuccessApplied(h, request, profile, Cancelling(j), end);
  }

  /** How a job of a run that ended so ends. */
  function EndState(end: RunEnd): State {
    if end.succeeded && end.persisted then Succeeded
    else if !end.succeeded && end.cancelled then Cancelled
    else Failed
  }

  /**
   A status or result call after a cleaned up run ends the job as the run ended, when the log
   has room: a success that was not persisted, or a run that failed, as Failed.
   */
  lemma RunEndsJob(h: Host, request: Request, profile: Profile, j: Job, end: RunEnd, op: Op)
    requires OfDocker(h, request, profile, j) && !Terminal(j.state) && Possible(profile, end) && end.cleanup
    requires ValidExecutionId(j.executionId.value) && HasRoom(j.events) && !op.CancelOp?
    requires op.reply == Returned(FinalObservation(h, request, profile, j.executionId.value, end))
    ensures Apply(h, j, op).state == EndState(end)
    ensures Apply(h, j, op).failure == if EndState(end).Failed? then Some(BackendHasFailed) else None
  {
    ReceiptAccepted(h, request, profile, j, end);
    CallEnds(h, j, op);
    CallExtends(h, j, op);
  }

  /** One answer of the Docker executor never holds a job, and never ends it without cleanup. */
  lemma AnswerIsSound(h: Host, request: Request, profile: Profile, j: Job, end: RunEnd, obs: Observation)
    requires OfDocker(h, request, profile, j) && !Terminal(j.state) && Possible(profile, end)
    requires FromDocker(h, request, profile, end, Returned(obs))
    ensures !ApplyObservation(h, j, obs).state.Held?
    ensures !end.cleanup ==> !Terminal(ApplyObservation(h, j, obs).state)
  {
    ApplyObservationKeeps(h, j, obs);
    if Conclusive(j, obs) && ValidExecutionId(obs.executionId) {
      var q := AppendEvent(j, QuiescingPhase, CleanupIsPending);
      AppendKeeps(h, j, j, QuiescingPhase, CleanupIsPending);
      ReceiptAccepted(h, request, profile, q, end);
      EndKeeps(h, q, Outcome(h, q, obs));
    }
  }

  lemma CallIsSound(h: Host, request: Request, profile: Profile, j: Job, end: RunEnd, op: Op)
    requires OfDocker(h, request, profile, j) && !Terminal(j.state) && Possible(profile, end)
    requires FromDocker(h, request, profile, end, op.reply)
    ensures OfDocker(h, request, profile, Apply(h, j, op))
    ensures !Apply(h, j, op).state.Held?
    ensures !end.cleanup ==> !Terminal(Apply(h, j, op).state)
  {
    ApplyKeeps(h, j, op);
    CallExtends(h, j, op);
    if op.CancelOp? {
      AppendKeeps(h, j, j.(state := CancelRequested), QuiescingPhase, CancelIsRequested);
      var c := AppendEvent(j.(state := CancelRequested), QuiescingPhase, CancelIsRequested);
      if op.reply.Returned? {
        AnswerIsSound(h, request, profile, c, end, op.reply.value);
      }
    } else if op.reply.Returned? {
      AnswerIsSound(h, request, profile, j, end, op.reply.value);
      ApplyObservationKeeps(h, j, op.reply.value);
    }
  }

  /**
   Over every sequence of calls against a Docker executor, a job is never Held, and a run
   whose cleanup was not confirmed never ends its job.
   */
  lemma {:induction false} NeverHeld(
    h: Host, request: Request, profile: Profile, launch: Reply<string>, end: RunEnd, ops: seq<Op>)
    requires profile.executorKind.Docker? && Possible(profile, end) && !launch.Unavailable?
    requires forall op <- ops :: FromDocker(h, request, profile, end, op.reply)
    ensures var j := ApplyAll(h, NewJob(h, request, profile, launch), ops);
      && OfDocker(h, request, profile, j)
      && !j.state.Held?
      && (!end.cleanup ==> !Terminal(j.state))
  {
    if ops == [] {
      NewJobInv(h, request, profile, launch);
      StartingLive(h, request, profile);
    } else {
      var before := ops[..|ops| - 1];
      NeverHeld(h, request, profile, launch, end, before);
      var j := ApplyAll(h, NewJob(h, request, profile, launch), before);
      if Terminal(j.state) {
        ApplyKeeps(h, j, ops[|ops| - 1]);
      } else {
        CallIsSound(h, request, profile, j, end, ops[|ops| - 1]);
      }
    }
  }
}
