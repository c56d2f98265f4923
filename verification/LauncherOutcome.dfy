/**
 What each observation makes of a job (artifacts/codeagent-launcher/codeagent_launcher.py):
 when a call ends it and as what, and what a call that does not end it leaves.
 */
module LauncherOutcome {
  import opened Launcher
  import opened Outcomes

  predicate LastIs(events: seq<Event>, phase: Phase, code: Code) {
    events != [] && events[|events| - 1].phase == phase && events[|events| - 1].code == code
  }

  /** Room for the quiescing event, unless it is the latest one already, and for the terminal one. */
  predicate HasRoom(events: seq<Event>) {
    |events| + (if LastIs(events, QuiescingPhase, CleanupIsPending) then 1 else 2) <= MAX_EVENTS_PER_JOB
  }

  /** A cancel call adds its own event first, unless it is the latest one already. */
  predicate HasRoomToCancel(events: seq<Event>) {
    |events| + (if LastIs(events, QuiescingPhase, CancelIsRequested) then 2 else 3) <= MAX_EVENTS_PER_JOB
  }

  // ---------------------------------------------------------------- observations that end a job

  /** The backend's own word on this job, with nothing of it left running. */
  ghost predicate Decisive(j: Job, obs: Observation) {
    Conclusive(j, obs) && ValidExecutionId(obs.executionId)
  }

  /** The observation carries the success of this job. */
  ghost predicate Proven(h: Host, j: Job, obs: Observation) {
    obs.success.Some? && ValidSuccess(h, j, obs.success.value)
  }

  /** The job ended as the backend says it did, or is held where a success is missing, false or out of place. */
  ghost predicate EndedAs(h: Host, j: Job, obs: Observation) {
    && (j.state.Succeeded? <==> obs.state == Some(BackendSucceeded) && Proven(h, j, obs))
    && (j.state.Failed? <==> obs.state == Some(BackendFailed) && obs.success.None?)
    && (j.state.Cancelled? <==> obs.state == Some(BackendCancelled) && obs.success.None?)
    && (j.state.Held? <==> if obs.state == Some(BackendSucceeded) then !Proven(h, j, obs) else obs.success.Some?)
    && j.success == (if j.state.Succeeded? then obs.success else None)
    && (j.state.Succeeded? || j.state.Cancelled? ==> j.failure == None)
    && (j.state.Failed? ==> j.failure == Some(BackendHasFailed))
    && (j.state.Held? ==> j.failure == Some(
          if obs.state == Some(BackendSucceeded) then InvalidTerminalReceipt else InvalidBackendObservation))
  }

  lemma OutcomeAs(h: Host, q: Job, obs: Observation)
    requires obs.state.Some? && !obs.state.value.BackendRunning?
    ensures EndedAs(h, Outcome(h, q, obs), obs)
  {
  }

  /** The terminal event changes neither state nor failure nor success, when the log has room for it. */
  lemma LoggedAs(h: Host, ended: Job, obs: Observation)
    requires EndedAs(h, ended, obs) && Terminal(ended.state) && |ended.events| < MAX_EVENTS_PER_JOB
    ensures EndedAs(h, AppendEvent(ended, TerminalPhase, CodeOf(ended.state)), obs)
  {
  }

  lemma SettledAs(h: Host, j: Job, obs: Observation)
    requires Live(h, j) && Decisive(j, obs)
    ensures var after := Settle(h, j, obs);
      && (Terminal(after.state) <==> HasRoom(j.events))
      && (Terminal(after.state) ==> EndedAs(h, after, obs))
  {
    var q := AppendEvent(j, QuiescingPhase, CleanupIsPending);
    AppendKeeps(h, j, j, QuiescingPhase, CleanupIsPending);
    EndKeeps(h, q, Outcome(h, q, obs));
    OutcomeAs(h, q, obs);
    if |q.events| < MAX_EVENTS_PER_JOB {
      LoggedAs(h, Outcome(h, q, obs), obs);
    }
  }

  /** An observation ends a live job exactly when it is decisive and the log has room, and then says how. */
  lemma ObservationEnds(h: Host, j: Job, obs: Observation)
    requires Live(h, j)
    ensures var after := ApplyObservation(h, j, obs);
      && (Terminal(after.state) <==> Decisive(j, obs) && HasRoom(j.events))
      && (Terminal(after.state) ==> EndedAs(h, after, obs))
  {
    ApplyObservationKeeps(h, j, obs);
    if Decisive(j, obs) {
      SettledAs(h, j, obs);
    }
  }

  /** The job as the executor's answer finds it: a cancel call logs its request first. */
  function Asked(j: Job, op: Op): Job {
    if op.CancelOp? then AppendEvent(j.(state := CancelRequested), QuiescingPhase, CancelIsRequested) else j
  }

  lemma AskedLive(h: Host, j: Job, op: Op)
    requires Live(h, j)
    ensures Live(h, Asked(j, op)) && SameIdentity(j, Asked(j, op))
    ensures op.CancelOp? ==> (HasRoom(Asked(j, op).events) <==> HasRoomToCancel(j.events))
  {
    AppendKeeps(h, j, j.(state := CancelRequested), QuiescingPhase, CancelIsRequested);
  }

  lemma CallAsks(h: Host, j: Job, op: Op)
    requires Live(h, j)
    ensures Apply(h, j, op) ==
            if op.reply.Returned? then ApplyObservation(h, Asked(j, op), op.reply.value) else Asked(j, op)
  {
    if op.ResultOp? && op.reply.Returned? {
      ApplyObservationKeeps(h, j, op.reply.value);
    }
  }

  /** The same for every call, a cancel call needing room for its own event too. */
  lemma CallEnds(h: Host, j: Job, op: Op)
    requires Live(h, j)
    ensures var after := Apply(h, j, op);
      && (Terminal(after.state) <==>
            && op.reply.Returned? && Decisive(j, op.reply.value)
            && if op.CancelOp? then HasRoomToCancel(j.events) else HasRoom(j.events))
      && (Terminal(after.state) ==> EndedAs(h, after, op.reply.value))
  {
    CallAsks(h, j, op);
    AskedLive(h, j, op);
    if op.reply.Returned? {
      ObservationEnds(h, Asked(j, op), op.reply.value);
    }
  }

  lemma EndsNow(h: Host, j: Job, op: Op)
    requires JobInv(h, j) && !Terminal(j.state) && Terminal(Apply(h, j, op).state)
    ensures op.reply.Returned? && Decisive(j, op.reply.value) && EndedAs(h, Apply(h, j, op), op.reply.value)
  {
    CallEnds(h, j, op);
  }

  /**
   Over every run: apart from a launch that proved no backend exists, a job that ended did so
   in one call, whose observation says as what.
   */
  lemma {:induction false} EndedAsObserved(h: Host, request: Request, profile: Profile,
    launch: Reply<string>, ops: seq<Op>)
    returns (k: nat)
    requires !launch.Unavailable? && Terminal(ApplyAll(h, NewJob(h, request, profile, launch), ops).state)
    ensures k < |ops| && ops[k].reply.Returned?
    ensures Decisive(ApplyAll(h, NewJob(h, request, profile, launch), ops[..k]), ops[k].reply.value)
    ensures EndedAs(h, ApplyAll(h, NewJob(h, request, profile, launch), ops), ops[k].reply.value)
  {
    var j, before := NewJob(h, request, profile, launch), ops[..|ops| - 1];
    NewJobInv(h, request, profile, launch);
    RunKeeps(h, request, profile, launch, before);
    if Terminal(ApplyAll(h, j, before).state) {
      k := EndedAsObserved(h, request, profile, launch, before);
      assert before[..k] == ops[..k];
      ApplyKeeps(h, ApplyAll(h, j, before), ops[|ops| - 1]);
    } else {
      k := |ops| - 1;
      EndsNow(h, ApplyAll(h, j, before), ops[k]);
    }
  }

  // ---------------------------------------------------------------- observations that do not

  /** The observation is of another execution. */
  ghost predicate Foreign(j: Job, obs: Observation) {
    ValidExecutionId(obs.executionId) && Some(obs.executionId) != j.executionId
  }

  /** Of this execution and running, as a running backend can be. */
  ghost predicate SeenRunning(j: Job, obs: Observation) {
    && ValidExecutionId(obs.executionId) && Some(obs.executionId) == j.executionId
    && obs.state == Some(BackendRunning) && obs.success.None?
  }

  /** Of this execution and ended, with flags that are flags. */
  ghost predicate SeenEnded(j: Job, obs: Observation) {
    && ValidExecutionId(obs.executionId) && Some(obs.executionId) == j.executionId
    && obs.state.Some? && !obs.state.value.BackendRunning?
    && !obs.cleanupConfirmed.NotABool? && !obs.wholeJobQuiescent.NotABool?
  }

  ghost predicate PendingWith(j: Job, failure: Failure, pending: Option<BackendState>) {
    j.state.CleanupPending? && j.failure == Some(failure) && j.success == None && j.pendingTerminal == pending
  }

  /**
   With room for an event, an observation that does not end the job leaves it running, or in
   cancellation, or pending with exactly this failure and what the backend last ended as.
   */
  lemma ObservationLeaves(h: Host, j: Job, obs: Observation)
    requires Live(h, j) && |j.events| < MAX_EVENTS_PER_JOB
    ensures var after := ApplyObservation(h, j, obs);
      && (Foreign(j, obs) ==> PendingWith(after, BackendExecutionIdMismatch, None))
      && (SeenRunning(j, obs) && j.pendingTerminal.Some? ==>
            PendingWith(after, InvalidStateRegression, j.pendingTerminal))
      && (SeenRunning(j, obs) && j.pendingTerminal.None? && j.state.CancelRequested? ==> after == j)
      && (SeenRunning(j, obs) && j.pendingTerminal.None? && !j.state.CancelRequested? ==>
            after.state.Running? && after.failure == None)
      && (SeenEnded(j, obs) && !Decisive(j, obs) ==> PendingWith(after, CleanupNotConfirmed, obs.state))
      && (!Foreign(j, obs) && !SeenRunning(j, obs) && !SeenEnded(j, obs) ==>
            PendingWith(after, InvalidBackendObservation, None))
  {
  }

  /** What the launch leaves, whatever the executor answers. */
  lemma LaunchLeaves(h: Host, request: Request, profile: Profile, launch: Reply<string>)
    ensures var j := NewJob(h, request, profile, launch);
      && (launch.Unavailable? <==> j.state.Failed?)
      && (launch.Unavailable? ==> j.failure == Some(ExecutorIsUnavailable))
      && (launch == Returned(ExecutionId(h.digest(request))) && ValidExecutionId(launch.value) <==> j.state.Running?)
      && (launch.Returned? && ValidExecutionId(launch.value) && launch.value != ExecutionId(h.digest(request)) ==>
            PendingWith(j, BackendExecutionIdMismatch, None))
      && (launch.Raised? || (launch.Returned? && !ValidExecutionId(launch.value)) ==>
            PendingWith(j, LaunchOutcomeUnknown, None))
  {
    StartingLive(h, request, profile);
  }
}
