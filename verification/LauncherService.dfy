/**
 `_JobRecord` and `LauncherService` (artifacts/codeagent-launcher/codeagent_launcher.py)
 with their mutable fields. Every method is proved to compute the corresponding function
 of Launcher.dfy or LauncherRegistry.dfy, where the properties are stated.

 The service's lock makes each call atomic. What the executor would answer, if this call
 asks it, is an argument.
 */
module LauncherService {
  import opened Outcomes
  import L = Launcher
  import E = LauncherEvents
  import R = LauncherRegistry

  class JobRecord {
    const request: L.Request
    const requestDigest: string
    const profile: L.Profile
    const executionId: Option<string>
    var state: L.State
    var failure: Option<L.Failure>
    var success: Option<L.Success>
    var events: seq<L.Event>
    var nextSequence: nat
    var pendingTerminal: Option<L.BackendState>

    function View(): L.Job
      reads this
    {
      L.Job(request, requestDigest, profile, state, executionId, failure, success,
            events, nextSequence, pendingTerminal)
    }

    constructor (request: L.Request, requestDigest: string, profile: L.Profile)
      ensures View() == L.Job(request, requestDigest, profile, L.Queued, Some(L.ExecutionId(requestDigest)),
                              None, None, [], 1, None)
    {
      this.request, this.requestDigest, this.profile := request, requestDigest, profile;
      this.executionId := Some(L.ExecutionId(requestDigest));
      state, failure, success, events, nextSequence, pendingTerminal := L.Queued, None, None, [], 1, None;
    }

    method AppendEvent(phase: L.Phase, code: L.Code)
      modifies this
      ensures View() == L.AppendEvent(old(View()), phase, code)
    {
      if |events| >= L.MAX_EVENTS_PER_JOB {
        state := L.CleanupPending;
        failure := Some(L.EventBudgetExhausted);
        success := None;
        return;
      }
      if events != [] && events[|events| - 1].phase == phase && events[|events| - 1].code == code {
        return;
      }
      events := events + [L.Event(nextSequence, phase, code)];
      nextSequence := nextSequence + 1;
    }

    method Hold(code: L.Failure)
      modifies this
      ensures View() == L.Hold(old(View()), code)
    {
      state := L.Held;
      failure := Some(code);
      success := None;
      AppendEvent(L.TerminalPhase, L.JobHeld);
    }

    method QuiescencePending(code: L.Failure, pending: Option<L.BackendState>)
      modifies this
      ensures View() == L.QuiescencePending(old(View()), code, pending)
    {
      state := L.CleanupPending;
      failure := Some(code);
      success := None;
      pendingTerminal := pending;
      AppendEvent(L.QuiescingPhase, L.CleanupIsPending);
    }

    /** The part of `_apply_observation` after cleanup and quiescence were confirmed. */
    method Settle(h: L.Host, obs: L.Observation)
      requires obs.state.Some? && !obs.state.value.BackendRunning?
      modifies this
      ensures View() == L.Settle(h, old(View()), obs)
    {
      AppendEvent(L.QuiescingPhase, L.CleanupIsPending);
      if obs.state.value.BackendSucceeded? {
        if obs.success.None? || !L.ValidSuccess(h, View(), obs.success.value) {
          Hold(L.InvalidTerminalReceipt);
          return;
        }
        success := obs.success;
        failure := None;
        pendingTerminal := None;
        state := L.Succeeded;
        AppendEvent(L.TerminalPhase, L.JobSucceeded);
        return;
      }
      if obs.success.Some? {
        Hold(L.InvalidBackendObservation);
        return;
      }
      success := None;
      pendingTerminal := None;
      if obs.state.value.BackendFailed? {
        failure := Some(L.BackendHasFailed);
        state := L.Failed;
        AppendEvent(L.TerminalPhase, L.JobFailed);
      } else {
        failure := None;
        state := L.Cancelled;
        AppendEvent(L.TerminalPhase, L.JobCancelled);
      }
    }

    method ApplyObservation(h: L.Host, obs: L.Observation)
      modifies this
      ensures View() == L.ApplyObservation(h, old(View()), obs)
    {
      if !L.ValidExecutionId(obs.executionId) {
        QuiescencePending(L.InvalidBackendObservation, None);
        return;
      }
      if Some(obs.executionId) != executionId {
        QuiescencePending(L.BackendExecutionIdMismatch, None);
        return;
      }
      if obs.state.None? {
        QuiescencePending(L.InvalidBackendObservation, None);
        return;
      }
      if obs.state.value.BackendRunning? {
        if obs.success.Some? {
          QuiescencePending(L.InvalidBackendObservation, None);
        } else if pendingTerminal.Some? {
          QuiescencePending(L.InvalidStateRegression, pendingTerminal);
        } else if !state.CancelRequested? {
          state := L.Running;
          failure := None;
          AppendEvent(L.RunningPhase, L.BackendIsRunning);
        }
        return;
      }
      if obs.cleanupConfirmed.NotABool? || obs.wholeJobQuiescent.NotABool? {
        QuiescencePending(L.InvalidBackendObservation, None);
        return;
      }
      if !(obs.cleanupConfirmed.Yes? && obs.wholeJobQuiescent.Yes?) {
        QuiescencePending(L.CleanupNotConfirmed, obs.state);
        return;
      }
      Settle(h, obs);
    }

    /** `executor.launch` was called; what the launcher makes of its answer. */
    method TakeLaunch(launch: L.Reply<string>)
      modifies this
      ensures View() == L.AfterLaunch(old(View()), launch)
    {
      match launch
      case Unavailable =>
        state := L.Failed;
        failure := Some(L.ExecutorIsUnavailable);
        AppendEvent(L.TerminalPhase, L.JobFailed);
      case Raised =>
        QuiescencePending(L.LaunchOutcomeUnknown, None);
      case Returned(confirmed) =>
        if !L.ValidExecutionId(confirmed) {
          QuiescencePending(L.LaunchOutcomeUnknown, None);
        } else if Some(confirmed) != executionId {
          QuiescencePending(L.BackendExecutionIdMismatch, None);
        } else {
          state := L.Running;
          AppendEvent(L.RunningPhase, L.BackendIsRunning);
        }
    }

    /** The body of `status`; false when the executor's exception went through. */
    method Status(h: L.Host, reply: L.Reply<L.Observation>) returns (ok: bool)
      modifies this
      ensures View() == L.Status(h, old(View()), reply)
    {
      ok := true;
      if !L.Terminal(state) {
        if executionId.None? {
          QuiescencePending(L.MissingBackendExecutionId, None);
        } else if !reply.Returned? {
          ok := false;
        } else {
          ApplyObservation(h, reply.value);
        }
      }
    }

    /** The body of `cancel`. */
    method Cancel(h: L.Host, reply: L.Reply<L.Observation>) returns (ok: bool)
      modifies this
      ensures View() == L.Cancel(h, old(View()), reply)
    {
      ok := true;
      if L.Terminal(state) {
        return;
      }
      state := L.CancelRequested;
      AppendEvent(L.QuiescingPhase, L.CancelIsRequested);
      if executionId.None? {
        QuiescencePending(L.MissingBackendExecutionId, None);
      } else if !reply.Returned? {
        ok := false;
      } else {
        ApplyObservation(h, reply.value);
      }
    }

    /** The body of `result`: the output, or None when it is not released. */
    method Release(h: L.Host, reply: L.Reply<L.Observation>) returns (r: Option<L.Success>)
      modifies this
      ensures View() == L.ResultJob(h, old(View()), reply)
      ensures r.Some? ==> state.Succeeded? && success == r && L.ValidSuccess(h, View(), r.value)
      ensures (L.Terminal(old(state)) || (executionId.Some? && reply.Returned?)) ==>
                (state.Succeeded? && success.Some? ==> r == success)
    {
      if !L.Terminal(state) {
        if executionId.None? || !reply.Returned? {
          return None;
        }
        ApplyObservation(h, reply.value);
      }
      if !state.Succeeded? || success.None? {
        return None;
      }
      if !L.ValidSuccess(h, View(), success.value) {
        Hold(L.InvalidTerminalReceipt);
        return None;
      }
      return success;
    }
  }

  /** Creates the record and logs the two events before `executor.launch`. */
  method StartRecord(h: L.Host, request: L.Request, profile: L.Profile) returns (record: JobRecord)
    ensures fresh(record) && record.View() == L.StartingJob(h, request, profile)
  {
    record := new JobRecord(request, h.digest(request), profile);
    record.AppendEvent(L.QueuedPhase, L.JobQueued);
    record.state := L.Starting;
    record.AppendEvent(L.StartingPhase, L.ExecutorStarting);
  }

  datatype CallError =
    | SubmitFailed(error: R.SubmitError)
    | NotFound | ExecutorRaised | ResultUnavailable | OutOfRange | UnknownCursor

  class LauncherService {
    const config: R.Config
    var jobs: map<R.JobKey, JobRecord>
    var idempotency: map<string, (string, R.JobKey)>
    ghost var launches: seq<R.JobKey>

    /** No two jobs share a record, and a reserved idempotency key leads to a record. */
    ghost predicate Valid()
      reads this
    {
      && (forall a, b | a in jobs && b in jobs && a != b :: jobs[a] != jobs[b])
      && (forall k <- idempotency :: idempotency[k].1 in jobs)
    }

    ghost function View(): R.Registry
      reads this, jobs.Values
    {
      R.Registry(map key | key in jobs :: jobs[key].View(), idempotency, launches)
    }

    constructor (config: R.Config)
      ensures Valid() && View() == R.EMPTY && this.config == config
    {
      this.config := config;
      jobs, idempotency, launches := map[], map[], [];
    }

    /** The checks of `submit` before anything is reserved; None is a new job. */
    method Check(request: L.Request) returns (r: Result<Option<R.JobKey>, R.SubmitError>)
      ensures r == R.Admit(config, View(), request)
    {
      var key := R.KeyOf(request);
      if !config.host.wellFormed(request) {
        return Err(R.InvalidRequest);
      }
      if request.idempotencyKey in idempotency {
        if idempotency[request.idempotencyKey] != (config.host.digest(request), key) {
          return Err(R.PayloadConflict);
        }
        return Ok(Some(key));
      }
      if key in jobs {
        return Err(R.AlreadyExists);
      }
      if request.profileId !in config.profiles {
        return Err(R.UnknownProfile);
      }
      var profile := config.profiles[request.profileId];
      if !R.MatchesProfile(request, profile) {
        return Err(R.ProfileMismatch);
      }
      if profile.executorKind !in config.executors {
        return Err(R.NoExecutor);
      }
      return Ok(None);
    }

    /** The reservation of both namespaces and the launch, for a request that was admitted as new. */
    method Enter(request: L.Request, launch: L.Reply<string>) returns (record: JobRecord)
      requires Valid() && R.Admit(config, View(), request) == Ok(None)
      modifies this
      ensures Valid() && fresh(record) && jobs == old(jobs)[R.KeyOf(request) := record]
      ensures View() == R.Submit(config, old(View()), request, launch)
    {
      R.SubmitInSteps(config, View(), request, launch);
      record := StartRecord(config.host, request, config.profiles[request.profileId]);
      assert View() == old(View());
      Reserve(request, record);
      Launch(R.KeyOf(request), launch);
    }

    /** `executor.launch` for a reserved job. */
    method Launch(key: R.JobKey, launch: L.Reply<string>)
      requires Valid() && key in jobs
      modifies this`launches, jobs[key]
      ensures Valid() && jobs == old(jobs)
      ensures View() == R.Launched(old(View()), key, launch)
    {
      var record := jobs[key];
      launches := launches + [key];
      record.TakeLaunch(launch);
      assert View().jobs == old(View()).jobs[key := record.View()];
    }

    /** Reserves the job key and the idempotency key before the executor boundary is crossed. */
    method Reserve(request: L.Request, record: JobRecord)
      requires Valid() && R.KeyOf(request) !in jobs && record !in jobs.Values
      modifies this
      ensures Valid() && jobs == old(jobs)[R.KeyOf(request) := record]
      ensures View() == R.Reserved(config, old(View()), request, record.View())
    {
      var key := R.KeyOf(request);
      jobs := jobs[key := record];
      idempotency := idempotency[request.idempotencyKey := (config.host.digest(request), key)];
    }

    method Submit(request: L.Request, launch: L.Reply<string>) returns (r: Result<L.Job, CallError>)
      requires Valid()
      modifies this
      ensures Valid()
      ensures View() == R.Submit(config, old(View()), request, launch)
      ensures match R.Admit(config, old(View()), request)
              case Err(e) => r == Err(SubmitFailed(e))
              case Ok(_) => R.KeyOf(request) in View().jobs && r == Ok(View().jobs[R.KeyOf(request)])
    {
      var admitted := Check(request);
      match admitted
      case Err(e) =>
        return Err(SubmitFailed(e));
      case Ok(Some(key)) =>
        return Ok(jobs[key].View());
      case Ok(None) =>
        var record := Enter(request, launch);
        return Ok(record.View());
    }

    method Status(key: R.JobKey, reply: L.Reply<L.Observation>) returns (r: Result<L.Job, CallError>)
      requires Valid()
      modifies jobs.Values
      ensures Valid() && jobs == old(jobs)
      ensures View() == R.Update(config, old(View()), key, L.StatusOp(reply))
      ensures key !in jobs ==> r == Err(NotFound)
      ensures r.Ok? ==> key in jobs && r.value == View().jobs[key]
    {
      if key !in jobs {
        return Err(NotFound);
      }
      var record := jobs[key];
      var ok := record.Status(config.host, reply);
      assert View().jobs == old(View()).jobs[key := record.View()];
      return if ok then Ok(record.View()) else Err(ExecutorRaised);
    }

    method Cancel(key: R.JobKey, reply: L.Reply<L.Observation>) returns (r: Result<L.Job, CallError>)
      requires Valid()
      modifies jobs.Values
      ensures Valid() && jobs == old(jobs)
      ensures View() == R.Update(config, old(View()), key, L.CancelOp(reply))
      ensures key !in jobs ==> r == Err(NotFound)
      ensures r.Ok? ==> key in jobs && r.value == View().jobs[key]
    {
      if key !in jobs {
        return Err(NotFound);
      }
      var record := jobs[key];
      var ok := record.Cancel(config.host, reply);
      assert View().jobs == old(View()).jobs[key := record.View()];
      return if ok then Ok(record.View()) else Err(ExecutorRaised);
    }

    /** Releases an output only from a job that has succeeded, with the receipt that binds it. */
    method GetResult(key: R.JobKey, reply: L.Reply<L.Observation>) returns (r: Result<L.Success, CallError>)
      requires Valid()
      modifies jobs.Values
      ensures Valid() && jobs == old(jobs)
      ensures View() == R.Update(config, old(View()), key, L.ResultOp(reply))
      ensures r.Ok? ==> key in jobs && View().jobs[key].state.Succeeded?
                        && L.ValidSuccess(config.host, View().jobs[key], r.value)
      ensures key in jobs && (L.Terminal(old(View()).jobs[key].state)
                              || (jobs[key].executionId.Some? && reply.Returned?)) ==>
                (View().jobs[key].state.Succeeded? && View().jobs[key].success.Some? ==>
                   r == Ok(View().jobs[key].success.value))
    {
      if key !in jobs {
        return Err(NotFound);
      }
      var record := jobs[key];
      var released := record.Release(config.host, reply);
      assert View().jobs == old(View()).jobs[key := record.View()];
      return if released.Some? then Ok(released.value) else Err(ResultUnavailable);
    }

    method ListEvents(key: R.JobKey, after: int, limit: int) returns (r: Result<E.Page, CallError>)
      requires Valid()
      ensures !(0 <= after < 0x8000_0000_0000_0000) || !(1 <= limit <= L.MAX_EVENT_PAGE_SIZE) ==> r == Err(OutOfRange)
      ensures r.Ok? ==> key in jobs && 0 <= after && 1 <= limit && r.value == E.ListPage(jobs[key].events, after, limit)
      ensures key in jobs && L.LogInv(jobs[key].events) && 1 <= limit <= L.MAX_EVENT_PAGE_SIZE ==>
                (r.Ok? <==> 0 <= after <= |jobs[key].events|)
    {
      if after < 0 || after > 0x7fff_ffff_ffff_ffff || limit < 1 || limit > L.MAX_EVENT_PAGE_SIZE {
        return Err(OutOfRange);
      }
      if key !in jobs {
        return Err(NotFound);
      }
      var events := jobs[key].events;
      var latest := if events != [] then events[|events| - 1].sequence else 0;
      if after > latest {
        return Err(UnknownCursor);
      }
      return Ok(E.ListPage(events, after, limit));
    }
  }
}
