/**
 All jobs of one launcher as a value: the `_jobs` and `_idempotency` dictionaries of
 `LauncherService` (artifacts/codeagent-launcher/codeagent_launcher.py) and the executor
 launches made so far.
 */
module LauncherRegistry {
  import opened Outcomes
  import opened Launcher

  type JobKey = (string, string)

  datatype Config = Config(host: Host, profiles: map<string, Profile>, executors: set<ExecutorKind>)

  datatype Registry = Registry(
    jobs: map<JobKey, Job>, idempotency: map<string, (string, JobKey)>, launches: seq<JobKey>)

  datatype SubmitError =
    | InvalidRequest | PayloadConflict | AlreadyExists | UnknownProfile | ProfileMismatch | NoExecutor

  const EMPTY := Registry(map[], map[], [])

  function KeyOf(request: Request): JobKey {
    (request.jobId, request.attemptId)
  }

  predicate MatchesProfile(request: Request, profile: Profile) {
    && request.providerId == profile.providerId
    && request.model in profile.allowedModels
    && request.resourcePolicyId == profile.resourcePolicyId
    && request.networkPolicyId == profile.networkPolicyId
  }

  /** Everything `submit` checks before it reserves anything; Ok(None) is a new job, Ok(Some) a replay. */
  function Admit(c: Config, r: Registry, request: Request): Result<Option<JobKey>, SubmitError> {
    if !c.host.wellFormed(request) then Err(InvalidRequest)
    else if request.idempotencyKey in r.idempotency then
      if r.idempotency[request.idempotencyKey] != (c.host.digest(request), KeyOf(request)) then Err(PayloadConflict)
      else Ok(Some(KeyOf(request)))
    else if KeyOf(request) in r.jobs then Err(AlreadyExists)
    else if request.profileId !in c.profiles then Err(UnknownProfile)
    else if !MatchesProfile(request, c.profiles[request.profileId]) then Err(ProfileMismatch)
    else if c.profiles[request.profileId].executorKind !in c.executors then Err(NoExecutor)
    else Ok(None)
  }

  /** `launch` is what the executor answers if it is called. */
  function Submit(c: Config, r: Registry, request: Request, launch: Reply<string>): Registry {
    if Admit(c, r, request) != Ok(None) then r
    else
      var key := KeyOf(request);
      var job := NewJob(c.host, request, c.profiles[request.profileId], launch);
      Registry(
        r.jobs[key := job],
        r.idempotency[request.idempotencyKey := (c.host.digest(request), key)],
        r.launches + [key])
  }

  /** Both namespaces are reserved for the starting job before the executor is called. */
  function Reserved(c: Config, r: Registry, request: Request, starting: Job): Registry {
    Registry(
      r.jobs[KeyOf(request) := starting],
      r.idempotency[request.idempotencyKey := (c.host.digest(request), KeyOf(request))],
      r.launches)
  }

  /** The executor is called for a reserved job. */
  function Launched(r: Registry, key: JobKey, launch: Reply<string>): Registry
    requires key in r.jobs
  {
    r.(jobs := r.jobs[key := AfterLaunch(r.jobs[key], launch)], launches := r.launches + [key])
  }

  lemma SubmitInSteps(c: Config, r: Registry, request: Request, launch: Reply<string>)
    requires Admit(c, r, request) == Ok(None)
    ensures var starting := StartingJob(c.host, request, c.profiles[request.profileId]);
      var reserved := Reserved(c, r, request, starting);
      Submit(c, r, request, launch) == Launched(reserved, KeyOf(request), launch)
  {
  }

  function Update(c: Config, r: Registry, key: JobKey, op: Op): Registry {
    if key in r.jobs then r.(jobs := r.jobs[key := Apply(c.host, r.jobs[key], op)]) else r
  }

  datatype Call = SubmitCall(request: Request, launch: Reply<string>) | JobCall(key: JobKey, op: Op)

  function Do(c: Config, r: Registry, call: Call): Registry {
    match call
    case SubmitCall(request, launch) => Submit(c, r, request, launch)
    case JobCall(key, op) => Update(c, r, key, op)
  }

  function DoAll(c: Config, calls: seq<Call>): Registry {
    if calls == [] then EMPTY else Do(c, DoAll(c, calls[..|calls| - 1]), calls[|calls| - 1])
  }

  // ---------------------------------------------------------------- invariant

  /** A job is stored under its own key, and its idempotency key points back at it. */
  ghost predicate Bound(c: Config, r: Registry, key: JobKey)
    requires key in r.jobs
  {
    var j := r.jobs[key];
    && KeyOf(j.request) == key
    && j.requestDigest == c.host.digest(j.request)
    && j.executionId == Some(ExecutionId(j.requestDigest))
    && j.request.idempotencyKey in r.idempotency
    && r.idempotency[j.request.idempotencyKey] == (j.requestDigest, key)
  }

  ghost predicate RegistryInv(c: Config, r: Registry) {
    && (forall key <- r.jobs :: JobInv(c.host, r.jobs[key]) && Bound(c, r, key))
    && (forall k <- r.idempotency ::
          r.idempotency[k].1 in r.jobs && r.jobs[r.idempotency[k].1].request.idempotencyKey == k)
    && (forall key :: key in r.launches <==> key in r.jobs)
    && (forall i, j | 0 <= i < j < |r.launches| :: r.launches[i] != r.launches[j])
  }

  function Add(r: Registry, key: JobKey, j: Job): Registry {
    Registry(r.jobs[key := j], r.idempotency[j.request.idempotencyKey := (j.requestDigest, key)], r.launches + [key])
  }

  lemma AddKeeps(c: Config, r: Registry, key: JobKey, j: Job)
    requires RegistryInv(c, r) && key !in r.jobs && j.request.idempotencyKey !in r.idempotency
    requires JobInv(c.host, j) && KeyOf(j.request) == key && j.requestDigest == c.host.digest(j.request)
    requires j.executionId == Some(ExecutionId(j.requestDigest))
    ensures RegistryInv(c, Add(r, key, j))
  {
    var r' := Add(r, key, j);
    forall k <- r'.jobs ensures JobInv(c.host, r'.jobs[k]) && Bound(c, r', k) {
      if k != key {
        assert Bound(c, r, k);
      }
    }
  }

  lemma SubmitKeeps(c: Config, r: Registry, request: Request, launch: Reply<string>)
    requires RegistryInv(c, r)
    ensures RegistryInv(c, Submit(c, r, request, launch))
    ensures forall key <- r.jobs :: key in Submit(c, r, request, launch).jobs
              && Submit(c, r, request, launch).jobs[key] == r.jobs[key]
  {
    if Admit(c, r, request) == Ok(None) {
      var profile := c.profiles[request.profileId];
      NewJobInv(c.host, request, profile, launch);
      StartingLive(c.host, request, profile);
      AddKeeps(c, r, KeyOf(request), NewJob(c.host, request, profile, launch));
    }
  }

  lemma UpdateKeeps(c: Config, r: Registry, key: JobKey, op: Op)
    requires RegistryInv(c, r)
    ensures RegistryInv(c, Update(c, r, key, op))
  {
    if key in r.jobs {
      ApplyKeeps(c.host, r.jobs[key], op);
      CallExtends(c.host, r.jobs[key], op);
      var r' := Update(c, r, key, op);
      forall k <- r'.jobs ensures JobInv(c.host, r'.jobs[k]) && Bound(c, r', k) {
        assert Bound(c, r, k);
      }
    }
  }

  lemma {:induction false} RunKeeps(c: Config, calls: seq<Call>)
    ensures RegistryInv(c, DoAll(c, calls))
  {
    if calls != [] {
      var before := calls[..|calls| - 1];
      RunKeeps(c, before);
      match calls[|calls| - 1]
      case SubmitCall(request, launch) => SubmitKeeps(c, DoAll(c, before), request, launch);
      case JobCall(key, op) => UpdateKeeps(c, DoAll(c, before), key, op);
    }
  }

  // ---------------------------------------------------------------- theorems over all call sequences

  lemma {:induction false} DistinctCount(s: seq<JobKey>, all: set<JobKey>)
    requires forall i, j | 0 <= i < j < |s| :: s[i] != s[j]
    requires forall k :: k in s <==> k in all
    ensures |s| == |all|
  {
    if s != [] {
      var last := s[|s| - 1];
      forall k ensures k in s[..|s| - 1] <==> k in all - {last} {
        if k in s && k != last {
          var i :| 0 <= i < |s| && s[i] == k;
          assert s[..|s| - 1][i] == k;
        }
      }
      DistinctCount(s[..|s| - 1], all - {last});
    } else {
      assert all == {};
    }
  }

  /** Some recorded job was submitted under this idempotency key. */
  ghost predicate KeyUsed(r: Registry, idempotencyKey: string) {
    exists key :: key in r.jobs && r.jobs[key].request.idempotencyKey == idempotencyKey
  }

  /** The request was submitted before: its job is recorded under its keys, with its digest. */
  ghost predicate Replayed(c: Config, r: Registry, request: Request) {
    var key := KeyOf(request);
    && key in r.jobs && r.jobs[key].request.idempotencyKey == request.idempotencyKey
    && r.jobs[key].requestDigest == c.host.digest(request)
  }

  /** The profile the request names is one it may use, and its executor is there. */
  predicate Launchable(c: Config, request: Request) {
    && request.profileId in c.profiles
    && var p := c.profiles[request.profileId];
       MatchesProfile(request, p) && p.executorKind in c.executors
  }

  /**
   After any calls, a well-formed request is a replay, a conflict, taken, refused or new
   exactly as the recorded jobs and the configuration say.
   */
  lemma AdmittedExactly(c: Config, calls: seq<Call>, request: Request)
    ensures var r := DoAll(c, calls); var answer := Admit(c, r, request);
      && (answer == Err(InvalidRequest) <==> !c.host.wellFormed(request))
      && (c.host.wellFormed(request) ==>
            && (answer.Ok? && answer.value.Some? <==> Replayed(c, r, request))
            && (answer == Err(PayloadConflict) <==>
                  KeyUsed(r, request.idempotencyKey) && !Replayed(c, r, request))
            && (answer == Err(AlreadyExists) <==>
                  !KeyUsed(r, request.idempotencyKey) && KeyOf(request) in r.jobs)
            && (answer == Ok(None) <==>
                  !KeyUsed(r, request.idempotencyKey) && KeyOf(request) !in r.jobs && Launchable(c, request)))
  {
    var r := DoAll(c, calls);
    RunKeeps(c, calls);
    forall key <- r.jobs ensures r.jobs[key].request.idempotencyKey in r.idempotency
      && r.idempotency[r.jobs[key].request.idempotencyKey] == (r.jobs[key].requestDigest, key)
    {
      assert Bound(c, r, key);
    }
    var k := request.idempotencyKey;
    if k in r.idempotency {
      var key := r.idempotency[k].1;
      assert key in r.jobs && r.jobs[key].request.idempotencyKey == k;
    }
  }

  /** After any calls, every record was launched exactly once and nothing else was. */
  lemma LaunchedExactlyOnce(c: Config, calls: seq<Call>)
    ensures var r := DoAll(c, calls);
      && |r.launches| == |r.jobs|
      && (forall i, j | 0 <= i < j < |r.launches| :: r.launches[i] != r.launches[j])
      && (forall key :: key in r.launches <==> key in r.jobs)
  {
    RunKeeps(c, calls);
    var r := DoAll(c, calls);
    DistinctCount(r.launches, r.jobs.Keys);
  }

  /** Idempotency keys and job-attempts correspond one to one. */
  lemma KeysCorrespond(c: Config, calls: seq<Call>, k: string, key: JobKey)
    ensures var r := DoAll(c, calls);
      (k in r.idempotency && r.idempotency[k].1 == key)
      <==> (key in r.jobs && r.jobs[key].request.idempotencyKey == k)
  {
    RunKeeps(c, calls);
    var r := DoAll(c, calls);
    if key in r.jobs {
      assert Bound(c, r, key);
    }
  }

  /** A repeated submission changes nothing, whatever the executor would have answered. */
  lemma ReplayIsHarmless(c: Config, calls: seq<Call>, request: Request, first: Reply<string>, again: Reply<string>)
    ensures var r := Submit(c, DoAll(c, calls), request, first);
      && Submit(c, r, request, again) == r
      && (Admit(c, DoAll(c, calls), request).Ok? ==> Admit(c, r, request) == Ok(Some(KeyOf(request))))
  {
  }

  /** When digests tell requests apart, no two launches use the same backend execution id. */
  lemma ExecutionIdsDistinct(c: Config, calls: seq<Call>, a: JobKey, b: JobKey)
    requires forall x, y :: c.host.digest(x) == c.host.digest(y) ==> x == y
    requires a in DoAll(c, calls).jobs && b in DoAll(c, calls).jobs && a != b
    ensures DoAll(c, calls).jobs[a].executionId != DoAll(c, calls).jobs[b].executionId
  {
    RunKeeps(c, calls);
    var r := DoAll(c, calls);
    assert Bound(c, r, a) && Bound(c, r, b);
    ExecutionIdInjective(r.jobs[a].requestDigest, r.jobs[b].requestDigest);
  }

  lemma ExecutionIdInjective(a: string, b: string)
    ensures ExecutionId(a) == ExecutionId(b) ==> a == b
  {
    assert ("vibapp-" + a)[7..] == a && ("vibapp-" + b)[7..] == b;
  }

  /** An ended job stays as it is through every later call, on itself or on any other job. */
  lemma {:induction false} EndedStays(c: Config, calls: seq<Call>, n: nat, key: JobKey)
    requires n <= |calls| && key in DoAll(c, calls[..n]).jobs && Terminal(DoAll(c, calls[..n]).jobs[key].state)
    ensures key in DoAll(c, calls).jobs && DoAll(c, calls).jobs[key] == DoAll(c, calls[..n]).jobs[key]
    decreases |calls|
  {
    if n == |calls| {
      assert calls[..n] == calls;
    } else {
      var before := calls[..|calls| - 1];
      assert before[..n] == calls[..n];
      EndedStays(c, before, n, key);
      RunKeeps(c, before);
      match calls[|calls| - 1]
      case SubmitCall(request, launch) =>
        SubmitKeeps(c, DoAll(c, before), request, launch);
      case JobCall(k, op) =>
        ApplyKeeps(c.host, DoAll(c, before).jobs[key], op);
    }
  }
}
