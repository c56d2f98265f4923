# Verification of the CodeAgent launch stack

Dafny models of the parts of the VibApp toolchain whose correctness rests on an
invariant or an induction, with proofs of what they promise.

| module | what it models |
|---|---|
| `HostBudget` | the per-user slot locks |
| `DockerAdmission`, `DockerRuns` | reservations, container creation and cleanup by independent processes and the Docker daemon; the worlds that runs reach |
| `DockerCleanup`, `DockerRival` | when a confirmed cleanup is final: both halves of the exact condition |
| `DockerAnswer` | what an undisturbed cleanup and an undisturbed launch are answered |
| `DockerRoots`, `DockerRelaunch` | several state roots that launch one name: two launches keep the bound, three break it |
| `AuthorAdmission`, `AuthorAlone` | admission, consent and status of authoring jobs; how an undisturbed attempt ends |
| `Launcher`, `LauncherEvents`, `LauncherRegistry`, `LauncherService` | the launcher: records and maps as values, then the service object that refines them |
| `LauncherOutcome` | when an observation ends a job and as what, and what it leaves otherwise |
| `DockerReceipt` | the launcher composed with what the Docker executor answers |
| `Gateway` | the model-request gateway: budget, retries and forwarded frames |
| `GatewayRetry` | when a request is tried again, how a call ends, and what it counts |
| `GatewayProgress` | the single writes behind a budget count, and what is published while they happen |
| `FrameReader`, `FrameStream` | the host's reader of the container's output, and which streams it accepts |
| `RustProjection`, `RustTokens` | the lexer that masks Rust comments and literals, and what those are |
| `PngChunks`, `PngImage`, `PngHeader` | the screenshot check: chunk grammar, Adam7 passes, scanlines, and what a header calls for |
| `FileQueue`, `QueueLoss`, `TwoWorkers` | the crash-recoverable task queue: its safety, how it can lose a task, and two live workers |
| `Digests` | the preimages of source tree and package digests |
| `BumpAllocator` | the guest's allocator, in 32-bit arithmetic |
| `Manifest` | the manifest between Builder and Verifier |
| `Facts`, `ByteStrings`, `Outcomes` | shared helpers |

Protocols between processes are transition systems: `Enabled` and `Effect` give one
step of one process, a crash may follow any step, and theorems speak of every run.
Objects that change in place are classes, and algorithms with loops are methods with
loops; each is proved equal to a function on values, and the theorems are about that
function. `dafny verify dfyconfig.toml` checks the whole project.

What the models take as parameters: the answers of executors, of the Docker daemon and
of upstream servers; SHA-256, CRC-32 and zlib; JSON parsing and canonical text; clocks
and delays; which scalar values the request and identifier patterns accept.

Where a claim holds only under a condition, the condition is stated and shown to be needed:

* The bound on live workers holds in all runs exactly when no execution name is launched
  more than twice (`BoundExactly`). One state root launches a name once, by
  `docker-job.json`; other roots may launch it again. With two launches, each cleaned up by
  its own root, every outstanding create stays covered (`TwoLaunchesAreBounded`). With three,
  `RelaunchBreaksTheBound` gives the run: the first launch fails early and its cleanup misses
  the container; the second is admitted, the first cleanup frees its `.created` file, and its
  own cleanup removes the container and waits; the third sends its create and dies, the
  waiting cleanup frees its `.creating` file, and nothing counts the create any more.
* A cleanup that starts is final, whenever it is confirmed, exactly when no rival launch of
  the name can still land: no other process is launching a name whose container never
  existed and has, or can still get, room for it (`FinalExactly`). The process's own cleanup
  and the delivery controller's recovery, which first sees that the recorded process has
  ended, always meet this. The executor itself does not check it, and `UnguardedCleanupMayLie`
  gives a run in which a cleanup beside a live launch is confirmed while the container runs.
* A published budget snapshot passes the validator exactly when the counters it read add up
  to the request count that was read before them, and no repair request stands beside the
  authoring phase. Its record is kept exactly when the logical requests and retries it read
  include one write if the count was read within a POST, and none otherwise
  (`RecordKeptExactly`). The main thread reads them at separate moments, so it can publish an
  invalid pair while a relay counts: `TornPublications`, `TornPhase` and
  `TornRecord` give the interleavings.
* The queue can lose a task: its receipt says queued, so new submissions are answered as
  duplicates, but its file is neither ready nor processing. It does in exactly four ways
  (`LosesExactly`, `LostSomewhere`): a worker stops between quarantining the file and the
  receipt; a submitter that cannot finish takes the file back beside the receipt it filled; a
  worker that starts before there is a receipt quarantines the file, and the submitter then
  fills the receipt (`EagerWorkerLoses` gives this run, without any crash); or a recovery
  drops the file as a duplicate of one that was taken back meanwhile. A task that a crash
  left in processing is otherwise put back to ready (`RecoveryRestores`).
* The queue's safety is proved for one live worker at a time. The code has two slots,
  and `process_one` without a key takes the first ready task, so two workers pick the same
  one. Two still publish at most one directory and never replace it, but a complete receipt
  can be withdrawn exactly when a worker is late: it read the receipt before it was complete
  and has yet to take the task, has a task file to read, works on it or quarantines it
  (`WithdrawnExactly`). A task with a complete receipt can come back exactly when a worker is
  late or a submitter had looked before there was a receipt (`ReturnsExactly`).
* The allocator's page count is right exactly when its rounding addition does not wrap;
  one page of memory is enough for that.
* A clean, persisted success ends the job exactly when the event log has room for it, which
  for a cancel call includes room for the cancellation's own event.
* A preimage determines its records path by path; records that share a path must also
  come in the same order.

## Model

| member | source | states |
|---|---|---|
| `HostBudget.ScanSlots` | artifacts/codeagent-launcher/host_budget.py:147-168 | Takes the lowest unlocked slot, or none exactly when all slots of the kind are locked; nothing else changes |
| `HostBudget.HoldersBounded` | artifacts/codeagent-launcher/host_budget.py:21-27 | Whatever processes hold slots of a kind, there are no more of them than the kind has slots |
| `HostBudget.TakeKeeps` | artifacts/codeagent-launcher/host_budget.py:150-156 | Locking a free slot keeps the slot table well formed and adds exactly that holder |
| `HostBudget.DropKeeps` | artifacts/codeagent-launcher/host_budget.py:175-182 | Release on any exit, crash included, frees the process's slots and no others |
| `DockerAdmission.LiveWorkersBounded` | artifacts/codeagent-launcher/docker_executor.py:1013-1043 | In every interleaving with crashes, lost replies and late requests: visible containers and reserved names are at most 2, every outstanding create has a `.creating` file, and containers stay at most 2 even after all outstanding creates land |
| `DockerAdmission.InvKept` | artifacts/codeagent-launcher/docker_executor.py:1013-1071 | One step of any process or of the daemon keeps lock ownership, cover of outstanding creates, the bound, and what each process has read |
| `DockerRival.FinalExactly` | artifacts/codeagent-launcher/docker_executor.py:1045-1071 | From every world that meets the invariant: a started cleanup can be confirmed while the container exists, or with the container existing or requested later, exactly when a rival launch of the name can still land at its start. It can when the name never landed, another process is launching it, and before the count fewer than 2 reservations stand (before the lock: fewer than 2 that nothing can settle), or it is past the count, or its create is outstanding |
| `DockerRival.NoRivalIsFinal` | artifacts/codeagent-launcher/docker_executor.py:1045-1071 | A cleanup that starts when the name has landed, or when no other process is launching it, is final whenever it is confirmed |
| `DockerRival.RecoveryIsFinal` | artifacts/orchestrator/delivery_controller.py:2213-2218 | A recovery that starts after the recorded process was seen to have ended is final whenever it is confirmed, with no other hypothesis |
| `DockerRival.OwnCleanupIsFinal` | artifacts/codeagent-launcher/docker_executor.py:1275-1280 | So is the cleanup of the process that launched the name |
| `DockerCleanup.ConfirmedCleanupIsFinal` | artifacts/codeagent-launcher/docker_executor.py:1045-1071 | In every run, a cleanup that started when no rival could land and was confirmed is final: the container neither exists nor is being created, then or later |
| `DockerCleanup.UncertainKept` | artifacts/codeagent-launcher/docker_executor.py:964-971 | A `.creating` reservation with no container, no outstanding create and nobody who can settle it stays so through every event, and takes up room for good |
| `DockerAnswer.CleanupAnswers` | artifacts/codeagent-launcher/docker_executor.py:1045-1071 | Over all runs in which one process alone cleans up: at its end it has its answer, confirmed exactly unless the container was absent beside a `.creating` file, also when there was no reservation at all; confirmed, neither container nor reservation is left, and otherwise nothing has changed |
| `DockerAnswer.CleanupEnds` | artifacts/codeagent-launcher/docker_executor.py:1045-1071 | Every undisturbed cleanup can go to that end |
| `DockerAnswer.LaunchAnswers` | artifacts/codeagent-launcher/docker_executor.py:1013-1043 | Over all runs in which one process alone launches and its request may land: it gets its container and its `.created` file exactly when the name has neither file nor container and containers and reserved names are fewer than 2; otherwise it is refused and has changed nothing |
| `DockerAnswer.LaunchEnds` | artifacts/codeagent-launcher/docker_executor.py:1013-1043 | Every undisturbed launch can go to that end |
| `DockerAdmission.GoneForever` | artifacts/codeagent-launcher/docker_executor.py:964-971 | A quiet name with no container and no outstanding create stays so for the rest of the run |
| `DockerAdmission.CreatingStays` | artifacts/codeagent-launcher/docker_executor.py:1045-1057 | The `.creating` file of a name that nobody is launching is released only when its container is known to be gone |
| `DockerRival.UnguardedCleanupMayLie` | artifacts/codeagent-launcher/docker_executor.py:254-273 | Without the controller's guard, a reachable run confirms a cleanup while the container exists, for any name |
| `DockerRoots.TwoLaunchesAreBounded` | artifacts/codeagent-launcher/docker_executor.py:1013-1071 | In every run in which roots launch each name at most twice and clean up only their own, the bound and the cover of outstanding creates hold as with one launch |
| `DockerRoots.StepKeeps` | artifacts/codeagent-launcher/docker_executor.py:1045-1071 | Every step keeps the invariant behind this: no cleanup that saw a container of the name is under way while a create of it is outstanding, and while one root alone is past its checks its container has its file |
| `DockerRelaunch.RelaunchBreaksTheBound` | artifacts/codeagent-launcher/docker_executor.py:1084-1086 | From three launches of a name on, a run in which each root cleans up only its own launch has three live workers |
| `DockerRelaunch.BoundExactly` | artifacts/codeagent-launcher/docker_executor.py:1084-1086 | The bound holds in all runs exactly when the number of launches allowed per name is at most two |
| `AuthorAdmission.AuthorsBounded` | artifacts/codeagent-adapter/codeagent_adapter.py:275-292 | Mixed callers hold at most two author slots, with at most one legacy caller among them |
| `AuthorAdmission.OneAuthorPerRoot` | artifacts/codeagent-adapter/codeagent_adapter.py:295-317 | No two processes author into one output root at once |
| `AuthorAdmission.ConsentSpentOnce` | artifacts/cloud-agent/cloud_agent.py:3025-3051 | Provider execution happens at most once per consent and output root, and only with the claim on disk |
| `AuthorAdmission.ClaimsPersist` | artifacts/cloud-agent/cloud_agent.py:3044-3051 | Claims and executions are never taken back, by any later event or crash |
| `AuthorAdmission.SpentConsentNeverRuns` | artifacts/codeagent-adapter/codeagent_adapter.py:2714-2733 | A consent that was already claimed starts no provider |
| `AuthorAdmission.RefusedWroteNothing` | artifacts/codeagent-adapter/codeagent_adapter.py:2802-2804 | Over every run: a caller that ends up refused changed no status, spent no consent and started no provider in any of its own steps since it arrived |
| `AuthorAlone.AttemptAnswers` | artifacts/codeagent-adapter/codeagent_adapter.py:2643-2804 | Over all runs in which one caller alone moves: it is refused, changing nothing, exactly when a lock it needs is taken or its status exists; otherwise it executes its consent once and is source-ready, or, when the consent was spent, fails without executing; all locks are given back |
| `AuthorAlone.ArrivedIsReady` | artifacts/codeagent-adapter/codeagent_adapter.py:2643-2648 | In every reachable state a caller that has arrived holds no lock, as this supposes |
| `AuthorAdmission.LockKept` | artifacts/codeagent-adapter/codeagent_adapter.py:2643-2648 | Every step keeps each lock with exactly the processes that are inside its block |
| `Launcher.ApplyObservationKeeps` | artifacts/codeagent-launcher/codeagent_launcher.py:719-804 | Any observation keeps the record's invariants, and ends the job only if it matches, is quiescent and cleaned up |
| `Launcher.RunKeeps` | artifacts/codeagent-launcher/codeagent_launcher.py:492-668 | Over every call sequence and executor: events are numbered 1..n with n at most 32 and no equal neighbours, the TERMINAL event is there exactly in a terminal state and last, success is there exactly in SUCCEEDED and valid |
| `Launcher.EndedIsFinal` | artifacts/codeagent-launcher/codeagent_launcher.py:570-599 | A terminal record never changes again |
| `Launcher.EndedOnEvidence` | artifacts/codeagent-launcher/codeagent_launcher.py:755-786 | Apart from the no-backend launch failure, a job ended on one observation with its id, confirmed cleanup and whole-job quiescence |
| `Launcher.FullLogNeverEnds` | artifacts/codeagent-launcher/codeagent_launcher.py:689-704 | A live job whose event log is full never becomes terminal |
| `Launcher.RecheckNeverFires` | artifacts/codeagent-launcher/codeagent_launcher.py:663-667 | The re-check at the release point of `result` never finds an invalid success |
| `Launcher.CallExtends` | artifacts/codeagent-launcher/codeagent_launcher.py:689-704 | A call only appends to the event log |
| `Launcher.NewJobInv` | artifacts/codeagent-launcher/codeagent_launcher.py:521-568 | Every launch outcome, lost reply and wrong id included, leaves a record that meets the invariants |
| `LauncherOutcome.ObservationEnds` | artifacts/codeagent-launcher/codeagent_launcher.py:755-802 | An observation ends a live job exactly when it is the own execution's, ended, quiescent and cleaned up, and the log has room; then Succeeded, Failed, Cancelled or Held, with its failure, exactly as state and success of the observation say |
| `LauncherOutcome.CallEnds` | artifacts/codeagent-launcher/codeagent_launcher.py:570-668 | The same for every status, cancel and result call, a cancel needing room for its own event too |
| `LauncherOutcome.EndedAsObserved` | artifacts/codeagent-launcher/codeagent_launcher.py:755-802 | Over every run, a job that ended did so in one call whose observation says as what |
| `LauncherOutcome.ObservationLeaves` | artifacts/codeagent-launcher/codeagent_launcher.py:719-768 | With room for an event, an observation that does not end the job leaves it running, in cancellation, or pending with exactly the failure that belongs to it and what the backend last ended as |
| `LauncherOutcome.LaunchLeaves` | artifacts/codeagent-launcher/codeagent_launcher.py:536-568 | A launch leaves the job running exactly when the executor confirms its id; failed, mismatched or unknown otherwise |
| `LauncherEvents.PageIsSlice` | artifacts/codeagent-launcher/codeagent_launcher.py:631-649 | A page is the stretch of the log right after the cursor; `has_more` tells exactly whether events follow |
| `LauncherEvents.FollowingSeesEachOnce` | artifacts/codeagent-launcher/codeagent_launcher.py:601-649 | Following cursors with any limits over a growing log yields each event once, in order |
| `LauncherRegistry.LaunchedExactlyOnce` | artifacts/codeagent-launcher/codeagent_launcher.py:531-568 | After any calls the launches are exactly the records, each once |
| `LauncherRegistry.KeysCorrespond` | artifacts/codeagent-launcher/codeagent_launcher.py:501-534 | The idempotency map and the job map stay a bijection |
| `LauncherRegistry.ReplayIsHarmless` | artifacts/codeagent-launcher/codeagent_launcher.py:502-507 | A repeated submission changes nothing and names the same job |
| `LauncherRegistry.AdmittedExactly` | artifacts/codeagent-launcher/codeagent_launcher.py:492-530 | After any calls a well-formed request is a replay, a conflict, taken or new exactly as the recorded jobs and the configuration say |
| `LauncherRegistry.ExecutionIdsDistinct` | artifacts/codeagent-launcher/codeagent_launcher.py:683-687 | With collision-free request digests, no two records share a backend execution id |
| `LauncherRegistry.EndedStays` | artifacts/codeagent-launcher/codeagent_launcher.py:570-599 | An ended record survives every later call on any job |
| `LauncherRegistry.RunKeeps` | artifacts/codeagent-launcher/codeagent_launcher.py:492-668 | Both maps, the launch history and every record keep their invariants over every call sequence |
| `LauncherRegistry.SubmitInSteps` | artifacts/codeagent-launcher/codeagent_launcher.py:531-568 | Reserving both maps first and launching after gives the same registry as one atomic submission |
| `LauncherService.JobRecord.AppendEvent` | artifacts/codeagent-launcher/codeagent_launcher.py:689-704 | The mutable record's new state is the value model's |
| `LauncherService.JobRecord.ApplyObservation` | artifacts/codeagent-launcher/codeagent_launcher.py:719-804 | The mutable record follows the value model on every observation |
| `LauncherService.JobRecord.TakeLaunch` | artifacts/codeagent-launcher/codeagent_launcher.py:540-568 | The mutable record follows the value model on every launch outcome |
| `LauncherService.JobRecord.Settle` | artifacts/codeagent-launcher/codeagent_launcher.py:771-804 | The mutable record follows the value model when a quiescent backend is judged |
| `LauncherService.LauncherService.Submit` | artifacts/codeagent-launcher/codeagent_launcher.py:492-568 | The service object, with its dictionaries of mutable records, refines the registry's submission |
| `LauncherService.LauncherService.Status` | artifacts/codeagent-launcher/codeagent_launcher.py:570-581 | The service object refines the registry on status calls |
| `LauncherService.LauncherService.Cancel` | artifacts/codeagent-launcher/codeagent_launcher.py:583-599 | The service object refines the registry on cancel calls |
| `LauncherService.LauncherService.GetResult` | artifacts/codeagent-launcher/codeagent_launcher.py:651-668 | The service object refines the registry on result calls, and releases only a succeeded job's success |
| `LauncherService.LauncherService.ListEvents` | artifacts/codeagent-launcher/codeagent_launcher.py:601-649 | The service object returns the page of the value model, or the documented error |
| `DockerReceipt.ReceiptAccepted` | artifacts/codeagent-launcher/docker_executor.py:1300-1313 | The receipt the executor builds is the one `_valid_success` accepts |
| `DockerReceipt.SuccessReached` | artifacts/codeagent-launcher/docker_executor.py:1298-1322 | On a status or result call, a clean, persisted success drives a live job to SUCCEEDED exactly when the log has room, and two free slots suffice |
| `DockerReceipt.SuccessReachedByCancel` | artifacts/codeagent-launcher/codeagent_launcher.py:583-599 | On a cancel call it does so exactly when the log also has room for the cancellation's own event, and three free slots suffice |
| `DockerReceipt.RunEndsJob` | artifacts/codeagent-launcher/docker_executor.py:1298-1322 | A status or result call after a cleaned up run ends the job Succeeded, Cancelled or Failed as the run ended, a success that was not persisted as Failed |
| `DockerReceipt.AnswerIsSound` | artifacts/codeagent-launcher/docker_executor.py:1341-1344 | No answer of the Docker executor holds a job, and none without confirmed cleanup ends it |
| `DockerReceipt.CallIsSound` | artifacts/codeagent-launcher/codeagent_launcher.py:570-668 | The same over any one call, with the job's identity unchanged |
| `DockerReceipt.NeverHeld` | artifacts/codeagent-launcher/docker_executor.py:1240-1245 | With the Docker executor HELD is unreachable, and a run without confirmed cleanup never ends |
| `Gateway.Conservation` | artifacts/codeagent-launcher/docker_executor.py:547-552 | Over every run requests = authoring + repair = logical + retries, each within 40, 8, 48 and 8 |
| `Gateway.PhaseIsOneWay` | artifacts/codeagent-launcher/docker_executor.py:413-416 | The phase never goes back from repair to authoring |
| `Gateway.PostsPerCall` | artifacts/codeagent-launcher/docker_executor.py:464-477 | One call posts at most three times and counts at most one new logical request |
| `Gateway.RelayFromKeeps` | artifacts/codeagent-launcher/docker_executor.py:449-484 | Every call keeps the budget equations, even if the phase is switched between the check and the count |
| `GatewayProgress.PublishedExact` | artifacts/codeagent-launcher/docker_executor.py:1124-1133 | For a request count, phase and two counters read in this order at any moments of any interleaving of single writes: the pair passes the validator exactly when the counters add up to the count and no repair request stands beside the authoring phase |
| `GatewayProgress.PublishedWhole` | artifacts/codeagent-launcher/docker_executor.py:135-163 | When the count was read outside the two writes of a POST: exactly when no phase counter was written between reading the count and reading that counter |
| `GatewayProgress.PublishedPending` | artifacts/codeagent-launcher/docker_executor.py:547-552 | When it was read between the two writes: exactly when the pending write and no other lies before its counter is read, and the phase read suits it |
| `GatewayProgress.CountsWrites` | artifacts/codeagent-launcher/docker_executor.py:547-552 | Along every run each counter is what it was, and one more for each of its writes since |
| `GatewayProgress.RecordKeptExactly` | artifacts/orchestrator/delivery_controller.py:192-199 | For logical requests and retries read after the count at any moments, the reader keeps the record exactly when they include as many writes as were outstanding at the count: one within a POST, none otherwise |
| `GatewayProgress.TornRecord` | artifacts/codeagent-launcher/docker_executor.py:1128-1130 | One POST gives records that the reader drops |
| `GatewayProgress.MixedRecord` | artifacts/codeagent-launcher/docker_executor.py:1128-1130 | A record that missed a logical request is kept when a later retry stands for it |
| `GatewayProgress.TwoReadsExact` | artifacts/orchestrator/delivery_controller.py:189 | A count and a snapshot read at two moments between POSTs are valid together exactly when no POST was counted in between |
| `GatewayProgress.RelayReportsValid` | artifacts/codeagent-launcher/docker_executor.py:409-433 | The relay thread's own reports, which read while nothing is counted, are valid even if the phase is switched meanwhile |
| `GatewayProgress.TornPublications` | artifacts/codeagent-launcher/docker_executor.py:1215-1237 | The main thread's publications can be invalid: a POST counted after the count was read, or the count read between the two writes of a POST |
| `GatewayProgress.TornPhase` | artifacts/codeagent-launcher/docker_executor.py:1124-1133 | So can one whose numbers add up, when the phase is switched while the first repair request is counted |
| `GatewayProgress.CallsReached` | artifacts/codeagent-launcher/docker_executor.py:547-552 | Every run of whole calls is a run of these single writes, with the same counters between the calls |
| `GatewayProgress.SnapshotsValid` | artifacts/codeagent-launcher/docker_executor.py:135-163 | A snapshot and a count taken at one moment between calls are valid together |
| `Gateway.NoReplay` | artifacts/codeagent-launcher/docker_executor.py:449-484 | All frames of a call come from its last attempt and are a prefix of head, chunks, end; the call returns normally exactly when that answer is whole |
| `Gateway.RoundShape` | artifacts/codeagent-launcher/docker_executor.py:561-597 | An attempt that is followed by another one emitted nothing |
| `Gateway.BodyForwarded` | artifacts/codeagent-launcher/docker_executor.py:578-596 | On normal return the chunk bytes concatenate to the upstream body |
| `GatewayRetry.RelayExactly` | artifacts/codeagent-launcher/docker_executor.py:449-484 | A call goes on after an attempt exactly as long as it was made and rejected with a delay within the bound, nobody cancels, and attempts, retries and the phase's requests are not used up; it ends with no error after one whole answer, and otherwise with the error that belongs to its last attempt |
| `GatewayRetry.AnsweredAtOnce` | artifacts/codeagent-launcher/docker_executor.py:464-468 | With budget, a first attempt that is answered whole is the call's answer |
| `GatewayRetry.TriedAgain` | artifacts/codeagent-launcher/docker_executor.py:469-484 | With anything left, a first attempt that is rejected with a delay within the bound is tried again |
| `GatewayRetry.CountsExactly` | artifacts/codeagent-launcher/docker_executor.py:544-552 | A call counts each POST that it sends once, in the phase of that moment, the first as a logical request and every other as a retry |
| `Gateway.OpenAIGateway.ForwardBody` | artifacts/codeagent-launcher/docker_executor.py:580-592 | The read loop emits the longest run of chunks within the response limit and stops at the first that exceeds it |
| `Gateway.OpenAIGateway.TryOnce` | artifacts/codeagent-launcher/docker_executor.py:486-597 | The gateway object refines one attempt: counters, frames and outcome |
| `Gateway.OpenAIGateway.RelayCall` | artifacts/codeagent-launcher/docker_executor.py:449-484 | The gateway object refines the whole call |
| `Gateway.OpenAIGateway.ChangePhase` | artifacts/codeagent-launcher/docker_executor.py:413-416 | The gateway object refines the phase switch and its error |
| `FrameReader.StdoutReader.Feed` | artifacts/codeagent-launcher/docker_executor.py:1205-1211 | One read handles exactly the complete lines of the buffer and keeps the rest, or stops at the limit or the first error |
| `FrameReader.StdoutReader.ReadAll` | artifacts/codeagent-launcher/docker_executor.py:1194-1251 | For every chunking the host handles exactly the newline split of the stream, always when each frame is at most MAX_FRAME - 65536, and whenever the buffer limit is not hit |
| `FrameReader.SplitIsExact` | artifacts/codeagent-launcher/docker_executor.py:1208-1211 | Joining the split lines and the rest gives the stream back |
| `FrameReader.LinesHoldNoNewline` | artifacts/codeagent-launcher/docker_executor.py:1208-1211 | No split line, nor the rest, holds a newline |
| `FrameReader.SplitAppend` | artifacts/codeagent-launcher/docker_executor.py:1205-1211 | Splitting a longer stream only continues from the unfinished line |
| `FrameReader.StreamIsBounded` | artifacts/codeagent-launcher/docker_executor.py:1212-1245 | Over any stream, up to its first error if it has one: at most one result, within the output limit, source candidates only as 0, 1, 2 in order, and at most one relay running |
| `FrameReader.HostAfterIsLongest` | artifacts/codeagent-launcher/docker_executor.py:1194-1251 | The host that these bounds speak of is the one after the longest error-free beginning, which is the whole stream exactly when nothing fails |
| `FrameStream.StreamHandled` | artifacts/codeagent-launcher/docker_executor.py:1212-1245 | A stream is handled without an error exactly when every message fits what came before it, said by position; then the host has done what the messages ask, in order |
| `FrameStream.FirstMisfit` | artifacts/codeagent-launcher/docker_executor.py:1212-1245 | Otherwise the error is the one that belongs to the first message that does not fit, and the host is that of the messages before it |
| `RustProjection.RustCodeProjection` | artifacts/cloud-agent/cloud_agent.py:1571-1664 | The index loop with `copied_through` computes the projection |
| `RustProjection.FindMaskEnd` | artifacts/cloud-agent/cloud_agent.py:1592-1661 | The nested scanning loops find where the mask that starts at a position ends |
| `RustProjection.PositionsKept` | artifacts/cloud-agent/cloud_agent.py:1584-1589 | Length and newlines stay; every position is unchanged or blanked |
| `RustProjection.NothingLeft` | artifacts/cloud-agent/cloud_agent.py:1571-1578 | The output has no `"`, `//` or block comment opening |
| `RustProjection.NoTokenManufactured` | artifacts/cloud-agent/cloud_agent.py:1576-1577 | Text of the output with no blank in it is the source's text at the same place; the scan kept each of its characters, so nothing was masked in between, and scanning from any of them gives the rest of the output |
| `RustProjection.LifetimeStaysOpen` | artifacts/cloud-agent/cloud_agent.py:1642-1661 | A lifetime quote left visible has no closing quote in the output either |
| `RustProjection.Idempotent` | artifacts/cloud-agent/cloud_agent.py:1571-1664 | Projecting twice is projecting once |
| `RustProjection.BackslashKept` | artifacts/cloud-agent/cloud_agent.py:1584-1589 | A backslash right before a kept position is kept, so escape parity survives masking |
| `RustProjection.StringEndExact` | artifacts/cloud-agent/cloud_agent.py:1625-1640 | A string ends at its first quote after an even run of backslashes, or at the end of the file |
| `RustProjection.CharEndExact` | artifacts/cloud-agent/cloud_agent.py:1642-1657 | A character literal closes at the first quote after an even run of backslashes within the window and the line, if there is one |
| `RustProjection.CommentIsNested` | artifacts/cloud-agent/cloud_agent.py:1598-1612 | A block comment closes at a place exactly when the text up to there is one properly nested comment body |
| `RustProjection.RawEnd` | artifacts/cloud-agent/cloud_agent.py:1614-1623 | A raw string ends right after the first quote with as many hashes, or at the end of the file |
| `RustTokens.MaskIsToken` | artifacts/cloud-agent/cloud_agent.py:1591-1661 | The scanner masks from one place to another exactly when one line comment, nested comment, raw, byte or ordinary string, or closed character literal stands there with exactly this extent |
| `RustTokens.ProjectsPieces` | artifacts/cloud-agent/cloud_agent.py:1571-1664 | The projection of a text that is a list of code characters, comments and literals is the same text with exactly the comments and literals blanked |
| `RustTokens.ProjectionIsPieces` | artifacts/cloud-agent/cloud_agent.py:1571-1664 | Every text is such a list, so a text is the projection exactly when it is those pieces, so blanked |
| `RustTokens.OrdinaryIsCode` | artifacts/cloud-agent/cloud_agent.py:1592-1661 | A slash alone, and any character but a slash, a quote, `r` and `b`, begins no comment or literal |
| `PngChunks.ReadChunks` | artifacts/product-integration/capture_native_audit.py:97-136 | The chunk loop with its flags computes `Scan`; the offset only grows |
| `PngChunks.GrammarIsExact` | artifacts/product-integration/capture_native_audit.py:97-136 | The loop accepts bytes exactly when they are the signature and the encoding of a chunk list in the allowed order, and that list is unique |
| `PngChunks.EncodedIsAccepted` | artifacts/product-integration/capture_native_audit.py:100-136 | Every encoded list in the grammar is accepted, with its header, palette flag and concatenated image data |
| `PngChunks.AcceptedIsEncoded` | artifacts/product-integration/capture_native_audit.py:100-136 | Nothing else is accepted |
| `PngChunks.ParseInvertsEncode` | artifacts/product-integration/capture_native_audit.py:101-110 | Reading an encoded chunk gives it back, wherever it stands |
| `PngChunks.EncodingIsInjective` | artifacts/product-integration/capture_native_audit.py:101-110 | Two chunk lists with one encoding are one list |
| `PngChunks.StepFits` | artifacts/product-integration/capture_native_audit.py:111-133 | The loop's flags decide exactly whether a chunk fits what came before it |
| `PngImage.PassesPartition` | artifacts/product-integration/capture_native_audit.py:143-146 | Each pixel lies in exactly one of the seven passes |
| `PngImage.PlaceHasPixel` | artifacts/product-integration/capture_native_audit.py:148-149 | Places of a reduced image and pixels of the picture correspond, inside and outside the bounds |
| `PngImage.PixelHasPlace` | artifacts/product-integration/capture_native_audit.py:143-149 | Each pixel of the picture has its place in the reduced image of its pass |
| `PngImage.AreasSum` | artifacts/product-integration/capture_native_audit.py:143-149 | For all widths and heights the pass areas sum to width times height |
| `PngImage.VisitsExact` | artifacts/product-integration/capture_native_audit.py:149 | The pass size counts exactly the positions below the bound |
| `PngImage.LineSize` | artifacts/product-integration/capture_native_audit.py:151 | A scanline is its filter byte and the fewest bytes that hold its bits |
| `PngImage.CheckFilters` | artifacts/product-integration/capture_native_audit.py:162-167 | The scanline walk reads only filter bytes, in range, ends exactly at the decoded length, and accepts exactly valid filters |
| `PngImage.Scanlines` | artifacts/product-integration/capture_native_audit.py:147-152 | The loop over passes lists the non-empty passes' scanlines and their total |
| `PngImage.PngEvidence` | artifacts/product-integration/capture_native_audit.py:97-169 | A file passes exactly when it encodes a chunk list in the grammar whose header is supported and whose image decodes to valid scanlines |
| `PngHeader.HeaderRoundTrip` | artifacts/product-integration/capture_native_audit.py:114-116 | A payload reads as a header exactly when it is width and height in four bytes each and the five single bytes in order |
| `PngHeader.ColorsExact` | artifacts/product-integration/capture_native_audit.py:139-142 | The bits of the colour type say which colour types exist, their depths, and the samples of a pixel |
| `PngHeader.SupportedExactly` | artifacts/product-integration/capture_native_audit.py:139-141 | The headers let through are those of existing colour types with their depths and palette, and the given methods and sizes |
| `PngHeader.PlainRows` | artifacts/product-integration/capture_native_audit.py:143-152 | A picture that is not interlaced has one line of all its pixels for each row |
| `PngHeader.InterlacedRows` | artifacts/product-integration/capture_native_audit.py:143-152 | An interlaced one has the lines of the seven passes |
| `PngHeader.EachPixelOnce` | artifacts/product-integration/capture_native_audit.py:143-146 | In either case each pixel lies in exactly one of the passes demanded |
| `PngHeader.PlainScreenshot` | artifacts/product-integration/capture_native_audit.py:139-167 | An eight-bit picture with alpha passes exactly when it decodes to its height times four bytes a pixel and one a line, with valid filters |
| `FileQueue.StepKeeps` | artifacts/orchestrator/orchestrator.py:623-874 | Every file operation of submitter and worker, with a crash after any of them, keeps the queue's invariants |
| `FileQueue.PublishedOnce` | artifacts/orchestrator/orchestrator.py:816-851 | At most one run directory is ever published for a key, and a complete receipt comes only after it |
| `FileQueue.NeverWithdrawn` | artifacts/orchestrator/orchestrator.py:737-752 | A published directory is never replaced, a complete receipt never withdrawn, a done task stays done |
| `FileQueue.DoneIsFinal` | artifacts/orchestrator/orchestrator.py:851-852 | A done task is never also ready or processing |
| `FileQueue.OneLiveCopy` | artifacts/orchestrator/orchestrator.py:712-734 | A recovery that was not skipped leaves at most one live copy; a worker that runs the task holds the only one |
| `QueueLoss.LosesExactly` | artifacts/orchestrator/orchestrator.py:623-874 | A step leaves a queued task without a file, and nobody taking it out of the queue, in exactly four ways |
| `QueueLoss.LostSomewhere` | artifacts/orchestrator/orchestrator.py:712-752 | Over every run a lost task was lost in one of these; without them a queued task is ready or processing, or is just being taken out |
| `QueueLoss.EagerWorkerLoses` | artifacts/orchestrator/orchestrator.py:653-700 | A run without a crash that loses a task: a worker starts between the file and its receipt |
| `QueueLoss.HalfQuarantineLoses` | artifacts/orchestrator/orchestrator.py:737-752 | A run that loses one by a stop between moving the file and moving the receipt |
| `QueueLoss.RecoveryRestores` | artifacts/orchestrator/orchestrator.py:712-734 | A recovery that was not skipped puts a task that it finds in processing back to ready, unless a submitter takes it back meanwhile |
| `QueueLoss.WorkerCompletes` | artifacts/orchestrator/orchestrator.py:755-874 | A worker that nobody disturbs completes a queued task, also one left in processing |
| `TwoWorkers.WithdrawnExactly` | artifacts/orchestrator/orchestrator.py:737-775 | Wherever two workers get to with a complete receipt, some continuation withdraws it exactly when a worker read the receipt earlier and has yet to take the task, has a task file to read, works on it or quarantines it; otherwise it stays complete in every continuation |
| `TwoWorkers.ReturnsExactly` | artifacts/orchestrator/orchestrator.py:648-668 | A task with a complete receipt that is neither ready nor processing can be so again exactly when a worker is late in that sense or a submitter had read that there is no receipt |
| `TwoWorkers.TwoPublishOnce` | artifacts/orchestrator/orchestrator.py:816-851 | Two workers still publish at most one directory, never replace it, and complete a receipt only after it |
| `TwoWorkers.TwoWorkersWithdraw` | artifacts/orchestrator/orchestrator.py:737-775 | Such a run: a done task has its complete receipt withdrawn and is made ready again |
| `Digests.SourceTreePreimage` | artifacts/app-builder/common.py:293-301 | The Builder's and Verifier's loop over the sorted records computes the sorted preimage, or fails on a size over eight bytes |
| `Digests.FeedRecords` | artifacts/cloud-agent/cloud_agent.py:2996-3004 | The worker's loop computes the preimage of the records as they come |
| `Digests.EntriesDecode` | artifacts/app-builder/common.py:296-300 | NUL-terminated entries decode back to their records |
| `Digests.SourceTreeExact` | artifacts/app-builder/common.py:293-301 | Two source trees have one preimage exactly when they agree path by path; with distinct names, exactly when they hold the same records |
| `Digests.SortExact` | artifacts/app-builder/common.py:296 | Two lists sort alike exactly when their records of each path are the same in the same order |
| `Digests.WorkerAgrees` | artifacts/cloud-agent/cloud_agent.py:2992-3004 | The non-sorting digest equals the sorting one exactly on sorted records, and any order of the same distinct records gives the same sorted preimage |
| `Digests.PackagePreimage` | artifacts/app-builder/common.py:304-326 | The package loops compute the preimage of the manifest text and the sorted descriptors, or fail where a length does not fit |
| `Digests.PackageDecodes` | artifacts/app-builder/common.py:316-326 | A package preimage decodes to its manifest text and its sorted descriptors |
| `Digests.PackageExact` | artifacts/app-builder/common.py:304-326 | Two packages share a preimage exactly when manifest text and descriptors, path by path, are the same |
| `ByteStrings.BytesRoundTrip` | artifacts/app-builder/common.py:319 | Fixed-width big-endian numbers and byte strings correspond one to one |
| `BumpAllocator.BumpAllocator.Alloc` | artifacts/local-codeagent/guest_template.rs:62-78 | The 32-bit code, with its mask and wrapping page count, computes the allocation of unbounded arithmetic |
| `BumpAllocator.MaskIsRoundUp` | artifacts/local-codeagent/guest_template.rs:65-67 | Adding and masking rounds up to the next multiple of the alignment |
| `BumpAllocator.MaskRoundsDown` | artifacts/local-codeagent/guest_template.rs:66 | Masking with a word whose low k bits are clear rounds down to a multiple of 2^k |
| `BumpAllocator.PageCountExact` | artifacts/local-codeagent/guest_template.rs:71-75 | The page count covers `end` exactly when the rounding addition does not wrap |
| `BumpAllocator.OnePageSuffices` | artifacts/local-codeagent/guest_template.rs:71-75 | With at least one page the count is exact |
| `BumpAllocator.NoPageWraps` | artifacts/local-codeagent/guest_template.rs:73 | With no page the count can wrap to zero |
| `BumpAllocator.BlocksDisjoint` | artifacts/local-codeagent/guest_template.rs:62-78 | Over every request sequence from a fresh heap, blocks are aligned, pairwise disjoint and inside memory |
| `BumpAllocator.NextGrows` | artifacts/local-codeagent/guest_template.rs:62-78 | Between any two moments of a run the next pointer and the memory only grow |
| `BumpAllocator.AllocateKeeps` | artifacts/local-codeagent/guest_template.rs:62-78 | A null return leaves the heap unchanged; a block begins at or after the next pointer, which becomes its end |
| `BumpAllocator.GivenExactly` | artifacts/local-codeagent/guest_template.rs:62-78 | A request gets a block exactly when some aligned place from the next pointer on has room below the limit, or below the present end when the host grants no more; it gets the first such place |
| `Manifest.ValidateHandoff` | artifacts/app-builder/app_builder.py:770-860 | The loop over entrypoints and the target checks, contract, WASI and Rust target included, accept exactly the valid handoffs |
| `Manifest.CheckManifest` | artifacts/app-builder/verifier.py:264-389 | The contract checks and the loops over profiles, entrypoints and capabilities, with their texts, accept exactly the valid manifests |
| `Manifest.VerifyManifest` | artifacts/app-builder/verifier.py:559-576 | The comparison with the receipt accepts exactly manifests with the receipt's required capabilities and entrypoint projection |
| `Manifest.BuiltIsAccepted` | artifacts/app-builder/app_builder.py:1062-1142 | Every valid handoff becomes a manifest the Verifier accepts with the Builder's receipt |
| `Manifest.EntriesRoundTrip` | artifacts/app-builder/verifier.py:514-529 | The Verifier's projection of the built entrypoints is the Builder's, a legacy service being manual |
| `Manifest.CapabilitiesRoundTrip` | artifacts/app-builder/app_builder.py:963-1019 | The built capabilities pass the Verifier's checks and their required set is the handoff's |
| `Manifest.AcceptedIsBuilt` | artifacts/app-builder/verifier.py:532-576 | A manifest accepted with a receipt is the built one: entrypoints up to the health interval, capabilities interface by interface up to their texts and scopes |

## Left out

- Real input and output: subprocess supervision, sockets, TLS, resource sampling, file metadata checks, fsync and short writes. Files are maps with atomic rename and exclusive creation, locks are owned by processes and die with them.
- `LocalAIGateway`, which overrides the relay for a local endpoint, and the connect retry before the first POST.
- Request and response text: the budget notice, retry headers as text, base64 and JSON. A `Retry-After` header is a delay or none.
- Gateway.RelayFromKeeps: counting updates all counters at once there; GatewayProgress splits a count into its three writes, with phase switches and reads between any two of them.
- GatewayProgress.PublishedExact: one relay thread counts at a time, which the reader of the container's output enforces; each single read and write is atomic.
- DockerAdmission.LiveWorkersBounded: each name is launched once, as one state root enforces, and any process may clean up any name; identity mismatches of labels and images are stops, not separate errors.
- DockerRoots.TwoLaunchesAreBounded: a recovery goes on as the process of the root it recovers, since it runs only when that process has ended and under the attempt's lock; a create is not answered while it is outstanding.
- DockerAdmission: progress after a reservation became uncertain, which the code deliberately does not offer.
- HostBudget.ScanSlots: one pass over the slots; waiting and cancellation between passes, and the checks of lock files, are left out.
- AuthorAdmission.ConsentSpentOnce: provider identity, workspaces and handoff contents are not part of the model; a failure at any step is one event.
- Launcher: the JSON views of a job. Cancellation is not sticky in the code, and nothing is claimed about it.
- FrameReader.StdoutReader.ReadAll: stderr, cancellation, the deadline and the writes to the container are other reasons to stop and are not modelled; which helper threads have ended is a parameter.
- FileQueue.StepKeeps: one worker process is alive at a time and a submitter's lock is broken only after its holder stopped, so the 30 and 60 second staleness rules are not covered; the state is that of one key, and the `attempts` directory is not tracked.
- TwoWorkers.WithdrawnExactly: two workers and one submitter at a time; which ready task a worker without a key picks is not part of the state.
- Digests.WorkerAgrees: `record["size_bytes"]` is a natural number, so a negative size is not an error case; a digest is 32 bytes.
- PngImage.PngEvidence: the file's size, ownership and stability checks before the bytes are read.
- BumpAllocator.BumpAllocator.Alloc: `__heap_base` is positive, at least one page exists and the host grants no more than 64 MiB; `dealloc` does nothing.
- Manifest.BuiltIsAccepted: the sections of the manifest that are the same for every handoff, the shape of JSON objects, the browser derivation and the source files of the handoff; which strings the identifier pattern accepts is a parameter.
- Manifest.AcceptedIsBuilt: the world and the profiles are not in the compared part of the receipt, so they are assumed to be the handoff's.
- Regex classifiers over prose, prompts, provider identity, sandbox profiles, command lines and demos.
