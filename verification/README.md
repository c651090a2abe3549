# Owlmatic, verified

A Dafny model of Owlmatic's hard parts, and proofs of what they promise. Owlmatic runs
registered workflows on behalf of agents: it records every invocation in SQLite, lets one worker
claim it under a 30-second lease, runs the workflow behind a guardian process, verifies the
evidence, finalizes the run in crash-repeatable steps, redacts and bounds what it logs, exports
usage snapshots through an outbox, and accounts for tokens. To verify, run
`dafny verify dfyconfig.toml`.

## What is modelled

| files | subject |
|---|---|
| `Domain`, `Verification`, `WorkflowEvidence` | run records, the rule that says which are legal, the evidence policy and the cleaning of evidence, the supervisor's conclusion |
| `RunStore`, `RunHistory`, `RunRepository` | the run and lock tables: each transaction as a function, what holds over all histories, and the repository object |
| `Handshake`, `GuardStatus` | the launch of a workflow: worker, guardian and gated child over three pipes and an inherited lock, with kills; the bytes of the status pipe |
| `Protocol`, `ProtocolInvariant`, `ProtocolSafety`, `Settlement`, `ProtocolScenarios` | the whole system as a state machine: any number of submitters, workers with their guardians and children, recoverers, reconcilers and retention, crashing anywhere |
| `Artifacts`, `Recovery` | the files of a run and the finalization, recovery and reconciliation service |
| `Redaction`, `LogStream`, `RedactionOrder`, `StreamingExactness` | streaming redaction against redaction of the whole stream, and exactly when they agree |
| `Outbox`, `OutboxHistory`, `OutboxRetries`, `OutboxDelivery` | the single-slot export outbox with crashes, its retries, the watcher, and what is delivered for good |
| `Measurement`, `Ledger`, `Estimation`, `EstimationFigures`, `Usage`, `UsageTables` | measurement records, the ledger, the conservative estimate and its figures, usage from cumulative counters, turns and messages |
| `Statistics`, `StatisticsFigures` | the savings report, its two groupings and its figures |
| `Heartbeats`, `Monitoring`, `MonitorVerdict`, `Monitor` | the deployment monitor against arbitrary services and clocks, and exactly when it says what |

Each SQLite transaction is one atomic step. A crash is a process that takes no further step, or an
operation that performs only a beginning of its effects. What the code does by loops and updates is
written as methods and classes and proved equal to a function; the theorems are about the functions
and the state machines.

The central result is `ProtocolSafety.OneWorkflowPerResource`: leases expire, workers, guardians and
recoverers crash, runs are retried and reconciled, in any interleaving, and still no two workflow
processes are ever alive under one resource key. It rests on an invariant that joins the tables, the
activity locks and the launch handshake (`ProtocolInvariant.StepKeepsInv`).

## Where the code does less than one might expect

* "Settled means that the stored result is the record and no private input is left" is not true of
  every interleaving. A submitter that stalls for more than a lease between creating a run and
  `prepare` writes job, inputs and the result of the still active run after the run was expired and
  settled. Finalizing again does not repair them, and only retention removes them
  (`ProtocolScenarios.LatePrepareStays`). `Settlement.SettledFilesExactlyWhen` is the exact
  condition: the result is the record if and only if the submitter wrote none since the settling
  finalizer saved it, and an input is left if and only if the submitter wrote it since that
  finalizer removed it. So both hold when all of `prepare` came before the run ended
  (`ProtocolSafety.SettledMeansProjected`).
* Evidence for required checks is counted by name. It always makes a legal record if and only if no
  required name is repeated (`Verification.AlwaysLegalExactlyWhenDistinct`); bundle loading sees to it.
* A secret can survive redaction where it overlaps the marker `[REDACTED]` that another one leaves,
  as `RED` or `]x` can. It is hidden in every text by every list if and only if it cannot
  (`Redaction.HiddenExactlyWhenClear`), which is a test on the secret alone; a particular list may
  hide it all the same (`Redaction.PartHidesWhole`).
* Streaming redaction is not always redaction of the whole stream. The loops that move the cut take
  the secrets in the order in which they are replaced and do not look back, so an overlap spoils the
  cut where a secret ends the way it or a later one begins, and only there: `abcd` and `zab`, in this
  order, do no harm. `StreamingExactness.ExactExactlyWhen` is the exact condition.
* Such an overlap can even leave a whole secret in the record, across two lines, that redaction of
  the whole stream would have hidden (`StreamingExactness.SecretIsRevealed`). A secret of more
  than one character can be put in that position by two others, if it leaves out some character,
  and a single character cannot
  (`StreamingExactness.KeptOutExactlyWhenCharacter`). Of secrets that cannot overlap a
  marker no single line contains one (`LogStream.EachLineHides`), and none is left across lines that
  does not end the way it or a later one begins (`StreamingExactness.NeverMeetsIsKeptOut`).
* The documented bound on automatic delivery attempts does not survive every crash. An attempt is
  counted when its answer is saved, so each answer that a crash loses allows one more
  (`OutboxRetries.RetriesAreBounded`), and with enough of them there is no bound
  (`OutboxRetries.LostAnswersDefeatTheBound`).
* The usage of two adjacent selections of a history can be known where that of both together is not:
  exactly when the count between them lacks a category that both ends know
  (`Usage.UsageTelescopesExactlyWhen`).
* Accepted evidence can end as an execution error. Redaction lengthens names, and what is cleaned is
  validated again, so it is stored exactly when no cleaned name is too long
  (`Verification.AcceptedIsStoredExactlyWhen`).
* Cleaning an output object loses members exactly when their redacted keys run together
  (`WorkflowEvidence.CleanKeepsMembersExactlyWhen`).
* In the monitor's rollout loop the pause is computed from a fresh clock reading and can be negative,
  which raises an error the loop does not handle. It is, exactly when the timeout passes between two
  readings (`Monitor.CrashedExactlyWhen`), and that can happen on the first look already
  (`Monitor.NegativePauseHappens`). The pauses of the observation loop are always positive.

## Model

| member | source | states |
|---|---|---|
| `Domain.Finish` | src/owlmatic/domain.py:211-244 | the typed transition is refused as such exactly on a terminal run, and what it gives is a legal terminal record of the same invocation |
| `Domain.FailureEndingIsLegal` | src/owlmatic/domain.py:192-208 | any active run can be closed with an error: a failure ending is always legal |
| `Verification.AcceptedExactlyWhen` | src/owlmatic/verification.py:8-31 | evidence is accepted exactly when it belongs to the run, names no check twice, fits the schema, comes with exit code 0 or 1, and its outcome is backed: a pass by exit code 0, every required check, no failed check and certain effects, a failure by a failed check |
| `Verification.RefusedExactlyWhen` | src/owlmatic/verification.py:11-31 | which refusal evidence gets, and when: foreign before repeated before ill-formed evidence, then an outcome without its backing, and last the exit code |
| `Verification.CountIsNumber` | src/owlmatic/verification.py:32-37 | the count of a status is how many of the checks have it |
| `Verification.CountsPartition` | src/owlmatic/verification.py:32-37 | passed, failed and skipped checks are together all checks |
| `Verification.RequiredAreCounted` | src/owlmatic/verification.py:18-24 | distinct required names that all pass are at most as many as the passing checks |
| `Verification.AcceptedEvidenceLegality` | src/owlmatic/verification.py:8-37 | accepted evidence builds a legal terminal record if and only if a pass has at least as many passing checks as required names |
| `Verification.AcceptedEvidenceIsLegal` | src/owlmatic/infrastructure/bundles.py:74-75 | with the distinct required names that bundle loading enforces, accepted evidence always builds a legal terminal record |
| `Verification.RepeatedRequiredNameBreaksPass` | src/owlmatic/infrastructure/bundles.py:74-75 | for every list that repeats a name there is accepted evidence, one passing check for each name, whose record is not legal |
| `Verification.AlwaysLegalExactlyWhenDistinct` | src/owlmatic/infrastructure/bundles.py:74-75 | all evidence accepted for a list of required names makes a legal record if and only if the list repeats no name |
| `Verification.StoredEvidenceHides` | src/owlmatic/supervisor.py:19-43 | what is stored of the evidence is of the same run, outcome and effects, has as many checks of each status, and holds no secret that cannot overlap a marker in any check name, key or text |
| `WorkflowEvidence.CleanHides` | src/owlmatic/supervisor.py:25-36 | after cleaning no such secret occurs in the output, at any depth, in keys or texts |
| `WorkflowEvidence.CleanIsWellFormed` | src/owlmatic/supervisor.py:32-36 | whatever the redacted keys run into, every object in the cleaned output has distinct keys |
| `WorkflowEvidence.CleanLeavesTheRest` | src/owlmatic/supervisor.py:20-34 | output that holds no secret is left alone |
| `WorkflowEvidence.CleanTwice` | src/owlmatic/supervisor.py:20-34 | cleaning twice is cleaning once |
| `WorkflowEvidence.CleanKeepsMembersExactlyWhen` | src/owlmatic/supervisor.py:32-36 | an object keeps all its members if and only if its redacted keys are distinct |
| `Verification.SupervisorAlwaysConcludes` | src/owlmatic/supervisor.py:85-167 | however the execution goes, the supervisor ends with a legal terminal record of the same invocation; it is completed only on accepted evidence of this run, with the cleaned outputs, a pass has all its required checks, and what failed after launch keeps the declared effects |
| `Verification.CompletedIsTheEvidence` | src/owlmatic/supervisor.py:129-141 | a completed record has the outcome and effects of the evidence, the number of its checks of each status beside the number required, the given end and duration, no error and an uncut log |
| `Verification.StoppedTellsWhy` | src/owlmatic/supervisor.py:142-163 | any other record is inconclusive and says why: it has no effects exactly if the attempt was stopped before launch and else the declared ones, is cancelled exactly for that error, and marks its log as cut exactly for the output limit |
| `Verification.AcceptedIsStoredExactlyWhen` | src/owlmatic/supervisor.py:129-162 | accepted evidence completes the run if and only if no name of a check is longer than 256 characters, or empty, after cleaning; otherwise the run ends in error with its declared effects |
| `Verification.RedactedNameTooLong` | src/owlmatic/supervisor.py:36-36 | redaction can make a name of 26 characters too long |
| `RunStore.ApplyByRow` | src/owlmatic/infrastructure/run_repository.py:43-133 | each transaction changes the row it concerns as the row-wise reading says and no other row; the lease transactions succeed exactly when the row lets them |
| `RunStore.ApplyKeepsValid` | src/owlmatic/infrastructure/run_repository.py:18-178 | every transaction keeps the tables valid: legal records, an owner only on an active run, a pending mark only on a terminal one, unique request ids, locks that name existing runs |
| `RunStore.DeletionIsSafe` | src/owlmatic/infrastructure/run_repository.py:172-178 | deletion takes a run only if it is terminal, settled and holds no lock, and takes nothing else |
| `RunStore.CreationLeaves` | src/owlmatic/infrastructure/run_repository.py:18-41 | a creation inserts its run exactly if nobody has the id, the request or the key: beating from the moment of creation, unowned, not pending, with its request, its key locked for it alone, and all else as before; otherwise the tables stay |
| `RunStore.CreationAnswers` | src/owlmatic/infrastructure/run_repository.py:22-36 | a known request is answered with its run or a conflict, a taken key with busy, anything else with the run unless the tables refuse it |
| `RunStore.LeaseAnswers` | src/owlmatic/infrastructure/run_repository.py:66-116 | claim, heartbeat and commit answer as the 30-second lease of an active run demands, name what was wrong, and change nothing when refused |
| `RunStore.ReadingLeaves` | src/owlmatic/infrastructure/run_repository.py:43-64 | a read closes an active run that is overdue as lost, with its declared effects, without owner and pending; any other read changes nothing |
| `RunStore.SettlingLeaves` | src/owlmatic/infrastructure/run_repository.py:122-133 | settling succeeds exactly on a terminal run, clears its mark and nothing else of it, and frees exactly its locks exactly when told to |
| `RunStore.FreeingLeaves` | src/owlmatic/infrastructure/run_repository.py:135-143 | freeing a resource succeeds exactly on a terminal, settled run, whatever its effects; then no key is locked for it and every other lock and row stays |
| `RunHistory.HistoriesExist` | src/owlmatic/infrastructure/run_repository.py:18-178 | any transactions from valid tables have a history, with valid tables throughout |
| `RunHistory.UsesLeaseMeansSucceeds` | src/owlmatic/infrastructure/run_repository.py:66-116 | claim, heartbeat and commit succeed exactly on an active run with the right owner and a heartbeat at most 30 s old |
| `RunHistory.StagesGrow` | src/owlmatic/infrastructure/run_repository.py:43-133 | while it exists a run only moves from unclaimed to owned, to terminal, to settled |
| `RunHistory.ClaimedOnce` | src/owlmatic/infrastructure/run_repository.py:66-80 | of two successful claims of one id the run was deleted in between |
| `RunHistory.TerminalIsFinal` | src/owlmatic/infrastructure/run_repository.py:82-116 | after a terminal commit or expiry the record never changes until deletion and no claim, heartbeat or commit succeeds |
| `RunHistory.InvocationIsConstant` | src/owlmatic/domain.py:225-244 | run, workflow, profile, purpose, target, start time, evidence reference, request id and fingerprint never change |
| `RunHistory.RepeatedRequest` | src/owlmatic/infrastructure/run_repository.py:18-41 | once a run was created for a request id, repeating the request gives back that run and creates nothing, as long as it exists; another invocation under the id is refused |
| `RunHistory.LeaseIsKept` | src/owlmatic/infrastructure/run_repository.py:37-116 | under a clock that never goes back, a worker that claims within 30 s of the creation of its run, the time stored by that creation, and beats at gaps of at most 30 s is never expired, whatever reads and recoveries interleave |
| `RunHistory.FreshRunIsClaimableExactlyWhen` | src/owlmatic/infrastructure/run_repository.py:37-80 | an unclaimed run lives for exactly 30 s from its creation: until then a read gives it back unchanged and a claim succeeds, after that the first read finds the worker lost and a claim fails |
| `RunHistory.HeartbeatIsLastSign` | src/owlmatic/infrastructure/run_repository.py:37-116 | the stored heartbeat is the last sign of life: the creation, or the latest claim, heartbeat or commit let through |
| `RunHistory.BeatsSucceed` | src/owlmatic/infrastructure/run_repository.py:66-116 | and each of its claims and heartbeats succeeds |
| `RunHistory.LeaseIsGone` | src/owlmatic/infrastructure/run_repository.py:72-116 | once more than 30 s have passed since the last sign of life, be it the creation, no later claim, heartbeat or commit succeeds, even if nobody has read the run, and whoever reads it finds it ended |
| `RunHistory.OnlyTheClaimantActs` | src/owlmatic/infrastructure/run_repository.py:66-116 | whoever renews the lease of a run, or commits under an owner's name, has claimed it since its creation |
| `RunHistory.CommitStays` | src/owlmatic/infrastructure/run_repository.py:82-133 | a committed record is the one read from then on until deletion, and it is pending exactly until somebody settles it |
| `RunRepository.SqliteRuns.Create` | src/owlmatic/infrastructure/run_repository.py:18-41 | inserts the run, beating from now, and its lock exactly if nobody has the id, the request or the key; otherwise it gives back the run of a repeated request or raises, and leaves the tables as they were |
| `RunRepository.SqliteRuns.Get` | src/owlmatic/infrastructure/run_repository.py:43-64 | reads a run and first expires an overdue one |
| `RunRepository.SqliteRuns.Claim` | src/owlmatic/infrastructure/run_repository.py:66-80 | expires, then takes a free and live lease, in two transactions |
| `RunRepository.SqliteRuns.Finish` | src/owlmatic/infrastructure/run_repository.py:82-106 | commits record and pending mark together, for the lease holder only |
| `RunRepository.SqliteRuns.Heartbeat` | src/owlmatic/infrastructure/run_repository.py:108-116 | renews the lease of its holder only |
| `RunRepository.SqliteRuns.Settled` | src/owlmatic/infrastructure/run_repository.py:122-133 | clears the pending mark of a terminal run and frees its lock if told so |
| `RunRepository.SqliteRuns.ReleaseResource` | src/owlmatic/infrastructure/run_repository.py:135-143 | succeeds exactly on a terminal, settled run, and then no key is locked for it and every other lock is as before |
| `RunRepository.SqliteRuns.Pending` | src/owlmatic/infrastructure/run_repository.py:152-161 | returns exactly the oldest `limit` runs of the backlog, ordered by heartbeat and id |
| `RunRepository.SqliteRuns.Delete` | src/owlmatic/infrastructure/run_repository.py:172-178 | performs the guarded deletion |
| `Artifacts.FileArtifacts.ScrubInputs` | src/owlmatic/infrastructure/files.py:133-142 | tries every private file whatever failed before, and succeeds exactly when none failed |
| `Artifacts.AllScrubbed` | src/owlmatic/infrastructure/files.py:133-142 | the three names it scrubs are all private files there are |
| `GuardStatus.ChunksDoNotMatter` | src/owlmatic/infrastructure/process.py:28-42 | however the pipe cuts the status into pieces, the worker reads the same process id and result from it, or fails the same |
| `GuardStatus.FeedLeavesNoLine` | src/owlmatic/infrastructure/process.py:32-42 | no complete line is left unread, at most 256 bytes are accepted, a reported process id is above 1 and never replaced |
| `GuardStatus.WrittenIsRead` | src/owlmatic/infrastructure/process.py:28-42 | what was written is what is read, however it arrives: accepted exactly within 256 bytes, all ASCII, and with one real process at most; then the process its line names and the last other line |
| `GuardStatus.Reader.Feed` | src/owlmatic/infrastructure/process.py:28-42 | the loop over the lines computes the specified status |
| `Handshake.MovesKeepGood` | src/owlmatic/infrastructure/process_guardian.py:53-123 | the invariant of the three processes and their pipes is inductive, kills included |
| `Handshake.LaunchGate` | src/owlmatic/infrastructure/process_guardian.py:112-123 | workflow code starts only through the gate, once, after the worker has recorded the child and the guardian has forwarded the acknowledgement |
| `Handshake.ProbeTakesNothing` | src/owlmatic/infrastructure/process_guardian.py:60-65 | the guardian's first look at the control pipe never swallows an acknowledgement |
| `Handshake.NoActivityMeansNobody` | src/owlmatic/infrastructure/run_guard.py:23-49 | when no copy of the activity descriptor is left, the worker is out of `execute`, and guardian and primary child are gone |
| `Handshake.ExecutionIsGood` | src/owlmatic/infrastructure/process.py:69-198 | the invariant holds throughout every execution |
| `Handshake.LostLaunchNeverRuns` | src/owlmatic/infrastructure/process_guardian.py:78-120 | if the worker goes before it acknowledged, or the guardian before it forwarded that, the workflow never runs, then or later |
| `Handshake.ReturnedMeansDead` | src/owlmatic/infrastructure/process.py:105-127 | when `execute` returns an exit code it is the dead child's code, worker, guardian and child are gone, and nothing happens in that execution afterwards |
| `Handshake.OrdinaryExecution` | src/owlmatic/infrastructure/process.py:69-112 | the protocol does launch: for any exit code there is an execution without kills that runs the workflow and returns the code |
| `ProtocolInvariant.StepKeepsInv` | src/owlmatic/supervisor.py:74-83 | the invariant of the whole system (submitters, workers, guardians, children, recoverers, reconcilers, retention, crashes) is inductive |
| `ProtocolSafety.LiveWorkflowKeepsItsResource` | src/owlmatic/infrastructure/run_repository.py:66-143 | in every reachable state a live workflow's resource key is locked for its run and the run is not settled, even after lease expiry made it terminal |
| `ProtocolSafety.OneWorkflowPerResource` | src/owlmatic/supervisor.py:74-83 | two live workflow processes under one resource key are one, end to end |
| `ProtocolSafety.OneWorkflowPerRun` | src/owlmatic/supervisor.py:74-83 | no run ever has two live workflow processes |
| `ProtocolSafety.ExclusiveMeansStopped` | src/owlmatic/infrastructure/run_guard.py:38-49 | whoever holds the exclusive activity lock of a run finds no worker in its guarded part, no guardian and no child of that run |
| `ProtocolSafety.UnfinishedRunOwnsItsKey` | src/owlmatic/infrastructure/run_repository.py:122-143 | a keyed run that is running, pending, or terminal with partial or unknown effects and not reconciled owns its key |
| `ProtocolSafety.OneUnfinishedRunPerKey` | src/owlmatic/infrastructure/run_repository.py:31-36 | two such runs under one key are one |
| `ProtocolSafety.LocksNameTheirRuns` | src/owlmatic/infrastructure/run_repository.py:31-36 | every lock names an existing run that was created with that key |
| `ProtocolSafety.SettledMeansProjected` | src/owlmatic/recovery_service.py:16-38 | a settled run's stored result is the authoritative record and no private input is left, if every submitted write came before the run ended |
| `ProtocolSafety.TableHistory` | src/owlmatic/infrastructure/run_repository.py:18-178 | every behaviour of the system is a history of transactions on its tables |
| `ProtocolSafety.OneClaimEver` | src/owlmatic/infrastructure/run_repository.py:66-80 | over any behaviour at most one claim of a run ever succeeds |
| `ProtocolSafety.DeletedForGood` | src/owlmatic/execution_service.py:173-186 | a deleted run never comes back |
| `ProtocolSafety.LateInputStays` | src/owlmatic/recovery_service.py:16-46 | an input that lies beside a settled run is never removed by recovery |
| `ProtocolSafety.LeftoverWasLate` | src/owlmatic/execution_service.py:106-106 | such an input was written after the run had ended |
| `ProtocolSafety.LeftoverExactlyWhen` | src/owlmatic/infrastructure/files.py:65-71 | from a settled state on, and untouched by retention, an input lies beside the run if and only if it lay there in that state or the submitter has written it since |
| `Settlement.SettledFilesExactlyWhen` | src/owlmatic/recovery_service.py:25-38 | for every settled run that retention has not touched there are a settling finalizer, its save and its three removals; the stored result is the record if and only if the submitter has not written its own since the save, and each private file is there if and only if the submitter has written it since its removal |
| `Settlement.InputSince` | src/owlmatic/infrastructure/files.py:133-142 | after a finalizer has removed a private file, the file is there if and only if the submitter has written it since |
| `Settlement.ResultSince` | src/owlmatic/infrastructure/files.py:65-78 | after a finalizer has saved the result, it is the stored one unless the submitter has written its own, of the still active run, since |
| `ProtocolScenarios.LatePrepareStays` | src/owlmatic/execution_service.py:99-112 | "settled means that the result is stored and no input is left" fails for every run whose submitter stalls past the lease before `prepare`: its inputs and the result of the active run stay, and finalizing again repairs nothing |
| `ProtocolScenarios.LiveAfterExpiry` | src/owlmatic/infrastructure/run_guard.py:38-49 | mutual exclusion is not vacuous: for every run and key there is a behaviour in which the workflow runs on after its lease has expired and its record is terminal; then nobody can begin to finalize or reconcile it and another submission under the key is refused |
| `ProtocolScenarios.FinalizerRefinesService` | src/owlmatic/recovery_service.py:16-38 | an uninterrupted finalizer of the system computes what the sequential specification says |
| `ProtocolScenarios.OrdinaryRun` | src/owlmatic/supervisor.py:74-83 | nothing stands in the way of an ordinary run: for every run, key and legal record there is a behaviour in which it is submitted, claimed, executed with any exit code, committed and settled, with the record repeated in its file, no input left, nobody at work, and the key locked exactly if effects are uncertain |
| `Recovery.FinalizeCompletes` | src/owlmatic/recovery_service.py:16-38 | a complete attempt on a run that owes finalization stores its record, removes all private inputs, settles it, and frees its key exactly when its effects are certain |
| `Recovery.FinalizeAnswers` | src/owlmatic/recovery_service.py:16-38 | in every case: active exactly when the run was busy, pending exactly when it was busy, is still alive, or something due raised, and nothing changes where nothing is due |
| `Recovery.FinalizeLeaves` | src/owlmatic/recovery_service.py:20-38 | a run that was due, overdue ones included, is left ended with its effects, settled with its result saved and its inputs removed exactly if nothing raised, its key freed exactly if besides its effects are certain |
| `Recovery.FaultsLeavePending` | src/owlmatic/recovery_service.py:25-38 | an attempt with faults settles nothing, reports which part failed, and has done the other part |
| `Recovery.AttemptsLeavePending` | src/owlmatic/recovery_service.py:25-38 | any number of attempts stopped anywhere leave the pending mark set |
| `Recovery.RerunConverges` | src/owlmatic/recovery_service.py:16-38 | after any such attempts a complete one reaches the same state as if it had been the first |
| `Recovery.FinalizeIsIdempotent` | src/owlmatic/recovery_service.py:20-24 | finalizing a settled run changes nothing |
| `Recovery.RecoverAllSettles` | src/owlmatic/recovery_service.py:40-46 | a round fences every run it touches and settles exactly the idle ones without faults |
| `Recovery.ReportIsTrue` | src/owlmatic/recovery_service.py:40-46 | what a round reports of a run is what it left: pending, active, and which part raised |
| `Recovery.BatchIsOldest` | src/owlmatic/infrastructure/run_repository.py:152-161 | a batch is the oldest of all runs that have something left to do, and all of them if it is not full |
| `Recovery.RoundShrinksBacklog` | src/owlmatic/recovery_service.py:40-46 | without faults or guards a round takes min(n, 100) runs out of a backlog of n |
| `Recovery.RoundsDrain` | src/owlmatic/recovery_service.py:40-46 | a backlog of n runs is drained by ceil(n / 100) rounds and by no fewer |
| `Recovery.ReconcileReleases` | src/owlmatic/recovery_service.py:48-55 | reconciliation succeeds only on an idle, settled run and then frees exactly that run's resource |
| `Recovery.ReconcileSucceedsExactlyWhen` | src/owlmatic/recovery_service.py:48-55 | reconciliation succeeds exactly when both locks are free, the run has ended or is overdue, and nothing raised if something was due, whatever its effects; then it is settled, no key is locked for it, and every other lock and row is as before; each refusal has its reason |
| `Recovery.RecoveryService.Finalize` | src/owlmatic/recovery_service.py:16-38 | the method performs the specified finalization on repository and artifacts |
| `Recovery.RecoveryService.Recover` | src/owlmatic/recovery_service.py:40-46 | the loop performs the specified round on the oldest 100 runs |
| `Recovery.RecoveryService.Reconcile` | src/owlmatic/recovery_service.py:48-55 | the method performs the specified reconciliation, succeeds exactly then, and leaves no key locked for the run and every other lock as before |
| `Redaction.Find` | src/owlmatic/infrastructure/logs.py:26-30 | the first occurrence at or after an offset |
| `Redaction.ReplaceSplits` | src/owlmatic/infrastructure/logs.py:31-33 | replacement respects a cut that no occurrence straddles |
| `Redaction.ReplaceKeepsCut` | src/owlmatic/infrastructure/logs.py:31-33 | replacing one secret makes no other secret straddle the cut |
| `Redaction.RedactAllSplits` | src/owlmatic/infrastructure/logs.py:31-33 | the two sides of a safe cut can be redacted separately |
| `Redaction.ClearMeansDisjoint` | src/owlmatic/infrastructure/logs.py:31-33 | the test on a secret, that it differs from the marker wherever it is laid over it, holds if and only if it shares no byte with a marker in any text |
| `Redaction.RedactAllHides` | src/owlmatic/infrastructure/logs.py:32-33 | the redacted text does not contain a secret that cannot overlap a marker, whatever the other secrets are |
| `Redaction.HiddenExactlyWhenClear` | src/owlmatic/infrastructure/logs.py:32-33 | a secret that leaves out at least one byte value, as all text does, is hidden in every text by every list it is on if and only if it cannot overlap a marker |
| `Redaction.PartHidesWhole` | src/owlmatic/infrastructure/logs.py:32-33 | a given list may still hide a secret that can overlap a marker, if it hides a part of it |
| `Redaction.NeverOverlapMeansSeparated` | src/owlmatic/infrastructure/logs.py:25-30 | occurrences are separated in every text if and only if no secret properly begins as it or another one properly ends |
| `Redaction.CutForAllSpares` | src/owlmatic/infrastructure/logs.py:25-30 | the cut the loops end with splits no occurrence of a secret that neither itself nor a later secret overruns, whatever the others do |
| `Redaction.CutForAllIsSafe` | src/owlmatic/infrastructure/logs.py:25-30 | if no secret is overrun by itself or a later one, the cut splits no occurrence of any secret |
| `Redaction.NeverMeetMeansApart` | src/owlmatic/infrastructure/logs.py:25-30 | no secret is so overrun in any text if and only if none properly ends the way it or a later one properly begins |
| `Redaction.CutForAllIsLargest` | src/owlmatic/infrastructure/logs.py:25-30 | and no safe position up to the wanted cut is passed over |
| `LogStream.Ordered` | src/owlmatic/infrastructure/logs.py:16-16 | the secrets without duplicates and the empty one, longest first in characters |
| `LogStream.Keep` | src/owlmatic/infrastructure/logs.py:17-17 | one byte less than the longest secret is enough to hold back |
| `LogStream.KeepIsNeeded` | src/owlmatic/infrastructure/logs.py:17-17 | and no more is held back than that secret needs |
| `LogStream.CutSpares` | src/owlmatic/infrastructure/logs.py:22-31 | no byte still to come can complete a secret that begins before the cut, and the cut splits no secret that neither itself nor a later one overruns |
| `LogStream.CutIsSafe` | src/owlmatic/infrastructure/logs.py:22-31 | if none is so overrun in the stream, the cut splits no occurrence in the whole stream |
| `LogStream.StreamingRefinesWhole` | src/owlmatic/infrastructure/logs.py:22-43 | for every chunking and interleaving that ends in a final write, the recorded text of a stream in which no secret is overrun by itself or a later one is the redaction of the whole stream |
| `LogStream.RecordedIsPrefix` | src/owlmatic/infrastructure/logs.py:35-43 | under the same condition, broken off or stopped by the limit, the recorded text is the beginning of that redaction |
| `LogStream.RecordHidesSecrets` | src/owlmatic/infrastructure/logs.py:22-43 | the record of a stream does not contain a secret, within a line or across lines, that cannot overlap a marker and that neither itself nor a later secret overruns in the stream, whatever the others do |
| `LogStream.StreamingIsSafeForSecrets` | src/owlmatic/infrastructure/logs.py:16-43 | refinement and hiding hold for every stream if the secrets alone pass a test when the log is opened: none can overlap a marker or ends the way it or a later one begins |
| `LogStream.EachLineHides` | src/owlmatic/infrastructure/logs.py:31-35 | no line contains such a secret, even if occurrences overlap |
| `LogStream.RecordIsBounded` | src/owlmatic/infrastructure/logs.py:36-40 | the recorded lines never exceed the limit |
| `LogStream.RedactedLog.Write` | src/owlmatic/infrastructure/logs.py:22-40 | the method with its nested loops performs the specified write: tail set aside first, an excess counted and not recorded |
| `RedactionOrder.LongestFirstMeansContainersFirst` | src/owlmatic/infrastructure/logs.py:16-16 | longest first in characters puts a secret before those it contains |
| `RedactionOrder.RedactAllIsRedactOnce` | src/owlmatic/infrastructure/logs.py:32-33 | replacing the secrets one after the other is one pass that takes the first matching secret at each place |
| `RedactionOrder.StreamingIsLongestMatch` | src/owlmatic/infrastructure/logs.py:16-40 | so the recorded text is the longest-match redaction of the whole stream, whatever order equal lengths come in |
| `StreamingExactness.ExactExactlyWhen` | src/owlmatic/infrastructure/logs.py:22-43 | for secrets that cannot overlap a marker: every closed stream within the limit is recorded as its redaction, by whatever list is taken of the secrets in their order, if and only if none ends the way it or a later one begins |
| `StreamingExactness.OverlapsDiffer` | src/owlmatic/infrastructure/logs.py:25-33 | for one secret that meets itself, and for two of which the first ends as the second begins, a stream in two writes is recorded differently from its redaction |
| `StreamingExactness.NeverMeetsIsKeptOut` | src/owlmatic/infrastructure/logs.py:22-43 | a list keeps a secret out of every record that cannot overlap a marker and does not end the way it or a later one begins |
| `StreamingExactness.SecretIsRevealed` | src/owlmatic/infrastructure/logs.py:25-43 | for every secret of two bytes or more that cannot overlap a marker and leaves out a byte that the marker does not have, there are a longer one and one that overlaps its end such that the record of a stream in two writes is the secret, whole, and a marker |
| `StreamingExactness.KeptOutExactlyWhenByte` | src/owlmatic/infrastructure/logs.py:22-43 | a secret that cannot overlap a marker (and leaves out some byte that the marker does not have) is kept out of every record by every list it is on if and only if it is a single byte |
| `StreamingExactness.KeptOutExactlyWhenCharacter` | src/owlmatic/infrastructure/logs.py:16-43 | an encoded text that cannot overlap a marker (and leaves out some ASCII character that the marker does not have) is kept out by every list of encoded texts, longest first, if and only if it is a single character |
| `OutboxHistory.HistoryKeepsInv` | src/owlmatic/export_service.py:46-185 | the outbox invariant holds over every history of operations, crashes anywhere, and hand edits of the configuration |
| `OutboxHistory.SameIdSameBody` | src/owlmatic/export_service.py:119-185 | all sends of one snapshot id carry the same body |
| `OutboxHistory.SequencesIncrease` | src/owlmatic/export_service.py:88-110 | distinct snapshots leave in strictly increasing sequence, from one source |
| `OutboxHistory.ConfigurationsAreFenced` | src/owlmatic/export_service.py:46-67 | nothing prepared under one export configuration is sent under another |
| `OutboxHistory.SourceIsConstant` | src/owlmatic/export_service.py:51-67 | once stored the source id never changes |
| `OutboxHistory.ReceiverKeepsHighest` | docs/observability.md:40-44 | a receiver keeping the highest sequence ends with an arrived snapshot that none exceeds |
| `OutboxHistory.ReceiverEndsWithNewest` | docs/observability.md:40-44 | however deliveries are lost, repeated or reordered, once the newest snapshot sent has arrived the receiver has it |
| `OutboxRetries.DelayGrows` | src/owlmatic/export_service.py:147-150 | the pause never shrinks from failure to failure, is bounded, and is at least a second |
| `OutboxRetries.DelayDoubles` | src/owlmatic/export_service.py:147-150 | it starts with the first pause and doubles with each failure, for twenty of them, up to the longest |
| `OutboxRetries.RetriesAreBounded` | src/owlmatic/export_service.py:130-174 | over every history, whatever crashes, a snapshot is sent unasked at most the allowed number of times and once more for each answer that a crash lost between send and save; while none was lost, no unasked send comes before the pause min(max, initial * 2^min(k, 20)) after the failure before it |
| `OutboxRetries.LostAnswersDefeatTheBound` | src/owlmatic/export_service.py:143-166 | without that second part there is no bound: under every enabled configuration and for every number there is a history that sends one snapshot unasked that often |
| `OutboxRetries.RepetitionIsDue` | src/owlmatic/export_service.py:130-174 | a failed or deferred push asks to be repeated exactly when a snapshot is left that may still be sent unasked, and then from the time stored with it |
| `OutboxRetries.CrashedSendIsNotCounted` | src/owlmatic/export_service.py:143-166 | a crash between answer and save leaves the attempt uncounted, and the same send can happen again at once |
| `OutboxRetries.StoredIsDone` | src/owlmatic/export_service.py:119-185 | what the service has stored is what its effects leave stored in the world of the histories |
| `OutboxRetries.ExportService.Push` | src/owlmatic/export_service.py:119-185 | the method performs exactly the specified effects in order and gives the specified report; when it reports delivery the slot is empty |
| `OutboxRetries.Watch` | src/owlmatic/automatic_export.py:41-61 | the watcher waits while the run is running and something asks for it, reads the configuration anew each time, makes exactly the automatic pushes it reports, and ends; it begins every push but the last before the deadline and stops without one only when time is over or nothing asks for it |
| `OutboxDelivery.SynchronizationLeaves` | src/owlmatic/export_service.py:50-67 | synchronizing empties the slot exactly of a snapshot of another configuration or past retention, and forgets the last payload exactly under another configuration |
| `OutboxDelivery.PushTells` | src/owlmatic/export_service.py:142-185 | delivery is reported exactly when a send was answered without failure; then the slot is empty and the payload remembered; after a failed send the snapshot stays with one attempt more and the failure; any other push leaves what it found or prepared |
| `OutboxDelivery.SilentPushTells` | src/owlmatic/export_service.py:121-141 | why a push sends nothing is what its report says: off, nothing to retry, known payload, too early, or given up |
| `OutboxDelivery.DeliveredForGood` | src/owlmatic/export_service.py:175-185 | over all histories: after an uncut push that reports delivery the slot is empty, and whatever is done, edited or interrupted later, that snapshot is not sent again |
| `OutboxDelivery.DeliveredIsNotRepeated` | src/owlmatic/export_service.py:98-99 | as long as automatic pushes find the payload last delivered, nothing is prepared, sent or even stored, and each reports `unchanged` |
| `OutboxDelivery.NewPayloadIsSent` | src/owlmatic/export_service.py:80-110 | with an empty or stale slot a push that is on sends exactly unless the payload is known, the snapshot too large, or no attempt allowed, and what it sends has that payload and the next number |
| `OutboxDelivery.WaitingIsSent` | src/owlmatic/export_service.py:130-144 | with a snapshot waiting a push that is on sends that very snapshot, exactly if asked to retry or not given up and due |
| `OutboxDelivery.PreviewLeaves` | src/owlmatic/export_service.py:112-117 | a preview sends nothing and leaves in the slot the snapshot that a push then sends, the waiting one or a new one |
| `OutboxDelivery.LeftForGood` | src/owlmatic/export_service.py:46-185 | a snapshot that has left the slot, for whatever reason, is never sent again |
| `OutboxDelivery.PermanentIsFinal` | src/owlmatic/export_service.py:130-138 | after a push that reports a permanent failure nothing but an explicit retry sends that snapshot again |
| `OutboxDelivery.StaleIsNotSent` | src/owlmatic/export_service.py:50-67 | a snapshot that is stale when a push begins is not sent by it nor, if the push is not interrupted, ever again |
| `Ledger.PutKeepsValid` | src/owlmatic/infrastructure/measurement/repository.py:29-102 | recording an observation keeps the ledger valid |
| `Ledger.NothingCountedTwice` | src/owlmatic/infrastructure/measurement/repository.py:29-102 | after any history tasks on one file have disjoint lines, complete tasks of one host distinct digests, and the run table is the inverse of the tasks' runs |
| `Ledger.OverlapSharesLine` | src/owlmatic/infrastructure/measurement/repository.py:74-76 | the comparison of line ranges rejects exactly ranges that share a line |
| `Ledger.RunsHaveOneTask` | src/owlmatic/infrastructure/measurement/repository.py:87-97 | each run belongs to one task |
| `Ledger.TasksOnlyGrow` | src/owlmatic/infrastructure/measurement/repository.py:35-62 | a surviving task keeps its identity, and a complete one its completeness, digest, runs and workflow |
| `Ledger.RepeatedRecordIsNoChange` | src/owlmatic/infrastructure/measurement/repository.py:51-54 | recording the same observation again changes nothing and says so |
| `Ledger.RecordedExactlyWhen` | src/owlmatic/infrastructure/measurement/repository.py:29-102 | an observation is accepted exactly when it continues what is stored of its task and, unless that is the very same, clashes with no other task and shares no run with one; it is then what is stored, and nothing else changes but its runs |
| `Ledger.RefusedExactlyWhen` | src/owlmatic/infrastructure/measurement/repository.py:35-62 | which refusal a record gets that does not continue its task: another identity or model, lost runs or completeness, changed history |
| `Ledger.ClashesExactlyWhen` | src/owlmatic/infrastructure/measurement/repository.py:63-86 | two records clash exactly when they select the same history, share a line of one file, or are complete copies under one host |
| `Ledger.RetentionTakes` | src/owlmatic/infrastructure/measurement/repository.py:142-157 | retention takes exactly the tasks observed before the time, with their runs and links and the coverage of their workflows; every other row stays |
| `Ledger.BeforeExactlyWhen` | src/owlmatic/infrastructure/measurement/repository.py:145-148 | text comes before another when it is a proper beginning of it or has the smaller character where they first differ |
| `Ledger.SqliteMeasurements.Record` | src/owlmatic/infrastructure/measurement/repository.py:29-102 | the method with its loops performs the specified transaction or leaves the tables as they were |
| `Ledger.SqliteMeasurements.RetainSince` | src/owlmatic/infrastructure/measurement/repository.py:142-157 | the loop forgets exactly the expired tasks with their runs, links and coverage |
| `Estimation.KnownExactlyWhen` | src/owlmatic/measurement/estimation.py:20-84 | operational and context figures are known exactly when every reuse task is measured, matched and, for the context, exposed; they are then the sums over the tasks; costs are known when declared and measured, and net is operational less both |
| `Estimation.SavingIsMinimum` | src/owlmatic/measurement/estimation.py:42-44 | a known saving is at most what any choice of matching baselines gives, and some choice gives it |
| `Estimation.MoreBaselinesNeverRaise` | src/owlmatic/measurement/estimation.py:25-44 | further baselines never make a known saving unknown and never raise it |
| `Estimation.OrderDoesNotMatter` | src/owlmatic/measurement/estimation.py:6-109 | the whole assessment, with the range of the baselines used, hosts and models, workloads and the latest observation, depends neither on the order of tasks nor on the order or repetition of baselines |
| `Estimation.CreditIsInRange` | src/owlmatic/measurement/estimation.py:42-43 | what any comparable task is credited with lies between the stated least and greatest baseline |
| `EstimationFigures.FiguresAreExact` | src/owlmatic/measurement/estimation.py:12-105 | the counts and tokens of an assessment, creation and maintenance included, are those of the recorded tasks, each under its purpose once, and net is operational less these costs |
| `EstimationFigures.CostIsCharged` | src/owlmatic/measurement/estimation.py:70-78 | a cost is known exactly when declared complete and all its tasks are measured, and then it is what they used |
| `EstimationFigures.QualityExactlyWhen` | src/owlmatic/measurement/estimation.py:106-106 | unmeasured without a measured task, preliminary exactly when there are tasks and all are comparable |
| `EstimationFigures.IssuesExactlyWhen` | src/owlmatic/measurement/estimation.py:36-85 | each issue is raised exactly for its reason |
| `EstimationFigures.BaselinesAreExact` | src/owlmatic/measurement/estimation.py:41-41 | the samples are the baselines that match a measured reuse task, each counted once, and the range is that of the usages under their ids, both ends reached |
| `EstimationFigures.BasisIsExact` | src/owlmatic/measurement/estimation.py:97-108 | hosts with models, workloads and the latest observation are those of the tasks of the workflow |
| `Estimation.CompareAll` | src/owlmatic/measurement/estimation.py:17-66 | the loop computes the comparison |
| `Statistics.DaysAndWorkflowsAgree` | src/owlmatic/statistics_service.py:74-134 | daily savings sum to the net savings plus setup, and daily runs and verified runs to the totals, for any buckets in the window |
| `Statistics.EveryRunIsCounted` | src/owlmatic/statistics_service.py:113-120 | workflow, validation and legacy runs are together all runs; running and terminal runs are the workflow runs; each total is the sum over all runs of workflows |
| `Statistics.NetIsManualLessCosts` | docs/statistics.md:34-46 | net is manual equivalent less run cost less setup, known exactly when a workflow with a baseline has a terminal run |
| `Statistics.GroupsAddUp` | src/owlmatic/statistics_service.py:79-84 | groups by different keys that take everything in add up to the whole |
| `Statistics.BuildReport` | src/owlmatic/statistics_service.py:74-134 | the loops compute the specified report |
| `StatisticsFigures.WorkflowsAreExact` | src/owlmatic/statistics_service.py:31-59 | one row for each workflow that ran, in text order; runs, terminal, running, verified, passed, detected failures, errors and duration are those of its own runs, and the manual, automated and net tokens follow from them and its baseline exactly when it has one and a terminal run |
| `StatisticsFigures.DaysAreExact` | src/owlmatic/statistics_service.py:90-111 | every day of the window once and in order, with the runs, verified runs and savings of that day |
| `StatisticsFigures.TotalsAreExact` | src/owlmatic/statistics_service.py:86-134 | each token total is the sum over the workflows with a net figure, and all are known together |
| `Usage.CountersAreLast` | src/owlmatic/infrastructure/measurement/host_events.py:46-60 | in a native history the two counters are the last counts before and in the selected lines |
| `Usage.UsageTelescopes` | src/owlmatic/infrastructure/measurement/host_events.py:146-165 | what two adjacent selections used is what the selection of both used, in every category both know; the whole yields a usage unless the count between lacks a category that both ends know |
| `Usage.UnbridgedHidesAFall` | src/owlmatic/infrastructure/measurement/host_events.py:146-165 | for whichever categories the three counts know, if the one between lacks one that both ends know there is a history whose two parts yield a usage and whose whole does not |
| `Usage.UsageTelescopesExactlyWhen` | src/owlmatic/infrastructure/measurement/host_events.py:146-165 | the usages of two parts always make up one of the whole if and only if the count between knows every category that the counts before and after know |
| `Usage.RegressionMeansNotMonotone` | src/owlmatic/infrastructure/measurement/host_events.py:27-31 | the regression issue is absent exactly when the counters were monotone over every line read |
| `Usage.CompleteIsMonotone` | src/owlmatic/infrastructure/measurement/history.py:36-54 | a complete observation rests on counters that never fell |
| `Usage.Events.Feed` | src/owlmatic/infrastructure/measurement/host_events.py:46-145 | the method updates the decoder as specified, with models, tool outputs and the marks of subagents |
| `Usage.ReadHistory` | src/owlmatic/infrastructure/measurement/history.py:20-75 | the loop over the file computes the specified observation: usage, model, completeness, issues and what the tools showed |
| `UsageTables.UsageIsSummaryOrSum` | src/owlmatic/infrastructure/measurement/host_events.py:68-165 | without cumulative counts a history used what its last summary says, or else the sum of what each turn or message of the selection reported last |
| `UsageTables.TotalsAreSums` | src/owlmatic/infrastructure/measurement/decoding.py:40-55 | a total is the sum of every category over the entries, known if each entry knows it |
| `UsageTables.EntriesAreLast` | src/owlmatic/infrastructure/measurement/host_events.py:68-117 | the table of usages has each key once, with what the last selected line reported under it |
| `UsageTables.CompleteExactlyWhen` | src/owlmatic/infrastructure/measurement/history.py:36-54 | an observation is complete exactly when the last event that decides says the task ended, the usage is known, and there is no issue |
| `UsageTables.IssuesOfLines` | src/owlmatic/infrastructure/measurement/host_events.py:61-145 | any issue but a fall of the counters stands exactly when some line that was read raised it |
| `UsageTables.LateIssuesExactlyWhen` | src/owlmatic/infrastructure/measurement/history.py:41-53 | several tasks, a missing boundary, unknown usage and unknown model are raised exactly for their reasons |
| `UsageTables.ModelsAreNamed` | src/owlmatic/infrastructure/measurement/host_events.py:65-67 | the models are those that the selected lines name |
| `Heartbeats.BeatsExactlyWhenCovered` | scenarios/deploy_monitor/workflow/monitoring/service.py:136-145 | the test passes exactly when the replica has a heartbeat in the window and in every part of it longer than 2.5 s |
| `Monitoring.ScanIsComplete` | scenarios/deploy_monitor/workflow/monitoring/service.py:108-134 | a finished scan has read every page of this deployment and window, without a gap, under one watermark, with strictly increasing, correlated events |
| `Monitoring.PassIsProven` | scenarios/deploy_monitor/workflow/monitoring/service.py:61-94 | a pass proves the whole window: full duration, readiness and a clean complete log in every round, growing watermarks that cover the end, heartbeats of every replica |
| `Monitoring.FailIsWitnessed` | scenarios/deploy_monitor/workflow/monitoring/service.py:72-83 | a failure of the observation is seen: a reliable status that is not ready, or a complete scan with an error or a foreign version |
| `MonitorVerdict.ScannedExactlyWhen` | scenarios/deploy_monitor/workflow/monitoring/service.py:108-134 | a scan succeeds exactly when its replies are the whole log of the interval, and then it has all its events |
| `MonitorVerdict.ObservedExactlyWhen` | scenarios/deploy_monitor/workflow/monitoring/service.py:61-93 | the observation ends for a reason exactly when every round before the last left it open and the last ends it so: a pass exactly when all rounds are spotless and the last is the first to show the whole window, no proof of coverage exactly when duration and grace are over without that, and likewise for each failure and for missing evidence |
| `MonitorVerdict.ReadyExactlyWhen` | scenarios/deploy_monitor/workflow/monitoring/service.py:101-106 | a deployment is ready exactly when it lists each expected replica once and no other, all ready in the expected version |
| `Monitoring.RoundsAreBounded` | scenarios/deploy_monitor/workflow/monitoring/service.py:65-91 | at most ceil((duration + grace) / poll) + 1 rounds |
| `Monitoring.TriesAreBounded` | scenarios/deploy_monitor/workflow/monitoring/service.py:45-59 | at most ceil(timeout / poll) + 1 looks at the rollout |
| `Monitor.Interval` | scenarios/deploy_monitor/workflow/monitoring/service.py:108-134 | the scan follows the cursor, reads at most 128 pages and gives what they say |
| `Monitor.Observe` | scenarios/deploy_monitor/workflow/monitoring/service.py:61-91 | the observation ends with what its rounds are decided as, no earlier and no later, paced by the polls, and sleeps only for positive times |
| `Monitor.RollOut` | scenarios/deploy_monitor/workflow/monitoring/service.py:45-59 | the rollout loop ends with the verdict of its looks, or fails on a negative pause when the timeout passes between the two clock readings of the last one |
| `Monitor.CrashedExactlyWhen` | scenarios/deploy_monitor/workflow/monitoring/service.py:52-58 | a run crashes if and only if in some look the deployment is not ready and the timeout passes between the two readings |
| `Monitor.NegativePauseHappens` | scenarios/deploy_monitor/workflow/monitoring/service.py:52-58 | for all inputs and every deployment there are clock readings that make the first look do so |
| `Monitor.PassedExactlyWhen` | scenarios/deploy_monitor/workflow/monitoring/service.py:17-93 | a run passes exactly when a look finds the deployment ready in time and the observation after it is decided as verified |
| `Monitor.Run` | scenarios/deploy_monitor/workflow/monitoring/service.py:17-93 | whatever the services answer, the result is what looks and rounds say, spelled out for each reason; a pass is proven, and the run crashes exactly on such a look |

## Left out

- SQLite itself, its write-ahead log and busy timeouts; schema migration, search and full-text ranking.
- JSON, YAML and record parsing, hashing: values stand for their encodings and digests.
- Lock waiting: clock readings of a transaction are parameters, so how long a statement waits for the database between reading the clock and committing is not modelled.
- Process groups and detached descendants: only the primary child is followed, as the security notes promise no more; signals, grace periods and selectors are reduced to alive, dead and end of file.
- Worker output while the workflow runs.
- The workflow program is assumed never to close the activity descriptor it inherits, so the child holds it until it dies.
- Verification.SupervisorAlwaysConcludes: the encoding of the outputs in the record is a parameter.
- WorkflowEvidence.CleanHides: text is its UTF-8 bytes, so that lone surrogates are not modelled.
- What a worker concludes in `Protocol` is any legal terminal record, more than the supervisor can produce; `Verification.SupervisorAlwaysConcludes` narrows it. Run ids and owner tokens never repeat.
- Workers, guardians, activity locks and the supervisor are state machines and not objects, since their steps interleave; the order of calls inside one process is the order of its steps.
- Waiting for a run, cancelling, inspecting and summarizing it: they read, or set a flag that `Handshake` takes as an abort at any moment.
- LogStream.StreamingRefinesWhole: for one list and one stream its condition is sufficient; `StreamingExactness.ExactExactlyWhen` is exact for all streams and all lists taken of the secrets. Secrets that can overlap a marker are not characterized.
- LogStream.EachLineHides: on bytes, before lines are decoded with replacement and written as JSON; the length of a line is a parameter.
- RedactionOrder.StreamingIsLongestMatch: secrets are assumed to be encoded whole characters, as the program's own text is.
- GuardStatus.ChunksDoNotMatter: the reading of a decimal number is a parameter, and the kinds of errors are not told apart.
- OutboxHistory.HistoryKeepsInv: fresh identifiers are assumed never to repeat; export files are written atomically.
- OutboxRetries.Watch: the local dashboard is a flag and not generated; other processes pushing at the same time are left open by what each push meets.
- Ledger.NothingCountedTwice: emissions and drafts, which no other table depends on.
- Statistics.DaysAndWorkflowsAgree: that the query only returns days of the window is an assumption.
- Usage.ReadHistory: the run references in tool outputs, the counting of their bytes and tokens, and file size limits.
- Monitor.Run: times are real numbers, so rounding of floating-point clocks is not modelled.
- HTTP, Git catalogs, bundle walking, CLI and MCP adapters, HTML dashboards, authoring and setup; the task-replay lab, search budgets and profile editing would only add easy members.
