# Ace IT Center: a verified model of its protocols

This project models the parts of the platform that have to stay right when
things fail half-way: the crash-safe upgrade of the managed containers, the
leased remote commands, the agent's lifecycle controller with its pairing
handshake, the agent's self-update helper, the key-file transaction of the
release tool, and four algorithms beside them (log-tail redaction, bounded
command output, traffic totals and the pairing rate limiter). `dafny verify
dfyconfig.toml` checks the whole project.

## How the system is modelled

**Code that changes state is a class.** `UpdateManager.Manager`,
`FileStore.FileStore`, `Commands.Store`, `CommandWorker.Worker`,
`Controller.Controller`, `Pairing.Store`, `KeyFiles.Transaction`,
`UpdateHelper.Machine`, `NetworkUsage.Sampler`, `PairingLimiter.Limiter` and
`Executor.BoundedOutput` have the fields of the original and methods with its
branches, in its order. What a caller may rely on is stated over the old and the
new fields, or by a specification function about which lemmas are proved.

**Whatever the code cannot control is left open.** Errors, clocks, replies,
interrupted writes and other requests are nondeterministic assignments, so a
contract holds for each of their outcomes. In particular:

- A save of the updater's state fails before or after its rename
  (`FileStore.SaveFault`); a container action fails with or without effect, and a
  failed deployment leaves its service in any state (`UpdateHost.Effect`).
- The updater may die after every step. A dead process does nothing more, so the
  state in which a method returns after a death *is* the state at that crash point:
  an invariant the methods keep holds at every crash point, and
  `UpdateManager.Manager.AnyHistory` runs starts, checks, deaths, restarts with
  recovery, and jobs of replaced tasks in any order.
- A transaction whose commit reports an error may have been committed. A statement
  of a multi-statement operation without a transaction may have any number of other
  operations between it and the next one.

**Concurrent protocols are transition systems.** `CommandProtocol` (server, network,
any number of workers) and `ControllerProtocol` (the controller's operations as
threads, the launch gate, the configuration file, the server that decides pairing
requests) have one step per SQL statement or per section under the mutex. Their
theorems quantify over all finite behaviours, by an invariant that every step keeps.
In `CommandProtocol` the three statements of a claim are three steps that need not be
isolated from each other; `CommandProtocol.ClaimIsItsStatements` connects them with the
transaction of the class. Anyone may send a start request or a report that says
anything; only `CommandProtocol.ReportIsOfTheRun` supposes that workers report what
they ran, and `CommandWorker.CallIsAStep` shows that the worker of this repository does.

**Ghost state** records what the program does not keep: what the services ran when a
task began (`UpdateHost.Facts`), the actions issued and their reports
(`UpdateHost.Trace`), the leases handed out, the launches recorded, the true traffic
totals, the grants of the limiter.

**Assumptions.** Hashes are injective and tokens and generated identifiers are fresh.
Paths name files one to one. A version is known by its place in a total order. The
month is a function of the day. In helper mode the installer does not start or stop
the service (installer/windows/AceAgent.iss:223-228, 242-246). The clock of the
limiter and of the controller does not run backwards; the server's clock in
`CommandProtocol` may show anything.

## Where the code is less than its surroundings suggest

- **Approving a pairing does not ask for a pending update.** `Enroll`, `StartPairing`
  and `Bootstrap` are held off while an update helper may run, `approvePairing` is not
  (agent/internal/controller/controller.go:689-698). By itself the controller can
  therefore be overtaken: under a pending update the end of an approval switches the
  configuration, and nothing else does (`ControllerStandstill.OnlyApprovalsMove`), and it
  can come to that exactly if an approval is under way or the server may approve the
  ticket that is polled (`ControllerStandstill.OvertakenIff`;
  `ControllerStandstill.ApprovalUnderPending` is such a behaviour). The service of this
  repository is not overtaken. It asks for a launch only after its updater found a release
  on the server of the configuration the check was begun for
  (agent/cmd/ace-agent/main.go:143-163, 189-200), and a configuration that awaits an
  approval names none there (agent/internal/agent/config.go:50;
  agent/internal/update/client.go:44). Under that one assumption on launches,
  `ControllerStandstill.AsksItsServer`, nothing at all is switched or saved while a
  helper may run (`ControllerStandstill.NothingMovesUnderPending`).
- **Redaction depends on the shape of the secret.** A secret is kept out of the tail
  of every log exactly if it does not *clash* with the marker, that is, if no text
  around `[REDACTED]` completes it to an overlapping occurrence
  (`LogTailLeaks.KeptOutIff`). Secrets without brackets that are no part of REDACTED
  never clash (`LogTail.PlainSecret`). For every clashing secret
  `LogTailLeaks.ClashLeaks` and `LogTailLeaks.ShortClashLeaks` construct a log whose
  trimmed, redacted and bounded tail, which `LogTail.ReadLogTail` returns, shows it.
- **A link that is made although it reports an error is not taken back.** The key-file
  transaction owns only links that reported success. A primary error leaves every file as
  it was exactly if no link was made that reported an error (the ghost flag `linkedAnyway`,
  which only the operating system sets); if one was, its half of the key is there, and
  nothing else (`KeyFiles.Transaction.Generate`).
- **Enroll and StartPairing ask for a shutdown once, and early.** They test before they
  talk to the server, and not again under the launch gate
  (agent/internal/controller/controller.go:298-346, 425-466). So a configuration may be
  switched after a shutdown has begun: exactly by one of them that passed its test before
  (`ControllerStandstill.OnlyEarlierSwitchesMove`), and exactly if one is still under way
  (`ControllerStandstill.SwitchedAfterShutdownIff`, with a behaviour in
  `ControllerStandstill.SwitchAfterShutdown`).

## Model

| member | source | states |
|---|---|---|
| FileStore.FileStore.Load | internal/systemupdate/store.go:41-74 | a missing state file reads as the empty state, an unreadable one as an error, any other as what was saved |
| FileStore.FileStore.Save | internal/systemupdate/store.go:76-114 | the file is replaced as a whole or not at all; of all steps only the sync of the directory can report an error after the replacement; a temporary file stays only if its removal fails |
| UpdateTypes.Check | internal/systemupdate/checker.go:43-112 | a check succeeds exactly for two valid pairs of one version each with the target not older; then current is what was inspected, target what was resolved, and the update is available iff the resolved version is strictly newer; each error names what was missing |
| UpdateTypes.StartDecision | internal/systemupdate/manager.go:150-174 | which start is refused and why: an unfinished or manual task before anything that is wrong with the check, an old check before an unavailable one, and that before another version |
| UpdateTypes.StartAgreesWithView | internal/systemupdate/manager.go:146-184 | for every state that keeps the version facts, a version may be started exactly if the status view advertises it and the check is fresh |
| UpdateHost.ActionKeepsTask | internal/systemupdate/manager.go:479-488 | any container action issued in a stage that allows it keeps the invariant of the persisted task, whatever it did and reported |
| UpdateHost.StepKeepsSafe | internal/systemupdate/manager.go:210-287 | after a step of the job, failed or not, its task may be written without breaking the invariant, and keeps its identity, target and stage |
| UpdateHost.RollbackRestores | internal/systemupdate/manager.go:517-525 | deploying a rollback alias that reports success leaves the service on what it ran at task start, and touches neither the other service nor the aliases |
| UpdateHost.AliasPrepares | internal/systemupdate/manager.go:235-250 | once its alias is created, a service's recorded original names what it ran at task start, and the alias points there |
| UpdateHost.PreparedIsSafe | internal/systemupdate/manager.go:235-276 | with both services prepared, the first switching stage may be persisted: both digests and aliases are recorded before any target is deployed |
| UpdateHost.LateCanRollBack | internal/systemupdate/manager.go:506-509 | in every stage from the first switch on, the task has its rollback images, so the exit of a rollback for missing ones cannot be taken |
| UpdateHost.RolledBackIsTruthful | internal/systemupdate/manager.go:526-537 | a task may be written as failed after a rollback only with both services back on the start images, and as manual intervention otherwise |
| UpdateManager.Manager.CheckNow | internal/systemupdate/manager.go:121-142 | a check replaces the last check and never the task; an error of the checker writes nothing, and nothing else but a failed load or save keeps a check from the file; the view returned is that of the state written |
| UpdateManager.Manager.Start | internal/systemupdate/manager.go:146-196 | an unfinished or manual task refuses every start and nothing is written; a refusal is the one the decision names, and there is no other but a failed load or save; a started task is that of the check, with equal target versions strictly newer, in stage checking |
| UpdateManager.Manager.Answer | internal/systemupdate/manager.go:198-206 | the reply to a start, read again after the launch: the task if the file still holds it, else an error, while nothing the job does or left behind changes |
| UpdateManager.Manager.Requests | internal/systemupdate/manager.go:156-159 | between two steps of a job, of any number of checks and start requests no start succeeds and none of them touches the task, the containers or the cancellation |
| UpdateManager.Manager.SaveTask | internal/systemupdate/manager.go:569-581 | a job writes exactly its task over its own; a task that was replaced, or a dead process, writes nothing |
| UpdateManager.Manager.WriteTask | internal/systemupdate/manager.go:569-581 | under the mutex nothing but the task is written, and only over a task with the same id |
| UpdateManager.Manager.FinishTask | internal/systemupdate/manager.go:583-597 | the last save of a success also moves the check to the new version and recomputes its availability |
| UpdateManager.Manager.WriteFinished | internal/systemupdate/manager.go:583-597 | under the mutex the finished task is written, and the check keeps its target and its time, has the target as current, and is available iff its target is newer still |
| UpdateManager.Manager.Execute | internal/systemupdate/manager.go:479-488 | an action is issued only by the job whose unfinished task, in its very stage, is the persisted one; it keeps the invariant, and is logged with its report |
| UpdateManager.Manager.Perform | internal/systemupdate/manager.go:479-488 | on success exactly one action was issued, with its effect, and the task with its result is on disk; a failure leaves a task that may be written; the action is issued only in a persisted stage that allows it |
| UpdateManager.Manager.RollBackService | internal/systemupdate/manager.go:517-525 | one service of a rollback: both actions are issued whatever they report, a reported deployment leaves the start image running, the other service is untouched |
| UpdateManager.Manager.Rollback | internal/systemupdate/manager.go:506-538 | without a save error: no action and manual intervention if rollback images are missing; otherwise all four actions in order, and the task fails as rolled back iff all of them succeeded |
| UpdateManager.Manager.HandleFailure | internal/systemupdate/manager.go:490-504 | a cancelled job does nothing more; before the first switch the task fails and nothing is issued; later the rollback decides |
| UpdateManager.Manager.Stabilize | internal/systemupdate/manager.go:451-477 | at least one round, every round checks both services in order, and success leaves the containers as they were |
| UpdateManager.Manager.CleanUp | internal/systemupdate/manager.go:300-329 | one removal per service, issued only with the cleanup stage persisted, none of which stops a service; the finished task says whether both succeeded |
| UpdateManager.Manager.Step | internal/systemupdate/manager.go:213-298 | step n of the plan: on success the log is the plan up to n, on failure the task ends as the stage of the step demands |
| UpdateManager.Manager.PrepareAll | internal/systemupdate/manager.go:213-276 | before the first switch: success means both services are recorded and aliased as they ran, the plan was followed step by step, and no target was deployed; a failure fails the task at its step |
| UpdateManager.Manager.SwitchBoth | internal/systemupdate/manager.go:277-298 | the switch of both services: success means both run the target through every stabilizing round; a failure is rolled back and the task says how that ended |
| UpdateManager.Manager.Run | internal/systemupdate/manager.go:210-329 | a whole job: without a fault every step was taken once and in order, both services run the target and the task says so; with one, the failing stage alone decides how the task ends and what the job still does; the invariant holds at every death |
| UpdateManager.Manager.InspectRecovery | internal/systemupdate/manager.go:392-414 | a service is asked once, and a second time by its alias exactly if the first answer failed and an alias is recorded; an image is returned iff the last answer told one, and the service runs its digest |
| UpdateManager.Manager.GiveUp | internal/systemupdate/manager.go:347-362 | a recovery that cannot tell what runs ends in manual intervention and touches no container; a cancelled one writes nothing |
| UpdateManager.Manager.RecoverCleaning | internal/systemupdate/manager.go:373-386 | a task found in cleaning: with the target running, backend and then web are waited for, the first that is not healthy has both rolled back, and else both old images are removed and the task says whether that worked; its rollback images cannot be missing |
| UpdateManager.Manager.RecoverEarly | internal/systemupdate/manager.go:367-371 | before the first switch a restart fails the task if nothing moved and asks for help otherwise, issuing nothing |
| UpdateManager.Manager.Recover | internal/systemupdate/manager.go:332-390 | no error means no unfinished task is left; without one to recover nothing changes; otherwise the log is that of the two inspections and of what their answers lead to: help is asked for at once exactly if a service did not tell, an early task fails exactly if the original pair runs, and every other one is rechecked or rolled back, with the outcome the reports give; it never aliases, backs up, pulls or deploys the target |
| UpdateManager.Manager.AnyHistory | internal/systemupdate/manager.go:144-390 | over any history with any number of deaths and restarts: succeeded means both services run the target, failed means both run what they ran at task start, an attempted deployment implies recorded and intact aliases until cleaning, and manual intervention is never left |
| CommandTable.StatementsClaim | internal/postgres/commands.go:326-372 | row by row, what the three statements of a claim do: an overdue running execution of the node has failed at this time with its message, an overdue one that never started waits again or is the one leased, the leased one is the least of all that waited or came back, and no other row changes |
| CommandTable.ClaimIsStatements | internal/postgres/commands.go:326-372 | and whatever does that to the table is those three statements |
| CommandTable.ClaimLeavesNoneOverdue | internal/postgres/commands.go:326-377 | after a claim no lease of the node is overdue, and the claimed row holds a live lease counted as one more attempt |
| CommandTable.ClaimTakesTheOldest | internal/postgres/commands.go:343-353 | of the executions that wait for the node or come back to wait, a claim takes the one with the least creation time and then the least id, and the others are queued without a lease; it takes none only if there is none |
| CommandTable.LeaseSurvivesAClaimIff | internal/postgres/commands.go:326-377 | a claim leaves the lease of an unfinished row alone if and only if it is of another node, or start and complete still accept it |
| CommandTable.InsertedOk | internal/postgres/commands.go:224-269 | inserting a task with one row for each of its nodes keeps nodes distinct per task and every earlier row |
| CommandTable.CountsAddUp | internal/postgres/commands.go:16-23 | the six status counts of a task summary add up to its target count |
| CommandTable.RetryCountsFailures | internal/postgres/commands.go:187-191 | a retry has as many targets as the summary of its source counts failures and timeouts |
| Commands.Store.NextWaiting | internal/postgres/commands.go:343-362 | the row selected is the least waiting one that is not locked; none is selected only if there is none |
| Commands.Store.ClaimCommand | internal/postgres/commands.go:306-382 | overdue rows are settled and the least candidate leased, all or nothing; the claim handed out describes the leased row; afterwards nothing of the node is overdue; an empty hash, a zero time or an unknown credential is refused and changes nothing |
| Commands.Store.StartCommand | internal/postgres/commands.go:384-409 | accepted exactly for a live lease; the row is then running with the same lease; the same lease may be accepted again; empty hashes, a zero time and unknown credentials are refused |
| Commands.Store.RecordCompletion | internal/postgres/commands.go:425-445 | the outcome is stored exactly for a live lease, and nothing else changes |
| Commands.Store.CompleteCommand | internal/postgres/commands.go:411-466 | an accepted report is what the table holds afterwards; a live lease stores it; a finished row accepts exactly the stored outcome again, whatever claims, starts, reports and new tasks run in between; empty hashes, a zero time and unknown credentials are refused |
| Commands.Store.HasDuplicates | internal/postgres/commands.go:271-283 | true exactly if an entry is empty or occurs twice |
| Commands.Store.CreateCommand | internal/postgres/commands.go:64-95 | success inserts exactly one queued row for each of the distinct windows nodes; an invalid command, missing or repeated input, and a target that is no windows node are each refused with an error of their own, and a refusal inserts nothing |
| Commands.Store.Insert | internal/postgres/commands.go:224-269 | the task and one queued row per node appear together or not at all, and no other row changes |
| Commands.Store.RetryCommand | internal/postgres/commands.go:171-222 | the stored command is queued again on exactly the nodes where it failed or timed out; the reasons for each refusal, and that there is nothing to retry changes nothing |
| Commands.Store.Sorted | internal/postgres/commands.go:187-208 | the nodes of a retry, each once, in ascending order |
| CommandProtocol.StepKeepsInv | internal/postgres/commands.go:306-466 | every statement and every step of a worker or of the network keeps the lease invariant, changes no finished row, and forgets no run |
| CommandProtocol.ClaimIsItsStatements | internal/postgres/commands.go:326-377 | the claim transaction is the composition of its statements, with a row to lease or without one |
| CommandProtocol.OneLeaseAccepted | internal/postgres/commands.go:392-408 | over every behaviour at most one lease of an execution is ever accepted by start |
| CommandProtocol.RunsAtMostOnce | agent/internal/app/command_worker.go:86-97 | over every behaviour, with any workers, crashes and lost or repeated messages, no execution is run twice |
| CommandProtocol.OutcomeIsFinal | internal/postgres/commands.go:425-491 | whatever reports are sent, by whomever: any two accepted reports of one execution are identical, the stored outcome is theirs, and its row does not change after the first |
| CommandProtocol.ReportIsOfTheRun | internal/postgres/commands.go:425-491 | if workers report only what they ran, an accepted report is what the one run of that execution produced |
| CommandProtocol.HonestyKept | internal/postgres/commands.go:425-466 | no step of anybody, start, claim, expiry or crash, turns an accepted report into one that its run did not produce, as long as the step itself reports a run |
| CommandProtocol.LapsedAcceptsNothing | internal/postgres/commands.go:326-466 | an execution failed by lease expiry never accepts a report, whatever it says |
| CommandProtocol.AttemptsCountLeases | internal/postgres/commands.go:364-368 | the attempt count of a row is the number of leases ever handed out for it |
| CommandWorker.RetryDelay | agent/internal/app/command_worker.go:140-148 | every retry waits at least one second and at most fifteen, for any attempt number |
| CommandWorker.WaitedInTotal | agent/internal/app/command_worker.go:15-21 | the waits before attempt n add up to 0, 1, 3, 7, 15 seconds and then 15 more for each further attempt |
| CommandWorker.Worker.AskStart | agent/internal/app/command_worker.go:101-116 | start requests repeat until accepted, rejected, stopped or past the lease, only failures are retried, the waits are those of the schedule, the loop terminates, and every request was one the worker may make |
| CommandWorker.Worker.Complete | agent/internal/app/command_worker.go:118-138 | the same outcome is reported until accepted, rejected, stopped or past the lease |
| CommandWorker.Worker.RunCommand | agent/internal/app/command_worker.go:90-96 | what an executor produced is reported as it is, with the execution of the claim, unless its status is none of an outcome, which is reported as failed; with this repository's executor it passes both validators of the server |
| CommandWorker.Worker.Serve | agent/internal/app/command_worker.go:86-97 | a claim is run exactly if a start request was accepted, once, and only then reported; the log is that of the claim |
| CommandWorker.Worker.Run | agent/internal/app/command_worker.go:57-99 | every claim the server handed out is served in turn, with the calls of one turn each and nothing else; the worker asks only for claims it holds, runs only what was accepted and reports only what it ran; five seconds pass after a failed request |
| CommandWorker.OneRunPerClaim | agent/internal/app/command_worker.go:57-99 | in every log of that kind a token is run at most as often as it was claimed |
| CommandWorker.CallIsAStep | agent/internal/app/command_worker.go:86-97 | a claim of a worker is an enabled delivery of the protocol, its run an enabled execution, its reports are honest, if the replies are the server's |
| CommandWorker.OthersKeepMatch | agent/internal/app/command_worker.go:86-97 | what a worker has been told stays true in the protocol whatever the other workers, the network and the server do |
| Utf8.EncodingIsChar | internal/postgres/commands.go:468-472 | every encoded character (section 3 of RFC 3629) is generated by the grammar of section 4 and decodes to itself |
| Utf8.CharIsEncoding | internal/postgres/commands.go:468-472 | and the grammar generates nothing else: no overlong form and no surrogate |
| Utf8.CutNearby | agent/internal/command/executor.go:156-166 | a valid text can be cut before any position at most three bytes earlier |
| Utf8.ToValidKeepsValid | agent/internal/command/executor.go:146-158 | replacing invalid bytes leaves valid text alone |
| Utf8.ToValidAfterValid | agent/internal/command/executor.go:146-158 | replacing invalid bytes leaves every valid character before them in place |
| Utf8.RunBecomesOne | agent/internal/command/executor.go:146-158 | a run of invalid bytes becomes one replacement character, however long it is |
| Utf8.Bounded | agent/internal/command/executor.go:156-166 | the result is the longest valid prefix within the limit, at most three bytes below it when anything is cut |
| Executor.BoundedOutput.Write | agent/internal/command/executor.go:115-132 | for every chunking of the output exactly its first limit bytes are kept, and truncated holds iff there were more |
| Executor.Normalized | agent/internal/command/executor.go:146-154 | the captured output is valid, within the bound, complete if it was valid and short, and marked truncated iff anything was cut |
| Executor.Capture | agent/internal/command/executor.go:58-61 | the same over all writes of a command |
| Executor.Message | agent/internal/command/executor.go:66-84 | the message is valid, within 512 bytes, and the text that belongs to how the command ended: the timeout in seconds, cancellation, the exit code, or the beginning of the process error |
| Executor.DigitsName | agent/internal/command/executor.go:66-84 | the numbers in a message are decimal numerals without leading zeros |
| Executor.Execute | agent/internal/command/executor.go:39-86 | every result is one the server accepts once execution and token are filled in; it timed out iff the deadline passed, succeeded iff nothing went wrong and the exit code is 0; output, truncation and message are those of the command, of its invalid input, or of the missing runner |
| Executor.ReportIsAccepted | internal/api/router.go:1052-1057 | a result of the executor with execution and token filled in passes the validators of the store and of the HTTP interface |
| Controller.Controller.HasPendingUpdate | agent/internal/controller/controller.go:813-831 | a pending helper is forgotten exactly when its lifetime is over |
| Controller.Controller.InvalidateGeneration | agent/internal/controller/controller.go:834-853 | a new generation has no configuration, no flight and no pending update; the context of the old one is cancelled, so of all generations at most the current one is at work |
| Controller.Controller.Activate | agent/internal/controller/controller.go:856-858 | a configuration becomes current only together with a new generation |
| Controller.Controller.BeginCheck | agent/internal/controller/controller.go:504-533 | a check joins the flight of its generation, is answered by a pending update, is refused in a shutdown, or begins the one new flight |
| Controller.Controller.Authorize | agent/internal/controller/controller.go:569-589 | a launch is granted exactly for the current generation, without shutdown and without a pending helper |
| Controller.Controller.FinishLaunch | agent/internal/controller/controller.go:591-607 | a launch is recorded with its time exactly if it took place |
| Controller.Controller.FinishFlight | agent/internal/controller/controller.go:549-567 | a result is delivered only if the generation is the one checked, and only that flight is cleared |
| Controller.Controller.SetPairingTerminalState | agent/internal/controller/controller.go:721-728 | a poll ends in a status only for the current ticket |
| Controller.Controller.BeginShutdown | agent/internal/controller/controller.go:350-374 | after the shutdown section the flag is set and no generation is at work |
| ControllerProtocol.InvAlways | agent/internal/controller/controller.go:211-858 | over every behaviour of any number of threads: the gate has one holder, what a gate holder checked still holds, flights and launches are in order, a flight of the current generation checks for the current configuration, configurations are granted |
| ControllerProtocol.NothingMovesDuringALaunch | agent/internal/controller/controller.go:569-608 | from the grant of a launch to its finish no configuration is switched or saved, nothing boots and nothing shuts down, whatever the other threads do |
| ControllerProtocol.PendingIsCurrent | agent/internal/controller/controller.go:591-607 | a recorded pending update always belongs to the current generation and is the last launch recorded |
| ControllerProtocol.LaunchesApart | agent/internal/controller/controller.go:569-831 | two recorded launches of one generation are at least the pending lifetime apart |
| ControllerProtocol.OneFlightPerGeneration | agent/internal/controller/controller.go:504-533 | no two update checks run for one generation at a time |
| ControllerProtocol.ResultIsForItsConfiguration | agent/internal/controller/controller.go:504-567 | the result of a check is delivered only under the configuration the check was begun with |
| ControllerStandstill.InUseIsOnFile | agent/internal/controller/controller.go:211-469 | in every behaviour a configuration that comes into use by Enroll, StartPairing, an approval or Bootstrap is the one on file, and one that awaits an approval is polled for in its generation |
| ControllerProtocol.RecheckNeverFails | agent/internal/controller/controller.go:689-719 | the second test of an approval, after its save, always succeeds, and the configuration then is the approved one in a new generation |
| ControllerProtocol.StalePollChangesNothing | agent/internal/controller/controller.go:658-728 | in every behaviour, each of the five steps of a poll whose generation is over leaves the controller and the file as they were |
| ControllerStandstill.OnlyApprovalsMove | agent/internal/controller/controller.go:689-719 | in every behaviour, a step under a live pending update switches the configuration if and only if it is the end of an approval, and only the save of an approval writes the file |
| ControllerStandstill.NothingMovesUnderPending | agent/cmd/ace-agent/main.go:143-205 | if every launch is asked for by a check of an enrolled configuration, which alone names a server, then no step under a live pending update changes configuration, generation or file |
| ControllerStandstill.OvertakenIff | agent/internal/controller/controller.go:638-719 | without that, a reachable state with a live pending update has a continuation that switches the configuration before the update's time is up if and only if an approval is under way, or the server has approved or may still approve the current ticket of a running poll |
| ControllerStandstill.ApprovalUnderPending | agent/internal/controller/controller.go:569-719 | a behaviour with a launch for a configuration without a server that is overtaken by an approval |
| ControllerStandstill.OnlyEarlierSwitchesMove | agent/internal/controller/controller.go:298-346 | in every behaviour, a step after a shutdown switches the configuration if and only if it is the end of an Enroll or StartPairing, only the save of one writes the file, and that one passed its test before the shutdown |
| ControllerStandstill.SwitchedAfterShutdownIff | agent/internal/controller/controller.go:419-469 | a reachable state in a shutdown has a continuation that switches the configuration if and only if an Enroll or StartPairing is still under way |
| ControllerStandstill.SwitchAfterShutdown | agent/internal/controller/controller.go:419-469 | a behaviour that switches after a shutdown |
| ControllerProtocol.EnrolledByApproval | agent/internal/controller/controller.go:689-719 | the agent is enrolled, in memory or on file, only with what Enroll was given or with a credential that an approval installed for that node |
| ControllerProtocol.InstalledByApproval | internal/postgres/store.go:603-689 | a credential was installed for a node by the approval of a pending, unexpired request with that credential |
| ControllerProtocol.DecisionIsFinal | internal/postgres/store.go:546-720 | over every behaviour a pairing request that has left pending never changes again |
| Pairing.ApprovalOk | internal/postgres/store.go:603-689 | an approval keeps one node per machine, every other request and the bounds on decision times |
| Pairing.Store.CreatePairingRequest | internal/postgres/store.go:531-544 | a new request has the caller's state and ten minutes; an id that is taken is refused |
| Pairing.Store.GetPairingRequest | internal/postgres/store.go:546-569 | a poll sees only a request with its own credential, never as pending past its expiry, and with a node exactly if it is approved |
| Pairing.Store.ExpireOne | internal/postgres/store.go:547-553 | a polled request expires exactly if it is pending and its time is up, and nothing else changes |
| Pairing.Store.ExpireAll | internal/postgres/store.go:572-578 | of all requests exactly those that are pending and whose time is up expire |
| Pairing.Store.ListPendingPairingRequests | internal/postgres/store.go:571-601 | exactly the pending requests that have not expired, each once, in the order of creation; none is left pending past its time |
| Pairing.Store.ApprovePairingRequest | internal/postgres/store.go:603-689 | exactly a pending request that has not expired is approved, with its machine's one node and its credential installed; every refusal changes nothing and has its reason |
| Pairing.Store.RejectPairingRequest | internal/postgres/store.go:691-720 | exactly a pending request that has not expired is rejected; the reason of each refusal |
| KeyFiles.Transaction.Prepare | tools/cmd/ace-release/main.go:316-340 | a temporary file under a new name holds the whole contents and is owned; a failure leaves no file that is not owned, and none of the earlier ones changed |
| KeyFiles.Transaction.Publish | tools/cmd/ace-release/main.go:342-350 | a link appears only under a name that did not exist, with the contents of the temporary file; after an error the files are as before, unless the link was made all the same |
| KeyFiles.Transaction.RemoveOwned | tools/cmd/ace-release/main.go:352-366 | after success the file is gone, and only it; no other entry changes; a failure is remembered |
| KeyFiles.Transaction.Sync | tools/cmd/ace-release/main.go:368-374 | a synced directory has no change left that could be lost |
| KeyFiles.Transaction.Rollback | tools/cmd/ace-release/main.go:380-405 | no failure stops the rest: what is still owned could not be removed and what is still affected could not be synced; a complete rollback owns nothing any more and has synced every affected directory |
| KeyFiles.Transaction.Fail | tools/cmd/ace-release/main.go:407-412 | the primary error is returned only when everything was taken back and is safe; what is left then is exactly what a link made that reported an error |
| KeyFiles.Transaction.CleanupFailure | tools/cmd/ace-release/main.go:414-417 | after a removal failed the outcome is an incomplete rollback |
| KeyFiles.Transaction.PublishPublic | tools/cmd/ace-release/main.go:442-459 | after the first phase the public half is published, the private half is a temporary file, and nothing else is new |
| KeyFiles.Transaction.PublishPrivate | tools/cmd/ace-release/main.go:460-471 | after the second phase both halves are published and nothing else is new |
| KeyFiles.Transaction.Generate | tools/cmd/ace-release/main.go:419-472 | exactly one of three outcomes: both halves of one key under names that were free, no temporaries and no unsynced directory, iff every operation worked, that of the generator included; the incomplete rollback iff taking back failed, with nothing left but what could not be removed; else a primary error with every file as before and nothing unsynced, iff no link was made that reported an error; if one was, the error is that of the publication and exactly its half of the key is there; no existing file is ever touched |
| UpdateHelper.Machine.RestoreLastKnownGood | agent/internal/update/helper.go:234-265 | at least one attempt, ended by the first success, the time limit or cancellation; success means the original executable is back; the loop terminates |
| UpdateHelper.Machine.Rollback | agent/internal/update/helper.go:197-232 | stop, restore, configure, start and health check in order, ended early by any failure but that of the restore, which is tried for five seconds; the errors joined are exactly the failed calls; with the first four successful the service runs the original executable |
| UpdateHelper.Machine.Prepare | agent/internal/update/helper.go:137-166 | before the installer the executable is untouched; success means the service is stopped and the backup is the original; a failure starts the service as it was |
| UpdateHelper.Machine.Apply | agent/internal/update/helper.go:167-194 | no error means installed, configured, started, healthy and only then cleaned up; any failure is followed by the rollback and removes nothing |
| UpdateHelper.Machine.RunHelper | agent/internal/update/helper.go:103-195 | for every pattern of failures: invalid options, a wrong updater and a held lock are refused in that order, each with its error alone, and like a missing platform or a cancelled context touch nothing; else the executable is written only while the service is stopped and a backup of the original exists; no error but that of the release is returned iff every step succeeded in order, and then the healthy service runs what was installed; otherwise the failing step decides what was still done, the backup is kept, and a rollback whose first four steps succeed leaves the original running; the tray is started again iff it was stopped |
| LogTail.SecretIsGone | agent/internal/diagnostics/bundle.go:210-215 | for any text, any other secrets and any order, no occurrence of a secret that does not clash with the marker is left |
| LogTail.CleanTextStays | agent/internal/diagnostics/bundle.go:210-215 | a text without secrets is not changed |
| LogTail.ReplacedPieces | agent/internal/diagnostics/bundle.go:210-215 | replacing a secret cuts the text at its leftmost occurrences that do not overlap and joins all the pieces again with markers |
| LogTail.RedactIsRedaction | agent/internal/diagnostics/bundle.go:210-215 | redaction is that, for each of the secrets in turn |
| LogTailText.TextSurvives | agent/internal/diagnostics/bundle.go:210-215 | if no secret after the first one replaced clashes with the marker, a redacted text is the text with a marker in place of some secrets: all the rest stays in its order, and nothing else is added |
| LogTailText.MarkerIsTorn | agent/internal/diagnostics/bundle.go:210-215 | a text for which that fails, because a later secret is found in the marker of an earlier one |
| LogTailText.WindowSurvives | agent/internal/diagnostics/bundle.go:181-185 | so what is shown of a window is the end of the trimmed window, but for the secrets in it |
| LogTail.PlainSecret | agent/internal/diagnostics/bundle.go:210-215 | a secret without brackets that is no part of REDACTED does not clash |
| LogTail.ShownIsClean | agent/internal/diagnostics/bundle.go:181-185 | whatever window was read and however it is trimmed and bounded, no secret that does not clash is in what is shown |
| LogTail.TrimmingIsFree | agent/internal/diagnostics/bundle.go:152-181 | a full window, trimmed, still has as many bytes as may be shown |
| LogTailLeaks.KeptOutIff | agent/internal/diagnostics/bundle.go:141-235 | for every non-empty secret: it is kept out of the trimmed, redacted and bounded tail of every file, at every limit and beside every set of secrets, exactly if it does not clash |
| LogTailLeaks.ClashLeaks | agent/internal/diagnostics/bundle.go:141-235 | for every clashing secret of two or more bytes, a file of less than three times its length and a second secret with which the tail of the file shows it |
| LogTailLeaks.ShortClashLeaks | agent/internal/diagnostics/bundle.go:141-235 | a clashing secret of one byte is shown by the tail of a file that holds nothing else |
| LogTail.OrderIsUnique | agent/internal/diagnostics/bundle.go:217-235 | the order in which secrets are replaced does not depend on how they were listed or on the iteration over a map |
| LogTail.NormalizeSecrets | agent/internal/diagnostics/bundle.go:217-235 | each secret that is not empty, once, longer ones first, equal lengths in lexicographic order |
| LogTail.TrimLeadingSecretFragment | agent/internal/diagnostics/bundle.go:198-208 | what is cut is the longest proper end of a secret that the contents begin with, and nothing else |
| LogTail.StraddlingSecretIsTrimmed | agent/internal/diagnostics/bundle.go:198-208 | a secret that the start of the window cuts in two is trimmed off to its end |
| LogTail.MaxSecretBytes | agent/internal/diagnostics/bundle.go:188-196 | the length of the longest secret, 0 without secrets |
| LogTail.ReadLogTail | agent/internal/diagnostics/bundle.go:141-186 | the result is at most the (defaulted) maximum long, contains no complete secret that keeps clear of the marker, and is the end of the redaction of the trimmed end of the file; which failure is returned as which error; the two refusals and their exact conditions |
| NetworkUsage.SampleTallies | agent/internal/agent/network_usage.go:100-159 | one sample keeps the stored totals equal modulo 64 bits to those of an account of its own, which remembers the day and the counters of the last sample, and the day's true total within the month's |
| NetworkUsage.TalliesWithinWords | agent/internal/agent/network_usage.go:100-117 | while the month's true totals fit 64 bits the stored totals are the true ones and today never exceeds the month |
| NetworkUsage.TodayIsTheCounterDifference | agent/internal/agent/network_usage.go:104-148 | on one day with counters that do not fall, today's total grows by exactly the counter difference, over any samples, lost saves and restarts from states saved that day |
| NetworkUsage.Sampler.LoadState | agent/internal/agent/network_usage.go:134-148 | the state is loaded once, and is a saved one or the empty one |
| NetworkUsage.Sampler.RollPeriod | agent/internal/agent/network_usage.go:150-159 | a new month and a new day each reset their own totals |
| NetworkUsage.Sampler.Advance | agent/internal/agent/network_usage.go:101-117 | the fields after a sample are those of the specification function |
| NetworkUsage.Sampler.Sample | agent/internal/agent/network_usage.go:88-132 | a failed read changes nothing; any other sample keeps the tallies, loses at most the checkpoint, reports today within the month while the true totals fit 64 bits, and its rates over the time since the last sample are exactly the bytes added to today |
| NetworkUsage.Sampler.SampleRate | agent/internal/agent/network_usage.go:161-175 | rate times time is the traffic since the last sample of this process; zero without one, without time passed, or after a counter fell |
| PairingLimiter.TwoWindows | internal/api/router.go:84-121 | any half-open minute touches at most two windows of a key, so it holds at most twenty grants |
| PairingLimiter.GrantOk | internal/api/router.go:93-112 | counting a grant for a key with room keeps at most ten grants per window, windows apart, and every count equal to the grants made |
| PairingLimiter.Limiter.EvictExpired | internal/api/router.go:115-121 | exactly the windows that began a minute or more ago are removed |
| PairingLimiter.Limiter.Allow | internal/api/router.go:84-113 | granted exactly if neither window is full and the table has room; a refusal changes nothing but evictions |
| PairingLimiter.Limiter.Limited | internal/api/router.go:84-121 | at any time: ten grants per window, twenty in any minute, 4096 windows |

## Left out

- Docker, compose, pg_dump, registry and HTTP calls (internal/systemupdate/platform.go, registry.go): an action either succeeds, or fails with or without effect.
- Liveness of upgrades: nothing says that a task can be retried; the code does not guarantee it.
- Dates, sizes and published times of releases, log output and error texts that no decision depends on.
- Routing, sessions, JSON and body limits: a completion is accepted at the validators; an escaped JSON body may still exceed the request cap.
- The semantic-version library, Go's time formats and time zones: a version order and a month of a day are assumed.
- SQL text, the schema, foreign keys and cascades: rows are entries of maps with the initial values the inserts imply. Pruning of old pairing requests is not part of the model.
- The expiry written inside ApprovePairingRequest (internal/postgres/store.go:631-636): its transaction is rolled back, so it is no change.
- Database transactions of the classes are isolated from each other; only `CommandProtocol` lets the statements of a claim interleave with others.
- Revoked credentials and the type of a node: the live credentials of windows nodes are one map that no operation here changes.
- Plain reads of commands (ListCommands, GetCommand): only the sums of their counts are proved.
- Controller.Controller.BeginShutdown: does not model the wait for the workers after the section, because no modelled state depends on it.
- Controller.Controller.InvalidateGeneration: the update scheduler has no context of its own; its work ends with the context of its generation, from which the code derives it.
- Worker goroutines, the update scheduler and diagnostics of the controller: a worker's reports are arbitrary changes of the status. Server URLs are not part of a configuration.
- Taking the launch gate and the first section under the mutex after it are one step: nothing observable lies between them. So are the two first tests of Enroll and StartPairing.
- The mutex that admits one Enroll or StartPairing at a time: the theorems hold with any number of them.
- KeyFiles.Transaction.Generate: other programs do not change the directories meanwhile; os.CreateTemp fails without leaving a file; owned files are entries of a sequence, not shared objects.
- UpdateHelper.Machine: the service changes state only by the helper's own operations; a spontaneous crash of the service is not modelled, and the executable's identity checks are one answer.
- CommandWorker.Worker.Run: bounds the number of turns by an arbitrary number instead of running forever; the error sink and the redaction of its messages are left out.
- LogTail: partial secrets are out of scope; trimming a fragment may cut into a later occurrence.
- LogTailText.TextSurvives: supposes that no secret after the first one replaced clashes with the marker, because a clashing one may replace a part of an earlier marker (`LogTailText.MarkerIsTorn`); for those, `LogTail.RedactIsRedaction` says what every single replacement keeps.
- NetworkUsage.Sampler.SampleRate: rates are real numbers, without the rounding of floating point.
- NetworkUsage: the writing and decoding of the state file.
- Windows services, pipes, tray, ACLs, cryptography, the frontend and bitmap generation.
