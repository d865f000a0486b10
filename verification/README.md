# Verification of pi-watch

A Dafny model of pi-watch's background-command core, with proofs. `dafny verify dfyconfig.toml` checks all of it.

## What is modelled

**The durable store** (`src/job-store.ts`, `src/store-evidence.ts`). `JobStore` says what each of the eight
transactions commits and returns on the tables jobs, control, claims, results, notices and witnesses, grouped by job.
`JobDatabase` runs the operations statement by statement on six mutable tables and meets that. `StoreEvidence` is the
evidence lattice and its partial join, with `mergeEvidence` step by step; `EvidenceRow` is its stored form.
`StoreInvariants`, `StoreRuns` and `StoreGuarantees` hold the invariant of every run and what it means to callers;
`StoreAnswers` says what every operation answers, stores and refuses, from the rows alone.
Clocks are arbitrary: every transaction samples any time.

**Commit outcomes** (`src/store-client.ts`, `src/store-worker.ts`, `inTransaction`). `StoreConnection` is one connection
with faults at BEGIN, in the body, at COMMIT (which may have reached the file) and afterwards. `StoreClient` is the map of
waiting requests, the worker's answers, their loss and the loss of the worker; `StoreStartup` is how opening a client ends;
`StoreDelivery` shows that no request is forgotten.

**The launch protocol** (`src/runner.ts`, `src/guardian.ts`, `src/launch.ts`). `Guardian` and `Runner` are state machines
whose steps are the event handlers up to their next await; `GuardianProcess` and `RunnerProcess` are the handlers on
mutable variables, proved to take those steps. `RunnerProgress` proves that the runner always closes, `RunnerTerminals` how
many terminal publications it queues and sends. `GuardianMessages`, `RunnerDecisions` and `RunnerEvidence` say for every
message, request and publication which events it takes, independently of how a step is computed. `LaunchNode`,
`LaunchNodeSteps`, `LaunchSystem`, `LaunchSafety` and `LaunchGuarantees` compose one store, any clients and any number of
runners with guardians, ordered channels and shells. Crashes, spurious disconnections, lost messages and lost replies may
happen at any point; a store call that was made may commit at any later time or never, a publication even repeatedly.
`LaunchScenario` shows that the runs which the guarantees speak of include real launches.

**Capture and reading** (`src/output-capture.ts`, `src/output.ts`). `OutputCapture` is the accept, pump, marker and seal
machine, `StreamCapture` its class with the storage buffer, `ClosureReceipt` the receipt text and its strict parser;
`CaptureCompleteness` shows that nothing is lost without a cause.
`Utf8`, `Json` and `Paginator` are the tokenizer, the serialized size and the page builder; `Polling` follows offsets over
growing snapshots; `PageDisplay` and `JsonReader` say what a page shows by independent readers; `SnapshotReader` is the read
itself. `CaptureCoherence` and `ReaderDecisions` put reader and writer together.

Three facts about the code that differ from its documentation or from a first guess:

- `docs/plans/2026-09-11-u2-w3-launch-skeleton-addendum.md:50` promises own-group KILL at the end of every grace. Two steps
  give a pending KILL up: losing the channel while cleaning, and the report of a failed fork after something else had
  started cleanup. `Guardian.KillUnlessGivenUp` proves that these are all; with a shell started only the channel loss is
  left (`Guardian.ShellIsKilledUnlessChannelLost`). `Guardian.ChannelLossDropsKill` and `Guardian.FailedForkDropsKill` are
  such runs.
- A `shell_error` during the capture cutover makes the runner queue two terminal publications, in exactly the runs in which
  the due cutover timer then finds the runner still open and stopping (`RunnerTerminals.TwoTerminalsQueuedIff`;
  `RunnerTerminals.TwoTerminalsAreQueued` is such a run). At most one is ever sent
  (`RunnerTerminals.AtMostOneTerminalSent`): whoever awaits a terminal publication closes the runner before the next link
  of the chain starts, because its continuation is queued first (`src/runner.ts:167-210`).
- `publishResult` never reads the control row, so the store alone does not tie a launch to an authorization. That is a
  theorem of the composed system (`LaunchGuarantees.ReportedShellWasReal`, `LaunchGuarantees.ShellWasAuthorized`).

## Assumptions

- A runner token is known only to the runners started with it, and each runner draws a fresh claim identifier.
- A child `error` event without a `spawn` event means that there is no process.
- A rollback restores what was durable, and replies clone across the worker boundary.
- Store calls, sealing and discarding return (for the termination of the runner only), finitely many messages arrive, and
  a timer that fires early has let some time pass.
- A process ends with either an exit code or a signal.
- Loads of one artifact are atomic, and device and inode numbers are safe integers.

## Model

| member | source | states |
|---|---|---|
| StoreEvidence.MergeEvidence | src/store-evidence.ts:252-385 | the assignments and throws in order accept exactly the observations the declarative merge accepts, on every prior snapshot, and give its result |
| StoreEvidence.StreamTarget.MergeStream | src/store-evidence.ts:387-419 | updating one stream in place succeeds exactly when no established fact is contradicted, and then leaves the joined facts |
| StoreEvidence.AcceptedIffConsistent | src/store-evidence.ts:265-369 | on a consistent snapshot a merge succeeds if and only if nothing established is contradicted and the result is consistent, and the result is consistent |
| StoreEvidence.MergeIsLeastUpperBound | src/store-evidence.ts:247-385 | the merged facts are the least that are at or above the prior facts and the observation |
| StoreEvidence.MergeIdempotent | src/store-evidence.ts:252-385 | merging the same observation again succeeds and changes nothing |
| StoreEvidence.MergeCommutes | src/store-evidence.ts:252-385 | two observations that are accepted in both orders give the same facts |
| StoreEvidence.EmptyMergeNeverThrows | src/job-store.ts:1668-1677 | the pure uncertainty snapshot of a consistent snapshot copies every fact and never throws |
| StoreEvidence.MergeSucceedsIff | src/store-evidence.ts:252-419 | on a consistent snapshot a merge succeeds if and only if the observation takes nothing back and the least combination of both exists and is possible |
| StoreEvidence.MergedIsLeastAbove | src/store-evidence.ts:252-419 | a merge gives the least snapshot above what was established and what the observation literally says |
| EvidenceRow.RowRoundTrip | src/job-store.ts:797-854 | writing a snapshot as positional columns with 0/1 flags and reading the row back gives the same snapshot |
| JobDatabase.Database.Reserve | src/job-store.ts:1251-1306 | the statements leave and return what the reserve transaction does: a replay keeps the first job, other inputs conflict, a new job gets its control row |
| JobDatabase.Database.RequestCancellation | src/job-store.ts:1353-1374 | records a time only on a job that is neither settled nor finalized nor already cancelled |
| JobDatabase.Database.DecideLaunch | src/job-store.ts:1376-1396 | the fences of a decision in order, then the decision on the accepted job |
| JobDatabase.Database.DecideOnJob | src/job-store.ts:1391-1418 | an earlier decision or any evidence stops a new one; otherwise cancellation goes before the deadline |
| JobDatabase.Database.Suppress | src/job-store.ts:1419-1471 | suppression writes decision, final revision, notice and settled state together |
| JobDatabase.Database.ClaimRunner | src/job-store.ts:1475-1499 | one claim per job and only from the reserved state |
| JobDatabase.Database.Heartbeat | src/job-store.ts:1501-1528 | the counter moves by compare-and-set on claim and counter |
| JobDatabase.Database.InsertRevision | src/job-store.ts:1580-1593 | a result and its notice are added unless the revision exists |
| JobDatabase.Database.PublishResult | src/job-store.ts:1530-1606 | publication by compare-and-set on the revision, fenced by token and claim, merged onto the latest snapshot |
| JobDatabase.Database.PublishUncertainResult | src/job-store.ts:1608-1708 | a reconciler's revision only for a fresh observation of claim, counter and revision, with its witness |
| JobDatabase.Database.UpdateNotices | src/job-store.ts:1711-1717 | acknowledges exactly the notices of that job, revision and owner and counts them |
| JobDatabase.Database.AcknowledgeNotice | src/job-store.ts:1710-1725 | fails without effect unless a notice of this owner matches |
| StoreInvariants.StepKeepsStore | src/job-store.ts:1223-1725 | every transaction keeps: revisions are 1..n with exactly one notice each of the job's owner, only the last can be finalized, settled means finalized, uncertain means not finalized, a claim exists unless reserved, witnesses match reconciler revisions one to one, indexes and claims are unique |
| StoreInvariants.NextRevisionIsFree | src/job-store.ts:1575-1593 | the next revision number is the row count plus one and never violates a primary key |
| StoreInvariants.AppendKeepsHistory | src/job-store.ts:1575-1593 | appending a merged snapshot keeps all earlier snapshots at or below it |
| StoreInvariants.SuppressionNeverThrows | src/job-store.ts:1396-1443 | after the initial-evidence check the suppression merge succeeds and is final, with no shell outcome |
| StoreInvariants.StepPersists | src/job-store.ts:1223-1725 | no transaction takes back a job field, a claim, a cancellation, a decision, a revision or a witness; a suppressed job's rows and control never change |
| StoreRuns.RunKeepsStore | src/job-store.ts:1223-1725 | the store invariant holds after every prefix of every run of any clients |
| StoreRuns.RunPersists | src/job-store.ts:1223-1725 | what is recorded at one point of a run is recorded at every later point |
| StoreRuns.DecidedAtMostOnce | src/job-store.ts:1391-1418 | over a whole run at most one authorized_now or suppressed_now is returned for a job |
| StoreGuarantees.CancelledIffRecorded | src/job-store.ts:1353-1374 | a cancellation time is stored if and only if some request was answered with recorded |
| StoreGuarantees.FreshDecisionMeans | src/job-store.ts:1396-1418 | authorized, suppressed_cancelled and suppressed_deadline each mean exactly which of cancellation, deadline and decision came first |
| StoreGuarantees.SuppressionIsFinal | src/job-store.ts:1557-1562 | after a suppression no revision is ever appended and the control row never changes |
| StoreGuarantees.DeadlineSuppressionExcludesCancellation | src/job-store.ts:1353-1363 | a job suppressed by its deadline has no recorded cancellation anywhere in the run |
| StoreGuarantees.CancelledNeverAuthorized | src/job-store.ts:1396-1418 | an authorization can only precede a recorded cancellation |
| StoreGuarantees.CancelledAtMostOnce | src/job-store.ts:1363-1373 | a cancellation is answered with recorded at most once |
| StoreGuarantees.HistoryOverRun | src/job-store.ts:1557-1593 | reading revision r now and any revision s >= r later shows the same consistent r, at or below s, and nothing after a final one |
| StoreGuarantees.OwnersAreIsolated | src/job-store.ts:1353-1725 | an operation of one owner changes, adds and removes nothing of another owner |
| StoreGuarantees.ReconcilersAreBoundedOverRun | src/job-store.ts:1629-1700 | reconciler-made revisions are the witnessed ones; at most 1 while unclaimed and heartbeat counter + 2 once claimed |
| StoreGuarantees.ReconcilerFailsOnlyStale | src/job-store.ts:1608-1677 | on every reachable job a reconciler fails by staleness and in no other way |
| StoreGuarantees.DeciderFailsOnlyUnclaimed | src/job-store.ts:1376-1443 | on every reachable job a decision fails if and only if token or claim is wrong |
| StoreGuarantees.PublisherFailsOnlyStaleOrContradicting | src/job-store.ts:1541-1606 | with the right capability a publication succeeds exactly when the revision is current and the merge is not a contradiction |
| StoreAnswers.PublishJobAnswers | src/job-store.ts:1541-1606 | a publication succeeds exactly with the capability, on an open job, at the current revision and without contradiction; it then stores the least snapshot above the prior and the published facts, finalized as asked, at that time, and answers with that row |
| StoreAnswers.UncertainJobAnswers | src/job-store.ts:1608-1708 | a reconciler succeeds exactly on a fresh observation, stores the same facts as uncertain and leaves its witness |
| StoreAnswers.CancelJobAnswers | src/job-store.ts:1353-1374 | an open job without a cancellation is answered with recorded and the time; a settled one with already_terminal, a cancelled one with already_recorded, and neither changes |
| StoreAnswers.DecideJobAnswers | src/job-store.ts:1376-1471 | which of the four answers a decision gives, and that a suppression stores the one literal snapshot with the flag of its own cause only |
| StoreAnswers.ReservationAnswers | src/job-store.ts:1251-1306 | a replay names the existing job and conflicts on other inputs without any effect; a new request gets a new open job under the candidate name |
| StoreAnswers.EveryOperationAnswers | src/job-store.ts:1223-1725 | on every store that satisfies the invariant, each of the eight operations answers and stores so, changes no other job, and changes nothing when it fails |
| StoreAnswers.EveryRunAnswers | src/job-store.ts:1223-1725 | the same at every point of every run |
| StoreAnswers.PublishedIsStored | src/job-store.ts:1575-1606 | over every run a successful publication adds one row with everything known before and everything published and no more, as the answer says |
| StoreAnswers.StoredFactsArePossible | src/store-evidence.ts:293-359 | no revision of any run has two outcomes, or an outcome or cleanup of what never ran |
| StoreAnswers.RefusalsAreNamed | src/job-store.ts:1251-1725 | which error code each refused operation gets, for every operation on every store that satisfies the invariant |
| StoreConnection.Connection.InTransaction | src/job-store.ts:1101-1165 | BEGIN, body, rollback, COMMIT and the post-commit step leave the file, the write switch and the thrown error of the model, for every fault |
| StoreConnection.TransactionsAreHonest | src/job-store.ts:1101-1165 | success and committed mean landed, a plain error means not landed, unknown and committed disable writes for good |
| StoreConnection.FailedOperationChangesNothing | src/job-store.ts:1120-1131 | an operation that throws leaves the store as it was |
| StoreDelivery.TransactionAnswers | src/job-store.ts:1101-1165 | without a fault the caller gets the operation's own answer; each fault gets its own error, and exactly the transactions past a COMMIT that was not lost landed |
| StoreClient.RelayIsFaithful | src/store-worker.ts:193-209 | what the worker's operation returned or threw is exactly what the caller's promise gets |
| StoreClient.StoreClientObject.SendRequest | src/store-client.ts:378-409 | numbers and registers a request; one that was not handed over is rejected and not left waiting |
| StoreClient.StoreClientObject.OnWorkerMessage | src/store-client.ts:264-319 | before the start has settled only ready and init-error count; afterwards a response settles its waiting request and removes it, and anything else is ignored |
| StoreClient.StoreClientObject.OnWorkerGone | src/store-client.ts:321-351 | a worker error or exit fails the start, or rejects everything that waits |
| StoreClient.StoreClientObject.FailStart | src/store-client.ts:258-262 | the start fails once, with the first error |
| StoreClient.StoreClientObject.OnTerminationEnded | src/store-client.ts:234-256 | the failed start is reported when termination has ended, confirmed or not |
| StoreClient.StoreClientObject.RejectAll | src/store-client.ts:179-191 | rejects every waiting request once, as ambiguous, unknown or plain |
| StoreStartup.FirstDecisionDecides | src/store-client.ts:258-359 | over every order of messages, worker loss and timeout the client opens or fails exactly as the first decisive event says |
| StoreClient.SettlesAtMostOnce | src/store-client.ts:264-319 | over every run no request settles twice |
| StoreClient.OutcomesAreSound | src/store-client.ts:294-318 | for reserve, cancel and decide: success and committed imply that the transaction is in the file, a plain error that it is not and never will be |
| StoreClient.LandsOnceWithItsReply | src/store-client.ts:378-409 | a request's transaction is in the file at most once, and its successful reply is the one it gave there |
| StoreClient.DisabledStaysDisabled | src/job-store.ts:1107-1112 | after an unknown or committed failure nothing is written on the connection any more |
| StoreDelivery.LossSettlesAll | src/store-client.ts:179-191 | losing the worker settles every waiting request: a reservation as ambiguous under its candidate, a cancellation or decision as unknown, anything else as unavailable |
| StoreDelivery.DeliverySettles | src/store-client.ts:288-319 | a response settles its waiting request, and no other, with what the operation returned or threw |
| StoreDelivery.NoRequestIsForgotten | src/store-client.ts:179-191 | over every run each request waits or was settled, and once the worker is lost every one was settled |
| GuardianProcess.Process.Stop | src/guardian.ts:45-54 | clears the timer that the variable holds and exits |
| GuardianProcess.Process.OnKillTimer | src/guardian.ts:70-86 | an early timer re-arms; a due one sends the intent, then KILL, then stops |
| GuardianProcess.Process.Cleanup | src/guardian.ts:87-102 | runs once: deadline message if it was the cause, TERM, receipt, kill timer |
| GuardianProcess.Process.OnTermSignal | src/guardian.ts:103-107 | TERM starts cleanup once a grant was consumed and stops the guardian before that |
| GuardianProcess.Process.OnProbe | src/guardian.ts:118-139 | readiness and the report of it if and only if the guardian leads its own group and the runner is in another |
| GuardianProcess.Process.OnGrant | src/guardian.ts:140-183 | a grant out of turn is a violation, a late one expires without a spawn, otherwise one spawn attempt |
| GuardianProcess.Process.OnSpawn | src/guardian.ts:184-201 | reports the shell, overwriting whatever the state variable held |
| GuardianProcess.Process.OnError | src/guardian.ts:202-208 | reports a shell that never existed and stops |
| GuardianProcess.Process.OnExit | src/guardian.ts:209-223 | reports code and signal, then cleans up |
| GuardianProcess.Process.OnDisconnect | src/guardian.ts:235-240 | channel loss cleans up with a shell or grant and stops otherwise |
| Guardian.EscalatesOnce | src/guardian.ts:70-107 | over every order of events: at most one TERM, at most one KILL, never without the TERM and never within 5,000 monotonic ms of its return |
| Guardian.DeadlineIsHonest | src/guardian.ts:87-166 | a deadline message is sent if and only if the deadline itself triggers cleanup or a grant arrives at or after it |
| GuardianMessages.SendsExactly | src/guardian.ts:67-223 | each message is sent if and only if the channel is open and its one reason holds; a topology success exactly after a second probe with own group equal to the own process id and a foreign runner |
| GuardianMessages.CleanupInOrder | src/guardian.ts:87-102 | deadline message and exit report before the TERM, its receipt after it, nothing twice |
| GuardianMessages.IntentBeforeKill | src/guardian.ts:79-83 | the kill intent is sent before the KILL |
| GuardianMessages.PhaseFollows | src/guardian.ts:45-249 | each phase is entered and left by exactly the stated events |
| GuardianMessages.ChannelFollows | src/guardian.ts:45-262 | the channel closes exactly by disconnection or stopping; the first hello reply sets the orders and ends the readiness timer |
| GuardianMessages.ShellFollows | src/guardian.ts:140-223 | what becomes of the child and when the deadline timer is armed |
| GuardianMessages.ProbesFollow | src/guardian.ts:118-128 | the first probe's answer is kept as the own group and the second probe asked for |
| GuardianMessages.ShellNeedsTopology | src/guardian.ts:118-177 | over every run a shell starts only after the orders of the hello reply, then a probe that put the guardian in its own group, then one that put the runner in another, then a grant before the deadline |
| Guardian.OneAttendedShell | src/guardian.ts:140-182 | with one hello reply at most one shell is started, and a live child always has cleanup started or the deadline timer armed |
| Guardian.SpentStays | src/guardian.ts:140-183 | after a consumed grant or an exit no event starts a shell |
| Guardian.KillDroppedIff | src/guardian.ts:202-240 | a pending KILL is dropped by exactly two kinds of step: losing the channel in the cleaning state, and the error event of a failed fork |
| Guardian.KillUnlessGivenUp | src/guardian.ts:87-107 | once cleanup started, KILL is pending or sent if and only if no step of the run gave it up in one of those two ways |
| Guardian.ShellIsKilledUnlessChannelLost | src/guardian.ts:87-107 | once a shell was started and cleanup began, KILL is pending or sent if and only if the run did not lose the channel while cleaning |
| Guardian.ChannelLossDropsKill | src/guardian.ts:235-240 | for every command there is such a run that leaves its shell running with no timer armed |
| Guardian.FailedForkDropsKill | src/guardian.ts:202-208 | for every command there is a run in which a failed fork ends cleanup without KILL |
| RunnerProcess.Process.Publish | src/runner.ts:163-211 | a publication goes to the end of the chain |
| RunnerProcess.Process.StartPublication | src/runner.ts:167-186 | the head of the chain is sent with the known revision, or skipped once settled or closed |
| RunnerProcess.Process.OnPublished | src/runner.ts:187-206 | a success advances the revision, a lost launch acknowledgement is observed, a terminal failure is not retried |
| RunnerProcess.Process.OnObserved | src/runner.ts:195-207 | an observation of the own launch advances the revision |
| RunnerProcess.Process.FinishPublication | src/runner.ts:209-211 | the link is done, and the awaiter of a terminal one closes before the next link starts |
| RunnerProcess.Process.Close | src/runner.ts:220-242 | closes once, clears the timers and lets go of the guardian |
| RunnerProcess.Process.PublishSpawnFailure | src/runner.ts:249-268 | latches stopping, or does nothing if it was latched |
| RunnerProcess.Process.OnDiscarded | src/runner.ts:266-281 | queues the final spawn failure |
| RunnerProcess.Process.OnStreamEnd | src/runner.ts:301-310 | end of stream counts until the freeze |
| RunnerProcess.Process.FreezeAndPublish | src/runner.ts:379-401 | an early timer re-arms; a due one freezes and seals |
| RunnerProcess.Process.OnSealed | src/runner.ts:411-439 | the terminal evidence from the frozen facts is queued, each stream with what its own seal said |
| RunnerProcess.Process.BeginCutover | src/runner.ts:446-457 | the first trigger alone sets the cutover deadline |
| RunnerProcess.Process.BeginBudget | src/runner.ts:464-467 | the budget starts at most once |
| RunnerProcess.Process.OnLoaded | src/runner.ts:471-513 | missing utilities fail the spawn, a guardian arms readiness and deadline timers |
| RunnerProcess.Process.OnDecision | src/runner.ts:515-538 | everything but a fresh authorization closes the runner |
| RunnerProcess.Process.SendGrantOnce | src/runner.ts:539-556 | one grant, on a connected channel, after the captures are attached |
| RunnerProcess.Process.OnMessage | src/runner.ts:559-607 | what each guardian message does to the facts, the chain and the budget |
| RunnerProcess.Process.OnTopology | src/runner.ts:572-579 | a verified topology asks for the decision, a failed one fails the spawn |
| RunnerProcess.Process.HandleGuardianLoss | src/runner.ts:615-624 | loss before topology is a spawn failure, after the grant the cutover, in between nothing is published |
| RunnerProcess.Process.OnGuardianExit | src/runner.ts:625-636 | guardian exit, likewise |
| RunnerProgress.NeverStuck | src/runner.ts:220-253 | in every state kept by all steps, an open runner has a timer armed or a call outstanding |
| RunnerProgress.StepKeepsLive | src/runner.ts:379-467 | every handler leaves something that moves an open runner on |
| RunnerProgress.StepDescends | src/runner.ts:379-636 | every step of an open runner goes down in a lexicographic measure |
| RunnerProgress.EveryRunCloses | src/runner.ts:220-253 | every schedule reaches closed |
| RunnerProgress.CutoverLasts | src/runner.ts:379-457 | however early timers fire, the freeze comes at least 1,000 ms after the cutover began |
| RunnerProgress.PublishesWhatItFroze | src/runner.ts:395-436 | every publication carries the runner's facts, and a terminal one the frozen stream facts and facts that never change again |
| RunnerProgress.TerminalIsAccepted | src/runner.ts:418-436 | on a snapshot with nothing but the own launch report, terminal evidence is accepted if and only if it has not both code and signal |
| RunnerProgress.SpawnFailureIsAccepted | src/runner.ts:269-277 | on such a snapshot a spawn failure is accepted if and only if no launch is established |
| RunnerDecisions.AsksExactly | src/runner.ts:163-636 | each request is made if and only if its one reason holds, and never two at once |
| RunnerDecisions.StepFollows | src/runner.ts:163-636 | each latch, timer, call and coordinator phase is set and cleared by exactly the stated events; the cutover deadline is 1,000 ms after its trigger |
| RunnerEvidence.RunRemembers | src/runner.ts:559-607 | over every run the runner's facts, captures and revision are what its events said: messages heard before it was stopping, ends before the freeze, the last answer of the store |
| RunnerEvidence.PublicationsAreReported | src/runner.ts:163-436 | over every run each publication that is sent became due at an earlier event, carries exactly what had been heard by then and what the seals of that event said, and expects the last revision learned |
| RunnerEvidence.TerminalCarriesTheSeals | src/runner.ts:411-436 | a terminal publication other than a spawn failure carries the seal of stdout as stdout and that of stderr as stderr, or the unavailable facts without a capture |
| RunnerTerminals.AtMostOneTerminalSent | src/runner.ts:163-211 | over every run from the start at most one terminal publication is sent to the store |
| RunnerTerminals.TwoTerminalsQueuedIff | src/runner.ts:379-401 | once discarding and sealing have returned, two are queued exactly in the runs in which the due cutover timer fires in a stopping runner, and never more |
| RunnerTerminals.TwoTerminalsAreQueued | src/runner.ts:591-593 | for every command a run from the start in which a late shell error queues both |
| RunnerTerminals.OnlyTheFirstIsSent | src/runner.ts:167-210 | that run carried on sends the spawn failure, closes and skips the second |
| LaunchNodeSteps.RunnerGates | src/runner.ts:511-557 | the grant is sent on a fresh authorization only and never once the runner is stopping |
| LaunchNodeSteps.RunnerDeclaresFailure | src/runner.ts:266-268 | a spawn failure is declared on the guardian's word or before the topology was verified |
| LaunchNodeSteps.GuardianSends | src/guardian.ts:118-223 | which step sends which message and in what state it leaves the guardian |
| LaunchNodeSteps.RunnerKeepsNode | src/runner.ts:511-636 | every runner step keeps what ties runner, channel, guardian and shell together |
| LaunchNodeSteps.GuardianKeepsNode | src/guardian.ts:87-245 | every guardian step keeps it, and every message it sends is true |
| LaunchSafety.MergeTrue | src/job-store.ts:1575-1580 | merging an honest observation onto true evidence gives true evidence |
| LaunchSafety.StepKeepsSystem | src/job-store.ts:1379-1606 | every step of every actor keeps: answers are backed by the control row of the claim holder, every durable revision is true, and before the final one it holds nothing but the holder's launch report |
| LaunchGuarantees.ShellWasAuthorized | src/guardian.ts:140-177 | a shell exists only for the claim holder of an authorized job and runs the reserved command, directory and deadline |
| LaunchGuarantees.OneShellPerRequest | src/launch.ts:50-52 | over every run at most one shell is ever started per owner, namespace and request key |
| LaunchGuarantees.CancelledNeverRuns | src/job-store.ts:1396-1418 | a job whose cancellation commits before its decision never gets a shell from any runner |
| LaunchGuarantees.NoShellMeansNever | src/runner.ts:266-281 | a revision with spawn_failed or suppressed_* means that no runner of the job ever has a shell, then or later |
| LaunchGuarantees.ReportedShellWasReal | src/runner.ts:418-436 | a revision with launched, a code or a signal means the one shell there was, with that code or signal |
| LaunchGuarantees.PublicationsOnlyGoStale | src/job-store.ts:1541-1580 | a runner's publication never fails as a contradiction; that of the claim holder commits if and only if the job is not settled and its revision is current |
| LaunchScenario.CommandsCanRun | src/guardian.ts:140-177 | for every request with a positive deadline some run starts its command |
| Utf8.Utf8Token | src/output.ts:200-247 | the hand-written scanner returns the token of the table |
| Utf8.TokenMeetsStandard | src/output.ts:200-247 | a token is the one RFC 3629 and maximal-subpart replacement give for the bytes, and none is returned exactly while growing at a proper prefix of an encoding |
| Utf8.TokenStable | src/output.ts:215-230 | appending bytes never changes an emitted token |
| Paginator.SerializedSize | src/output.ts:288-304 | the serialized size of a page is that of its metadata plus the escaped text, exactly |
| Paginator.WindowToken | src/output.ts:269-279 | three bytes of lookahead complete every token that starts in the window |
| Paginator.TokenCost | src/output.ts:295-304 | a token's escaped size is at least the bytes it consumes |
| Paginator.LongestFitIsMaximal | src/output.ts:276-309 | the specified page fits and no longer prefix of the tokens does |
| Paginator.GreedyIsLongest | src/output.ts:286-304 | stopping at the first token that does not fit gives the longest page |
| Paginator.Paginate | src/output.ts:262-322 | paginating the window gives exactly the page of everything that remains; the final size check never fails |
| Paginator.PageMeetsLimits | src/output.ts:249-322 | every page has at most 51,200 bytes and 2,000 lines and no C0, DEL or C1 control but tab and line feed |
| PageDisplay.SanitizeShows | src/output.ts:249-256 | a harmless character is shown as itself, CR as \r, any other as \x and two lower-case hex digits that read back as its code |
| PageDisplay.PageShows | src/output.ts:262-322 | every page shows exactly the bytes between its offset and its next offset, decoded by the standard and shown scalar by scalar |
| PageDisplay.DisplaysOneText | src/output.ts:249-256 | bytes have one display, so no other text would do |
| PageDisplay.PageIsFull | src/output.ts:276-309 | a page ends at the end, before a sequence that more bytes may complete, or because one more scalar would exceed 51,200 bytes or 2,000 lines |
| PageDisplay.FollowShows | src/output.ts:262-322 | following the offsets over growing snapshots has shown exactly the bytes up to the last offset |
| PageDisplay.LinesCount | src/output.ts:281-286 | a text without a line feed is one line, and every line feed ends one |
| JsonReader.TextReadsBack | src/output.ts:258-260 | an escaped text read by the grammar of RFC 8259 is the text |
| JsonReader.EscapesAreShortest | src/output.ts:295-298 | a character is escaped only if it must be, in two characters where there is such a form and otherwise in six |
| Polling.TokensDecode | src/output.ts:200-247 | the token stream of a closed file is its only decoding under the standard |
| Polling.PrefixStable | src/output.ts:215-230 | tokens shown from a growing snapshot are a prefix of the tokens of every later file |
| Polling.PollingEquivalence | src/output.ts:262-322 | following the offsets over any growing chain shows exactly the sanitized decode of the final bytes |
| Polling.StalledPage | src/output.ts:215-230 | a page makes no progress if and only if the file can grow and the at most 3 remaining bytes are a proper prefix of an encoding |
| Polling.DrainShowsAll | src/output.ts:262-322 | reading a closed snapshot to the end terminates and shows all of it |
| ClosureReceipt.ParseInvertsPrint | src/output-capture.ts:229-300 | the parser accepts exactly the canonical text of each coherent bounded receipt of its stream |
| ClosureReceipt.PrintedFits | src/output-capture.ts:160-165 | a bounded receipt always fits 512 bytes |
| OutputCapture.StepKeepsCapture | src/output-capture.ts:390-654 | every interleaving of accepts, short writes, failures, source errors and sealing keeps the file a prefix of the admitted input and the flags true |
| OutputCapture.RawIsPrefix | src/output-capture.ts:481-518 | the raw file is always a prefix of the input, at most the cap |
| CaptureCompleteness.LossNeedsACause | src/output-capture.ts:372-563 | over every run bytes may be missing if and only if the raw file could not be created or the run had a read error, a failed or out-of-range write or a failed marker; a short write is none of these |
| CaptureCompleteness.PublishedReceiptIsHonest | src/output-capture.ts:591-654 | a receipt with incomplete=false has retained = min(total, cap) and truncated exactly when total exceeds the cap; one with incomplete=true was cut over or had a cause of loss before it was built |
| CaptureCompleteness.ReceiptTells | src/output-capture.ts:591-641 | over every run each receipt field says what had happened when it was built, and it is built only if raw file and workspace were synced and verified and nothing was invalidated |
| CaptureCompleteness.SmoothCaptureIsComplete | src/output-capture.ts:372-654 | a run without a cause of loss that is sealed at end of stream, durable, verified and published ends with the first min(total, cap) bytes on disk and the complete receipt |
| CaptureCompleteness.ReceiptFileFollows | src/output-capture.ts:688-725 | the receipt file appears by its rename and goes only when publication fails |
| OutputCapture.CandidateParses | src/output-capture.ts:625-640 | every sealed candidate passes the strict parser and the writer's own inspection |
| OutputCapture.RunKeepsCapture | src/output-capture.ts:390-654 | over every run bytes on disk, marker, receipt and result are never taken back |
| StreamCaptureObject.StreamCapture.Accept | src/output-capture.ts:390-415 | copying a chunk into the buffer takes the accept step and leaves bytes in flight alone |
| StreamCaptureObject.StreamCapture.Copy | src/output-capture.ts:399-402 | the copied chunk stands behind the admitted bytes, which stay |
| StreamCaptureObject.StreamCapture.WriteReturned | src/output-capture.ts:481-518 | a short write goes on behind what was written, an invalid result is capture loss |
| StreamCaptureObject.StreamCapture.MarkerSyncReturned | src/output-capture.ts:520-563 | a failed marker is capture and durability loss |
| StreamCaptureObject.StreamCapture.SealBy | src/output-capture.ts:421-425 | intake closes at once and only the first call seals |
| StreamCaptureObject.StreamCapture.BuildReceipt | src/output-capture.ts:565-641 | the receipt is built from the flags after pump, marker, sync and close |
| StreamCaptureObject.StreamCapture.PublishReturned | src/output-capture.ts:640-654 | a receipt is returned only if it was published and read back |
| SnapshotReader.CheckLoads | src/output.ts:405-466 | the load steps fail as unread exactly for unreadable loads, as corrupt exactly for readable incoherent ones, and otherwise succeed |
| SnapshotReader.ReadWindow | src/output.ts:491-507 | the read loop returns exactly the requested bytes if the calls bring them, and otherwise fails |
| SnapshotReader.ReadOutputSnapshot | src/output.ts:328-522 | which of the five errors or which page, for every input: the page of everything retained after the offset whenever the loads cohere, the calls bring the window and the file is still the same |
| ReaderDecisions.AcceptedIffConsistent | src/output.ts:405-466 | loads are accepted if and only if they are those of one capture: no receipt or the text of a coherent one, its marker, size, identity and facts in agreement |
| ReaderDecisions.ReadReports | src/output.ts:468-480 | a read of a running capture says that more may come exactly if it has not seen it closed, the job is open and the cap is not reached; one that saw it closed reports what happened to the output |
| CaptureCoherence.NeverCorrupt | src/output.ts:405-466 | with any writer steps between the loads, writer-produced state never reads as corrupt, for initial and for final facts |
| CaptureCoherence.ClosedReadIsComplete | src/output.ts:468-469 | a read that says the output cannot grow has seen all of it |
| CaptureCoherence.ReadsFormChain | src/output.ts:468-480 | the reads of one capture are a chain of growing snapshots |
| CaptureCoherence.ReaderShowsTheOutput | src/output.ts:328-522 | end to end, following the offsets shows the sanitized decode of a prefix of the command's output, all that was retained once the end is reached |

## Left out

- SQLite, its locking, schema checks and the startup handoff: each operation is one atomic transaction.
- File modes, owners, links and tampering with the private directory (`src/private-path.ts`): artifacts appear and are
  renamed atomically, and nobody else touches them.
- Removal of an empty staging file (`src/output-capture.ts:434-454`): the raw file is never taken away; the removal of a
  receipt whose publication failed is modelled.
- Test seams and fixture modes: disabled.
- Token hashing, UUIDs and random bytes: opaque tokens and fresh identifiers.
- Process spawning, `ps`, signals and reading the token from stdin: nondeterministic results and recorded effects.
- Validators of strings, paths, ranges and evidence shapes: easy. A claim identifier is nonempty and free of NUL.
- `creation_ordinal`, session paths, `heartbeat_at_ms` and the list and observe reads of the store: easy.
- STORE_BUSY and the other engine errors are all STORE_UNAVAILABLE here; retry policy is the caller's.
- Offsets of a read are integers; other values are rejected by the same branch as integers out of range.
- The column `author` of a result row is bookkeeping of the model and is read by no operation.
- Durations of the readiness timer, the budget and the deadline timer: they fire at any time; the cutover and the kill
  grace are measured on the monotonic clock as in the code.
- Telemetry counters of a capture: easy.
- `JSON.parse` and the general `JSON.stringify`: receipt printer, receipt parser, page envelope and string escapes only.
- StoreClient.OutcomesAreSound: says nothing of claim, heartbeat and publish when the worker is lost, because the client
  reports those losses as plain errors.
- Error messages of a client's start: codes only.
- LaunchSystem: heartbeats are left out of the composed system because no runner sends any; the store's own runs have them.
- RunnerProcess.Process.OnLoaded: whether the utilities exist and whether the spawn call throws are inputs, being answers
  of the file system and the kernel.
- ClosureReceipt.ParseInvertsPrint: texts are sequences of characters; bytes that are not UTF-8 are never canonical.
