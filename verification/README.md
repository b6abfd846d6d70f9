# Codex Harbor: its crash-tolerant protocols, modelled and proved in Dafny

Codex Harbor runs agent conversations, file operations and previews on a server that may lose power or a
process at any moment. Each of its protocols records an intent durably, performs one outside effect, and
decides after a crash between "done", "not done" and "uncertain". This project models these protocols as
step systems in which a crash may fall between any two steps, and the data-structure code that they rely
on, and proves what they promise over every run.

A protocol comes as one or more of

- a **step system**: a state, an `Event` type, `Enabled`, `Do`, `Step` and `Run` over any list of events.
  A disabled event changes nothing, so every list of events is a run and a theorem about `Run(es)` speaks of
  all runs. Crashes, restarts, power losses, lost replies and the moves of other processes are events;
- a **class in the source's order**, which keeps the state and the (ghost) list of events that led to it, and
  whose methods perform the same awaits in the same order as the source, each with any outcome. `Valid()`
  says that the state is the one that the events lead to, so every theorem about runs holds of the object;
- **lemmas** over all runs. Where a promise of the repository is false of its code, the exact condition
  under which it holds is proved, together with a concrete run that breaks it.

| area | modules |
|---|---|
| file effect receipts | `FileEffect`, `FileAnswers`, `FileService` |
| reservation rows, previews, releases | `Reservations`, `ReservationRules`, `PreviewLeases`, `PreviewOutcomes`, `ReservationStore`, `SupervisedRuns` |
| agreement of receipt, effect and row | `FileOperations`, `FileAgreement`, `FileOutcomes`, `FileSupervisor` |
| workspace storage receipts | `WorkspaceReceipts`, `WorkspaceService`, `StorageRows` |
| launch authority and its recovery | `RunnerAuthority` |
| turn dispatch | `TurnDispatch`, `DispatchLoop` |
| restore publication | `RestoreCopy`, `RestorePublication`, `RestorePublisher` |
| helper slots | `HelperSlots` |
| framing, bodies, budgets | `Octets`, `Base64`, `Framing`, `FrameReaders`, `RelayBodies`, `StreamBudget` |
| traversals and history | `GitWalk`, `GitTrees`, `GitObjects`, `FileSearch`, `FileSearchOrder`, `MessageHistory`, `MessageTexts`, `MessageStore`, `RuntimeMailbox`, `HistoryPages` |

`Sets` holds one counting lemma. `dafny verify dfyconfig.toml` checks the whole project.

## What is assumed

- A SQL transaction is one atomic step on the rows it locks. Its COMMIT may take effect while the reply is lost.
- Every change of owner of a workspace slot draws a fresh `writer_epoch` (the trigger of
  packages/storage/src/migrations/014_previews.sql), and `runtime_generation_seq` never repeats a value.
- `persist` (write, flush, rename, flush the directory) is atomic; its error may follow the rename.
- Creating or removing a container is one step. In `RunnerAuthority` a launch starts a client, and the
  container appears, or does not, at some later point.
- A directory that is made has an inode never used before.
- What has not been flushed may be undone by a power loss, in the restore publication, the workspace
  receipts and the runner authority.
- JSON is an opaque coding without a newline; hashes are opaque functions. Where a hash stands for identity
  (the intent of a receipt) equal hashes mean equal intents.
- A destroyed socket delivers no more data. A searched tree and a listed database do not change between
  pages. The clock of the stream budget does not go back.
- One supervisor at a time (the advisory lock of apps/supervisor/src/main.ts:100-105). Time-outs, authority
  checks, emergencies and failures of the outside world are nondeterministic outcomes.

## Where the code does less than it promises

- **A failed file operation may have been published.** `validateApplied` follows publication, and its own
  error reaches the dispatcher with `confirmedRejected`. A failed row hides a publication exactly when one of
  its calls ended with an error of that check, or of what follows it, that was taken for a rejection
  (`FileAgreement.FailedMeansUnpublishedUnlessLate`); `FailedYetPublished` is such a run, and under the
  premise `QuietChecks` there is none.
- **A creation can become stuck.** Two crashes around the first checkpoint leave a receipt that no retry can
  roll back (`WorkspaceReceipts.TwoCrashesStick`, `StuckForGood`). `CleanCallSettles` proves that this, and
  an applied create whose content has changed, are the only such cases. A refused receipt capacity reports
  a storage failure without any record.
- **Two runners of one identity can live at once.** A launch returns when the `docker run` client has been
  started. At most one container lives, and it is the ledger's, as long as no launch takes the recorded
  container for gone while it may still appear (`RunnerAuthority.OneContainer`), and after any run one such
  launch is enough for two (`HasteOverlaps`, `HasteHappens`). A retirement or a recovery that looks too early
  does not break this, but it can finish and leave its container behind (`RemovalLeavesNone`,
  `RemovalIsExact`, `EarlyLookLeavesOne`).
- **An older tick may claim or fail a newer start of a preview.** Its claim and the failing of a queued row
  look at the state of the row and not at its generation. These two are the only older steps that change
  anything (`PreviewLeases.OlderStepsExactly`, `StaleFailureHitsNewStart`).
- **A preview claim may take the wrong lease.** The claim uses the profile and generation of the row as the
  tick selected it. The lease is where the row will look for it exactly when that copy was current
  (`ClaimLeaseExact`, and over runs `LeasesHoldExactly`); `StaleClaimLosesItsLease` shows the race and
  `LostForGood` that no retirement or recovery ever settles such a preview. It still keeps Git operations out
  of its project (`LivePreviewExcludesGit`).
- **A sent turn may be recorded as never sent.** The catch of the dispatch loop takes a missing runtime and
  the absence of a launch attempt for proof that nothing was sent. That verdict is false exactly for a turn
  that used a running runtime which has since gone (`TurnDispatch.VerdictIsFalseExactly`, `SentYetFailed`);
  an already uncertain turn keeps its record (`RecordIsFalseExactly`).
- **A helper may live without its slot.** If anyone looks for a helper before its own call has created it,
  the row can go and the helper come (`HelperSlots.LiveHelpersHaveRows`, `HasteUncovers` for every such
  look). The dispatcher's own watchdog (apps/supervisor/src/files.ts:308-323) may look like that
  (`HasteHappens`).
- **The supervisor's preview frames may depend on chunks.** After an abort the `data` listener goes on with
  the rest of its buffer. This makes a difference exactly when a listener throws on a line that has a good
  one behind it (`Framing.PreviewIgnoresChunksExactly`, `HazardShows`), as the listener that waits for the
  relay does on `null` (`NullBeforeReady`). The relay's and the gateway's readers do not depend on chunks.
- **An accepted Git tree may call a directory a file.** An object that was seen before is not compared with
  the kind it is named under the second time (`GitObjects.NamesAreTrueExactly`, `SubtreeNamedAsFile`), and
  the byte limit is checked on the size that git reports (`ReportIsTrue`).
- **A text search may leave the rest of a file.** A page that stops inside a file lets the next one read the
  whole file again, and that one skips it exactly when the file is larger than the bytes left by then
  (`FileSearchOrder.RestIsLostExactly`); the chain goes on behind it and may end untruncated, with
  the file counted as skipped (`HalfSearched`).
- **Command output may exceed 256 KiB.** Reconciliation extends a row whatever its role. The bound holds
  exactly as long as no native message extends an unfinished command row past the room for command output
  (`MessageHistory.ToolsStayBoundedExactly`, `AnyOpenCommandOverruns`). One command's text exceeds 32 KiB
  only by such a message, too (`OnlyReadingsLengthen`). The bounds on all messages always hold.

## Model

| member | source | states |
|---|---|---|
| FileEffect.AtMostOneEffect | infra/files/service.ts:125-192 | Over every run with crashes, retries, inspections and other writers: one helper and one publication at most; a publication implies a prepared, applied or completed receipt; an applied or completed receipt carries exactly the published result; a completed one was rechecked and flushed. |
| FileEffect.ReceiptsMoveForward | infra/files/service.ts:142-189 | Whatever happens later, the receipt is the same or a later record of the same intent, content and result. |
| FileEffect.AnswersAgree | infra/files/service.ts:142-160 | Every answer of any call or inspection, before or after any further events, is the one published result. |
| FileEffect.CheckSawTheEffect | infra/files/service.ts:194-213 | A receipt that counts as checked was checked at a moment at which the published content was on disk. |
| FileEffect.RejectionIsFinal | infra/files/launcher.ts:268-327 | A call that ended in a rejection before publication has no effect now or at any later time. |
| FileEffect.GoneStaysGone | infra/files/launcher.ts:82-130 | Once the helper was launched and seen gone before publication, nothing is launched or published any more. |
| FileEffect.RunKeepsInv | infra/files/helper.py:370-438 | The joint invariant of receipt, helper, handshake, running call and inspection holds in every reachable state; the helper publishes only content that it offered and that was acknowledged. |
| FileAnswers.FaultlessCallReturns | infra/files/service.ts:125-213 | From any state without a record: a call in which nothing fails publishes its content once, and records and returns it. |
| FileAnswers.RetryAnswers | infra/files/service.ts:142-160 | A call that finds a record of its intent ends, once the helper is gone: with the completed result, with an applied one still to be confirmed, or in doubt. |
| FileAnswers.RetryReturns | infra/files/service.ts:142-192 | A retry that finds its result applied and still on disk completes and returns it, without another publication. |
| FileAnswers.OtherIntentIsRefused | infra/files/service.ts:142-150 | A call that finds a record of another intent ends at once and touches nothing. |
| FileAnswers.HelperErrorIsHeard | infra/files/launcher.ts:268-327 | A helper that ends before publication with an error ends the call as a rejection; any other end of it is none. |
| FileAnswers.UnheardIsNoRejection | infra/files/launcher.ts:268-327 | No other failure of a call is ever taken for a rejection, and what it left at the helper stays. |
| FileAnswers.UnheardWrite | infra/files/service.ts:161-192 | A record whose write was not heard of is on disk or not, and the call ends accordingly: in doubt, and late after the publication. |
| FileAnswers.CheckErrorIsLate | infra/files/service.ts:194-213 | An error of the check after publication ends the call late, as a rejection if it says so. |
| FileAnswers.InspectionReports | infra/files/service.ts:215-280 | An inspection reports and completes a result that is applied and still on disk. |
| FileAnswers.InspectionAnswers | infra/files/service.ts:215-280 | An inspection of another intent gives no answer; of its own it reports a completed result, confirms an applied one and leaves any other unresolved. |
| FileAnswers.InspectionFails | infra/files/service.ts:215-280 | One that cannot see the helper gone gives no answer, and one that fails later is unresolved. |
| FileAnswers.OutsideLeaves | infra/files/service.ts:125-213 | A crash, a removal of the helper, an edit of the file and the end of a call each change that alone. |
| FileService.Broker.ExecuteFile | infra/files/service.ts:125-192 | A second call is refused and changes nothing; an existing receipt is never launched again; a returned result is the completed receipt; an early rejection leaves no publication and no helper. |
| FileService.Broker.InspectFileEffect | infra/files/service.ts:215-281 | An inspection launches and publishes nothing, is refused during a call, and reports only what the completed receipt says. |
| FileService.Broker.Persist | infra/files/service.ts:108-123 | A save that reported success is on disk; an error leaves open whether it is. |
| FileService.Broker.RetireHelper | infra/files/launcher.ts:82-130 | A confirmed retirement means an absent helper. |
| FileService.Broker.Handshake | infra/files/launcher.ts:234-268 | The prepared frame is recorded before it is acknowledged; the call waits, listens or closes. |
| FileService.Broker.FixedFileHelper | infra/files/launcher.ts:131-329 | Whatever the reply, the helper is retired before the result is recorded or the error is given. |
| FileService.Broker.Finish | infra/files/service.ts:160-189 | Only the applied result, checked and flushed, is recorded as completed and returned. |
| FileService.Broker.Retry | infra/files/service.ts:142-160 | A call that finds a receipt launches nothing. |
| ReservationStore.Database.UpdateWriter | packages/storage/src/migrations/014_previews.sql:4-20 | Setting the slot draws a new epoch exactly for a new owner. |
| ReservationStore.Database.ClaimFileRow | apps/supervisor/src/files.ts:234-299 | The checks in their order admit exactly the rows that may be claimed; the slot was free, gets an epoch above all others, the row carries it, a Git operation has its project to itself, and nothing else changes. |
| ReservationStore.Database.FailDependentFiles | apps/supervisor/src/files.ts:37-42 | Exactly what is queued in the same workspace, and for a Git operation what is queued as one in its project, fails; every other row stays. |
| ReservationStore.Database.SettleFile | apps/supervisor/src/files.ts:43-92 | A stale epoch or an ended row changes nothing; otherwise the row ends or becomes uncertain, and only an ended one gives the slot back; the rules are kept. |
| ReservationStore.Database.RecoverFileStartup | apps/supervisor/src/files.ts:93-103 | Row after row: every dispatching row becomes uncertain, every row queued beside one fails, and no other row changes. |
| ReservationStore.DependentsOneByOne | apps/supervisor/src/files.ts:37-42 | Failing the dependents of one more uncertain row after those of others is failing the dependents of them all. |
| ReservationStore.Database.ReleaseFileOperation | apps/api/src/files.ts:735-784 | Released exactly for a ready inspection under the expected epoch of the named owner; then the workspace is free, the operation reserves nothing, its epoch and state stay. |
| ReservationStore.Database.ClaimWorkspace | apps/supervisor/src/workspace-admission.ts:28-71 | A conversation takes a free slot exactly where allowed, under an epoch above all others and with no Git or storage operation pending beside it; no other slot or row changes and the rules are kept. |
| ReservationStore.Database.ReleaseWorkspace | apps/supervisor/src/workspace-admission.ts:72-97 | The slot becomes free if and only if it is that of the exact session and generation and no turn is active or in doubt; nothing else changes, no epoch does, and the rules are kept. |
| ReservationStore.Database.StartPreviewRow | apps/api/src/previews.ts:199-270 | A start has a generation above every generation and epoch so far, is the only one waiting in its workspace and holds no lease yet; nothing else changes and the rules are kept. |
| ReservationStore.Database.StopPreviewRow | apps/api/src/previews.ts:271-338 | A stop retires and frees nothing: a current live row waits for its retirement with its lease where it was, a stale generation changes nothing. |
| ReservationStore.Database.AdmitPreview | apps/supervisor/src/previews.ts:594-660 | An admitted preview has its place in its workspace and a fresh lease, with no Git operation pending; the lease is the one its row looks for if and only if the selected copy was current. |
| ReservationStore.Database.RetirePreview | apps/supervisor/src/previews.ts:424-453 | Settles if and only if the generation is current and the row is retired or its lease in place; then the row holds nothing and exactly it leaves the live ones; the rules are kept. |
| ReservationRules.EveryTxKeepsFiles | apps/supervisor/src/files.ts:43-103 | Every transaction of every kind keeps: a file reservation names X exactly when X is dispatching or uncertain and unacknowledged, and a pending Git operation has its project to itself. |
| ReservationRules.SettleKeeps | apps/supervisor/src/files.ts:43-92 | A settlement with the epoch of its claim keeps these rules; the slot goes in the transaction that ends the row. |
| ReservationRules.ReleaseFileKeeps | apps/api/src/files.ts:735-784 | Acknowledging and releasing an inspected operation keeps the rules. |
| ReservationRules.RecoverStartupKeeps | apps/supervisor/src/files.ts:93-103 | Turning every dispatching row uncertain, with its dependents failed, keeps the rules. |
| ReservationRules.ClaimFileKeeps | apps/supervisor/src/files.ts:245-299 | A claim of a queued row keeps the rules, Git exclusion included. |
| ReservationRules.UncertainFailsTheQueued | apps/supervisor/src/files.ts:37-65 | An uncertain settlement fails exactly what was queued in its workspace, and for a Git operation what was queued as one in its project; every other row stays. |
| ReservationRules.StartupFailsTheQueued | apps/supervisor/src/files.ts:93-103 | Startup turns exactly the dispatching rows uncertain and fails exactly what was queued beside one; every other row stays. |
| ReservationRules.OtherWriterKeeps | apps/supervisor/src/workspace-recovery.ts:18-38 | Any change of a slot among nobody, conversations and previews keeps the file rules when no Git operation is pending. |
| PreviewLeases.GitOperationIsAlone | apps/supervisor/src/workspace-admission.ts:28-71 | The same for every legal list of file, conversation and preview transactions in any order. |
| SupervisedRuns.SupervisedIsLegal | apps/supervisor/src/files.ts:104-404 | The rows of every run of the file supervisor, crashes and lost replies included, are those of a legal list of transactions: nothing has to be assumed of the caller. |
| SupervisedRuns.PendingGitIsAlone | apps/supervisor/src/files.ts:245-299 | In every such run a pending stage, unstage or commit is the only unresolved operation and writer of its project, with no reader and no live preview beside it. |
| SupervisedRuns.PreviewsKeepTheirRules | apps/supervisor/src/previews.ts:402-497 | In every such run the preview rows keep their rules, and the lease rules if and only if all admitted claims were current. |
| PreviewLeases.LivePreviewExcludesGit | apps/supervisor/src/previews.ts:614-634 | A live preview never shares its project with a pending Git operation, whatever copy its claim acted on. |
| PreviewLeases.RunKeepsRules | apps/supervisor/src/previews.ts:402-497 | In every legal run: retired exactly without a lease; starting, ready, stopping and uncertain exactly unretired; one unretired preview a workspace and four in all, each with the slot or a reader row there. |
| PreviewLeases.EveryTxKeepsRules | apps/api/src/previews.ts:199-338 | Every single transaction keeps the rules of files and previews, and the lease rules unless it is an admitted claim of a stale copy. |
| PreviewLeases.StartIsFresh | apps/api/src/previews.ts:244-258 | Each start draws a generation above every generation and epoch so far. |
| PreviewLeases.OlderStepsExactly | apps/supervisor/src/previews.ts:424-429 | After a new start, a step that carries an older generation changes rows at a later moment if and only if it is an admitted claim or the failing of a waiting row. |
| PreviewLeases.StaleFailureHitsNewStart | apps/supervisor/src/previews.ts:665-670 | A run in which the failing of the selected start fails the start that replaced it. |
| PreviewLeases.StopAllStops | apps/supervisor/src/previews.ts:500-505 | The first tick of a supervisor stops what is starting or running and changes no other row. |
| PreviewOutcomes.LifeBegins | apps/api/src/previews.ts:199-270 | Where there is a place, a preview that is created, changed and started waits under a fresh generation and can be admitted. |
| PreviewOutcomes.LifeEnds | apps/supervisor/src/previews.ts:424-456 | From there it runs under its lease, and stopped and retired it has given everything back: the slot is free, the reader gone, and only the retired row is left, which can be deleted. |
| PreviewOutcomes.AdmissionLeases | apps/supervisor/src/previews.ts:640-660 | An admitted start has a fresh lease: a writer the epoch of its slot, a reader an entry of its own. |
| PreviewOutcomes.LiveRowTurns | apps/supervisor/src/previews.ts:375-390 | A live preview runs exactly from starting and with lease and workspace in order; stopping it or doubting its retirement leaves its lease alone. |
| PreviewOutcomes.RetirementSettles | apps/supervisor/src/previews.ts:424-456 | A confirmed retirement of a live preview with its lease in place gives up exactly that lease; without it nothing is settled. |
| PreviewOutcomes.OtherGenerations | apps/supervisor/src/previews.ts:424-456 | Steps for another generation than the row's find nothing to do. |
| PreviewOutcomes.WaitingEnds | apps/api/src/previews.ts:271-335 | A waiting start that fails or is stopped ends without ever having had a lease. |
| PreviewOutcomes.RetiredSettles | apps/supervisor/src/previews.ts:424-456 | A retired row has nothing to give up, and an operator's recovery leaves it. |
| PreviewOutcomes.LiveIsNotEdited | apps/api/src/previews.ts:163-198 | What is live or waiting is neither edited nor deleted, and only what is waiting fails. |
| PreviewOutcomes.StartExactly | apps/api/src/previews.ts:199-270 | A start is taken if and only if the row is retired and not waiting, its workspace can be used and no other start waits there. |
| PreviewOutcomes.AdmissionExactly | apps/supervisor/src/previews.ts:594-640 | A start is admitted if and only if it waits, its workspace can be used and has no live preview, storage and Git leave the project alone, fewer than four previews live, and its slot or entry is free. |
| PreviewLeases.ClaimLeaseExact | apps/supervisor/src/previews.ts:636-658 | The claimed lease is the one that the row looks for if and only if the selected copy was current in profile and, for a reader, generation. |
| PreviewLeases.LeasesHoldExactly | apps/supervisor/src/previews.ts:594-660 | In every legal run, all live previews hold their leases and no lease is orphaned if and only if every admitted claim acted on a current copy. |
| PreviewLeases.StaleClaimLosesItsLease | apps/supervisor/src/previews.ts:594-660 | Stop, edit and restart between the selection and the claim leave a live preview whose lease is not where its row says. |
| PreviewLeases.LostForGood | apps/supervisor/src/previews.ts:424-453 | A live preview whose lease is elsewhere stays so over every continuation, retirements and recoveries included. |
| PreviewLeases.MovesKeepLoss | apps/supervisor/src/previews.ts:144-161 | Claims, retirements and recoveries of such a preview change nothing, and those of others do not help it. |
| FileOperations.RunKeepsInv | apps/supervisor/src/files.ts:104-404 | Rows, receipts, effects and in-memory repairs keep one joint invariant through claims, calls, settlements, lost commits, inspections, crashes and startups. |
| FileOperations.VerdictFits | apps/supervisor/src/files.ts:362-401 | What the dispatcher concludes from a finished call fits what the call left: success means the completed receipt, failure no publication unless the error was late. |
| FileAgreement.ReservationNamesTheUnresolved | apps/supervisor/src/files.ts:43-103 | In every reachable state, lost COMMIT replies and restarts included, a workspace is reserved for X if and only if X is its unresolved operation. |
| FileAgreement.SucceededMeansCompleted | apps/supervisor/src/files.ts:362-378 | A succeeded row implies a completed receipt with the same result, published once. |
| FileAgreement.FailedMeansUnpublishedUnlessLate | apps/supervisor/src/files.ts:379-401 | A failed row hides a publication if and only if some call of it ended with an error of the check after publication, or later, that was taken for a rejection. |
| FileAgreement.ExcusedMeansLate | infra/files/launcher.ts:280-288 | The operations kept as late are those whose calls ended that way, event by event. |
| FileAgreement.FailedMeansUnpublished | infra/files/launcher.ts:280-288 | If that check never itself reports an error, a failed row always means that nothing was published. |
| FileAgreement.FailedStaysUnpublished | apps/supervisor/src/files.ts:379-401 | Nothing is ever published for a row that failed before publication, whatever happens later. |
| FileAgreement.FailedYetPublished | infra/files/launcher.ts:280-288 | A run in which a stage operation is published, its receipt says so, its row is failed and its workspace given back. |
| FileOutcomes.CallIsConcluded | apps/supervisor/src/files.ts:366-396 | Over every run: the end of a call that returned keeps its result for the row; of a call that failed, `uncertain` if and only if its helper is not known to be gone, or the request had been delivered and the error is no rejection; else `failed`. |
| FileOutcomes.SettlementCommits | apps/supervisor/src/files.ts:43-92 | Over every run: a committed settlement gives the dispatching row exactly what was kept for it, and gives up its reservation unless the row is uncertain; no other slot moves. |
| FileOutcomes.EndedCallSettles | apps/supervisor/src/files.ts:366-400 | From the end of a call to the committed settlement: the row says what became of the call, and the workspace is free unless the row is uncertain. |
| FileOutcomes.UnbuiltClaimSettles | apps/supervisor/src/files.ts:290-306 | A claim that committed but whose reply was lost, or whose command was not built, fails its row and gives the workspace back. |
| FileOutcomes.NothingWaitsBehindDoubt | apps/supervisor/src/files.ts:37-65 | Over every list of transactions no row is queued in the workspace of an operation that is uncertain and not acknowledged. |
| FileOutcomes.NothingWaitsInAnyRun | apps/supervisor/src/files.ts:93-103 | The same over every run of the supervisor. |
| FileOutcomes.DoubtIsReleased | apps/api/src/files.ts:675-786 | From any rows: request, inspection and release under the epoch that it drew acknowledge an uncertain operation and free its workspace; any other epoch releases nothing. |
| FileOutcomes.InspectionFences | apps/supervisor/src/files.ts:185-215 | A finished inspection leaves the workspace with its operation under a new epoch, which the inspection waits for, and changes nothing else. |
| FileOutcomes.InspectionIsRequested | apps/api/src/files.ts:675-733 | An inspection is requested for an uncertain owner, again after it was not available and then for the first epoch, and else nothing changes. |
| FileOutcomes.GenerationMovesOn | apps/supervisor/src/main.ts:1618-1622 | A new generation of the conversation that has the slot takes over the right to give it back; the epoch stays, and another conversation gets nothing. |
| FileOutcomes.LateSettlement | apps/supervisor/src/files.ts:43-62 | A settlement under another epoch than the reservation's, or of an ended row, changes nothing. |
| FileOutcomes.LateClaim | apps/supervisor/src/files.ts:258-300 | A claim of a row that is queued no longer takes its workspace and leaves the row. |
| FileOutcomes.InspectionIsRefused | apps/api/src/files.ts:675-733 | Anybody else's request changes nothing, and a failed inspection keeps the epoch it was requested for. |
| FileOutcomes.HeardIsForgotten | apps/supervisor/src/files.ts:366-402 | What is kept for a row is forgotten exactly when the supervisor hears that it was settled. |
| FileOutcomes.ScanGoesOn | apps/supervisor/src/files.ts:218-262 | The supervisor goes on to the next row of its scan, or gives up, and changes nothing else. |
| FileOutcomes.FileClaimExactly | apps/supervisor/src/files.ts:244-282 | An operation is admitted if and only if its workspace is ready and free, its project neither archived nor busy with storage, no Git operation is under way there and, for a Git operation, nobody writes or reads in the project. |
| FileOutcomes.ConversationClaimExactly | apps/supervisor/src/workspace-admission.ts:20-75 | A conversation likewise, but for the other conversations and saves of the project. |
| FileOutcomes.RequestExactly | apps/api/src/files.ts:306-415 | A request is taken if and only if it is new, its workspace can be used and no uncertain operation waits there for an acknowledgement; it is then queued and owns nothing. |
| FileSupervisor.Dispatcher.ProcessFiles | apps/supervisor/src/files.ts:104-404 | One tick in source order, with any outcomes; at its end the row, receipt, effect and reservation of every operation agree. |
| FileSupervisor.EveryRowAgrees | apps/supervisor/src/files.ts:43-103 | Every row of every reachable state agrees with its receipt, its effect and its reservation, in one statement. |
| FileSupervisor.Dispatcher.SettleRepairs | apps/supervisor/src/files.ts:125-140 | Unconfirmed settlements are repeated before anything else; when all replied, none is left. |
| FileSupervisor.Dispatcher.Restart | apps/supervisor/src/files.ts:93-103 | A new process has no repairs, and no row is dispatching. |
| WorkspaceReceipts.CompletionIsTrue | infra/storage/workspace-receipts.ts:80-179 | Completed implies that the checkout is whole (or gone), that no power loss can undo it, and that no helper still writes. |
| WorkspaceReceipts.FailureLeavesNothingHalf | infra/storage/workspace-receipts.ts:165-176 | A failed create leaves no populated checkout, whatever unflushed work is lost; a failed removal never began. |
| WorkspaceReceipts.RemovalRollsForward | infra/storage/workspace-receipts.ts:124-134 | A removal that saved `removing` never goes back, whatever follows. |
| WorkspaceReceipts.CleanCallSettles | infra/storage/workspace-receipts.ts:80-179 | After any run with crashes, one call without faults ends within 19 moves, in completed or failed if and only if the receipt is not stuck. |
| WorkspaceReceipts.StuckForGood | infra/storage/workspace-receipts.ts:120-123 | A stuck receipt stays stuck and unchanged until a power loss undoes unflushed work. |
| WorkspaceReceipts.TwoCrashesStick | infra/storage/workspace-service.ts:274-293 | Two crashes around the first checkpoint make a receipt that cannot be rolled back. |
| WorkspaceReceipts.RecordsMoveOn | infra/storage/workspace-receipts.ts:40-150 | Over every run no event moves a record but onward; a prepared create may be prepared again, and a failed removal begin again. |
| WorkspaceReceipts.OnlyTheOwnDirectoryGoes | infra/storage/workspace-receipts.ts:40-150 | A directory goes only by the deletion of its removal or the discarding of the inode on record, and comes only where there was none, under a new inode. |
| WorkspaceReceipts.FaultAnswers | infra/storage/workspace-receipts.ts:40-150 | A fault ends the call with an error, through the catch where the effect may have begun, and never with a return. |
| WorkspaceReceipts.HelperAndFlush | infra/storage/workspace-receipts.ts:40-150 | The helper counts as gone once its work or its retirement is known to be over, and a failed flush leaves in doubt what survives. |
| WorkspaceReceipts.RunKeepsInv | infra/storage/workspace-service.ts:205-293 | Receipt, checkout, what a power loss may bring back and the running call keep their invariant in every run. |
| WorkspaceService.Launcher.WithWorkspaceReceipt | infra/storage/workspace-receipts.ts:20-180 | A second call is refused; a return means completed, a storage failure means failed or unrecorded; and what the receipt says at the end is so on disk. |
| WorkspaceService.Launcher.Load | infra/storage/workspace-receipts.ts:81-103 | The stored record decides: answer, revive a failed removal, reconcile, or begin. |
| WorkspaceService.Launcher.Reconcile | infra/storage/workspace-receipts.ts:104-134 | An applied or removing record is finished; another one is cleared and tried again. |
| WorkspaceService.Launcher.Execute | infra/storage/workspace-receipts.ts:145-164 | Prepare, checkpoint, effect, record, retire, flush, complete; or the catch. |
| WorkspaceService.Launcher.RollBack | infra/storage/workspace-receipts.ts:165-176 | What was applied or is being removed is not rolled back. |
| StorageRows.RowSaysWhatHappened | apps/supervisor/src/workspace-storage.ts:22-124 | A completed row stands for a durable effect, a failed one for none, through lost replies, aborts, restarts and power losses. |
| StorageRows.OneTickCloses | apps/supervisor/src/workspace-storage.ts:22-124 | One faultless pass closes the row: always for a removal, for a create if and only if its receipt is not stuck; the row agrees with the receipt. |
| StorageRows.EventLeaves | apps/supervisor/src/workspace-storage.ts:22-124 | The answer moves the row as the call ended if its transaction commits, and only then; the other events say what they leave of row and launcher. |
| RunnerAuthority.LaunchesRise | infra/runner/authority.ts:54-149 | The generations launched strictly rise and were durable before their launch, through crashes, power losses and recoveries. |
| RunnerAuthority.LedgerRises | infra/runner/authority.ts:124-142 | The durable ledger never falls; the visible one falls only by a power loss, and then past generations that were never launched. |
| RunnerAuthority.StaleNeverRuns | infra/runner/authority.ts:70-72 | A generation at or below the durable ledger is never launched again by any call, retry or recovery. |
| RunnerAuthority.CleanLaunch | infra/runner/authority.ts:54-149 | From any free lock: a launch above the ledger in which nothing fails removes the recorded container, records its generation durably, starts it and gives the lock back; one not above the ledger is stale and changes nothing. |
| RunnerAuthority.CleanRetirement | infra/runner/authority.ts:54-149 | A retirement in which nothing fails leaves the recorded container gone and the ledger as it is. |
| RunnerAuthority.MoveLeaves | infra/runner/authority.ts:64-149 | A failed step leaves the ledger, its durable part and the launches as they were; each changes in its own step alone. |
| RunnerAuthority.LockLeaves | infra/runner/authority.ts:54-63 | A lock is dropped by its own call, unless the next ledger still lies in it. |
| RunnerAuthority.RecoveryLeaves | infra/deploy/recover-runtime.ts:164-301 | The recovery takes the recorded container, the next ledger and the named lock, in that order and no other lock; an error stops it where it is. |
| RunnerAuthority.OneContainer | infra/runner/authority.ts:64-122 | If no launch takes the recorded container for gone while it may still appear, at most one container lives or is on its way, and it is the ledger's; retirements and recoveries may be hasty. |
| RunnerAuthority.HasteOverlaps | infra/runner/authority.ts:64-122 | After any run, one hasty launch is enough for two containers at once: the condition cannot be weakened. |
| RunnerAuthority.HasteHappens | infra/runner/authority.ts:54-149 | A second launch right after the first is such a retirement; no crash is needed. |
| RunnerAuthority.RemovalLeavesNone | infra/runner/authority.ts:109-122 | A retirement or recovery leaves no container and none on its way, unless that very removal looked while the container could still appear; earlier ones may have. |
| RunnerAuthority.RemovalIsExact | infra/runner/authority.ts:109-122 | Right after a confirmed removal nothing is left if and only if the recorded container could not appear any more. |
| RunnerAuthority.EarlyLookLeavesOne | infra/deploy/recover-runtime.ts:164-283 | A retirement or a recovery that looked too early can be confirmed and finished, and its container then lives. |
| RunnerAuthority.OnlyRecoveryUnlocks | infra/deploy/recover-runtime.ts:88-164 | A lock whose holder died stops every launch until an operator names that very lock. |
| RunnerAuthority.Host.Launch | infra/runner/authority.ts:34-149 | A launch that returns recorded and launched exactly its generation, above the ledger; a refused or failed one launched nothing; a held lock changes nothing. |
| RunnerAuthority.Host.Fence | infra/runner/authority.ts:64-122 | Only a generation above the ledger goes on to be recorded, after its predecessor was seen gone. |
| RunnerAuthority.Host.Record | infra/runner/authority.ts:124-145 | The ledger is durable before the launch. |
| RunnerAuthority.Host.Retire | infra/runner/authority.ts:23-33 | A retirement records and launches nothing. |
| RunnerAuthority.Host.RecoverRuntime | infra/deploy/recover-runtime.ts:88-301 | The lock goes exactly for the named generation and lock inode; otherwise it stays. |
| TurnDispatch.EachTurnIsSentOnce | apps/supervisor/src/main.ts:1386-1930 | Across all crashes and restarts each turn is sent natively at most once. |
| TurnDispatch.UncertainIsForGood | apps/supervisor/src/main.ts:524-548 | A turn once uncertain is never queued, active or finished again. |
| TurnDispatch.NothingIsReplayed | apps/supervisor/src/main.ts:161-279 | A turn that is neither queued nor in the hands of the loop is not sent again, whatever happens. |
| TurnDispatch.RestartLeavesPast | apps/supervisor/src/main.ts:178-183 | After a restart every turn that was not queued is in that position, and none is active. |
| TurnDispatch.LimitsHold | apps/supervisor/src/main.ts:1411-1474 | At all times active turns and memberships are within their limits, and each conversation has one active turn at most. |
| TurnDispatch.RuntimesHaveRows | apps/supervisor/src/main.ts:1541-1581 | Every runtime in memory has a membership row of its own generation, which is the conversation's current one. |
| TurnDispatch.RetiringTakesNoTurn | apps/supervisor/src/main.ts:695-758 | Whatever happens, as long as a retiring runtime is in memory it keeps retiring, takes no other turn and its conversation is sent nothing; once gone, its generation does not come back. |
| TurnDispatch.EvictionSparesWork | apps/supervisor/src/main.ts:720-756 | Automatic eviction begins at an idle member without a turn, and from then on, whatever happens until the runtime is gone, it has no turn, its row is the retiring one of that generation, and no turn of its conversation becomes active or is sent. |
| TurnDispatch.EvictionRemovesItsRow | apps/supervisor/src/main.ts:769-812 | The row that a confirmed eviction deletes is that of the evicted generation, and no other row or turn changes. |
| TurnDispatch.VerdictIsFalseExactly | apps/supervisor/src/main.ts:1905-1930 | The catch gives a sent turn the verdict that nothing was dispatched if and only if it used a runtime that already existed and has since gone. |
| TurnDispatch.RecordIsFalseExactly | apps/supervisor/src/main.ts:1905-1930 | After a saved catch a sent turn stands as failed if and only if it had failed before, or that verdict was given and the turn was not already uncertain. |
| TurnDispatch.SentYetFailed | apps/supervisor/src/main.ts:1905-1930 | Such a run, from an empty database. |
| TurnDispatch.CompletionRecords | apps/supervisor/src/main.ts:575-600 | Over every run: a completion records exactly its outcome, in the turn of that conversation that its runtime carries, and changes no other turn. |
| TurnDispatch.StateHasCause | apps/supervisor/src/main.ts:524-600 | In every reachable state each turn is in a state that an event of the run gave it: succeeded by a completion that said so, failed by one, a refusal or the catch, interrupted by one, a cancellation or a halt. |
| TurnDispatch.SucceededWasCompleted | apps/supervisor/src/main.ts:580-590 | A turn has succeeded only if a completion of it said so. |
| TurnDispatch.TurnEventsRecord | apps/supervisor/src/main.ts:524-548 | Cancellations, halts, questions, repairs and doubts record what they say in the turn that they name and in no other; an uncertain turn stays uncertain when halted. |
| TurnDispatch.CatchRecords | apps/supervisor/src/main.ts:1905-1930 | A saved catch fails a turn that was never taken or that had neither a runtime nor an attempt at one, and makes any other that is unfinished uncertain. |
| TurnDispatch.CatchLeavesRows | apps/supervisor/src/main.ts:1930-1950 | Of the rows the catch touches that of the generation it tried and only without a runtime in memory: it goes if nothing was attempted and it has no identity, and is in doubt if something was. |
| TurnDispatch.ConversationsStayApart | apps/supervisor/src/main.ts:524-1950 | Over every run an event touches nothing of any conversation but its own: neither turns nor generation, row, runtime or retirement. Only a crash and a restart concern all. |
| TurnDispatch.CrashLeaves | apps/supervisor/src/main.ts:161-279 | A crash takes memory and leaves the rows; the next supervisor makes exactly the active turns uncertain. |
| TurnDispatch.ReuseExactly | apps/supervisor/src/main.ts:1530-1575 | In every reachable state a runtime is taken for another turn if and only if it is free, not retiring, of the chosen generation, and its row idle or protected. |
| TurnDispatch.SendingExactly | apps/supervisor/src/main.ts:1690-1790 | In every reachable state a turn is sent if and only if its conversation has the runtime it was admitted for, that is not retiring, and no uncertain turn without an acknowledgement. |
| TurnDispatch.ChoosingExactly | apps/supervisor/src/main.ts:1411-1474 | The loop settles on a candidate if and only if its conversation has no active turn, the limit of active turns is not reached, and there is a runtime or a place for one. |
| TurnDispatch.RowsAreCurrent | apps/supervisor/src/main.ts:1541-1581 | In every reachable state every membership row is of its conversation's current generation: the admission sets the two together and nothing else moves a generation. |
| TurnDispatch.ReconcileRemovesRow | apps/supervisor/src/main.ts:1123-1147 | So between two ticks any row without a runtime, found absent, can be reconciled away: the comparison of generations saves none. |
| TurnDispatch.BootSettlesRows | apps/supervisor/src/main.ts:200-236 | The start of a supervisor deletes exactly the rows whose processes it finds absent and marks all others unknown. |
| TurnDispatch.ReplacingIsFree | apps/supervisor/src/main.ts:1480-1501 | A runtime with another profile or credentials is retired first, and its place is enough for the new one. |
| DispatchLoop.Supervisor.Tick | apps/supervisor/src/main.ts:1386-1952 | One pass in source order over the turns found: only those are sent, none twice, and the limits stand at its end. |
| DispatchLoop.Supervisor.DispatchFirst | apps/supervisor/src/main.ts:1391-1952 | The first candidate is passed over, refused or taken through; nothing else is sent. |
| DispatchLoop.Supervisor.Choosing | apps/supervisor/src/main.ts:1391-1474 | The checks in their order up to the choice of a generation; a turn that is passed over costs nothing. |
| DispatchLoop.StaysChosen | apps/supervisor/src/main.ts:1475-1503 | The checks made before the awaits still hold after them, unless the runtime left and its row stayed. |
| DispatchLoop.Supervisor.Boot | apps/supervisor/src/main.ts:161-279 | At startup nothing is active, only what was active or uncertain is uncertain, and nothing is sent. |
| DispatchLoop.Supervisor.RetireRuntime | apps/supervisor/src/main.ts:695-828 | A retirement, automatic or not, leaves the loop's plans, the sent turns and the active turns alone. |
| DispatchLoop.Supervisor.Catch | apps/supervisor/src/main.ts:1905-1950 | The catch sends nothing and ends the candidate, or the tick when its record cannot be saved. |
| RestorePublication.InOnePlace | infra/deploy/publish.py:207-221 | Once planned, the inode is at exactly one of slot, claim and target, and nothing else is at any of them. |
| RestorePublication.TargetsAreWhole | infra/deploy/publish.py:222-263 | What stands at a planned target is a whole copy; what the journal calls published is there and equals its inventory. |
| RestorePublication.NothingElseTouched | infra/deploy/publish.py:153-263 | No directory that was there before is touched, except a slot that a plan names. |
| RestorePublication.OnlyTheClaimChanges | infra/deploy/publish.py:228-238 | Content is deleted or written only in the claim, and only in the planned inode. |
| RestorePublication.ErrorsAreExact | infra/deploy/publish.py:176-259 | A step ends in an error if and only if there is no empty slot to plan, a path cannot be placed, or the staged bytes differ from the inventory. |
| RestorePublication.StrangersStop | infra/deploy/publish.py:175-215 | A directory that is not the planned one is not touched: the run stops before it. |
| RestorePublication.EmptySlotExactly | infra/deploy/publish.py:107-125 | An empty prepared slot holds the runner's `workspace` and root's `native`, open to their owners, and nothing else. |
| RestorePublication.OutsideLeaves | infra/deploy/publish.py:153-175 | A crash ends a run, and a power loss settles what the file systems hold. |
| RestorePublication.OneCompleteRunPublishesAll | infra/deploy/publish.py:153-263 | After any crashes and power losses one complete run leaves every project published, flushed, in its planned inode and equal to its inventory. |
| RestorePublication.PlanningSucceeds | infra/deploy/publish.py:175-202 | With one slot a project, the next project always finds an unused one. |
| RestorePublisher.Publisher.Publish | infra/deploy/publish.py:140-263 | A run that returns has published every project, each equal to its inventory. |
| RestorePublisher.Publisher.PublishProject | infra/deploy/publish.py:153-263 | One project from its plan to its record, or an error or a crash. |
| RestorePublisher.Publisher.ListPool | infra/deploy/publish.py:178-181 | The first slot of the sorted listing, or none. |
| RestorePublisher.Publisher.Empty | infra/deploy/publish.py:228-233 | The claim is emptied child by child before it is filled. |
| RestorePublisher.Publisher.CopyAll | infra/deploy/publish.py:234-236 | Path after path is copied; an error leaves the claim to the next run. |
| RestoreCopy.CopyIsExact | infra/deploy/publish.py:71-104 | The copy succeeds if and only if every path has a known class, a directory to lie in and a staged file, and equals the inventory if and only if the staged bytes do. |
| RestoreCopy.SameButMode | infra/deploy/publish.py:153-263 | The comparison with the inventory is equality in all but the mode. |
| RestoreCopy.CopyUnit | infra/deploy/publish.py:71-104 | The loops over the sorted inventory, with that result. |
| RestoreCopy.ParentSooner | infra/deploy/publish.py:74-76 | In the order of depth a directory comes before what lies in it. |
| RestoreCopy.OwnerExactly | infra/deploy/publish.py:38-68 | A path is accepted if and only if its names are those of a known class; the runner owns workspace and git-common with all in them, what is below native and the checkouts, each with its own mode; root owns all else, attachments readable and the rest closed. |
| RestoreCopy.NamesExactly | infra/deploy/publish.py:7-8 | The names: lower-case hexadecimal digits with the hyphens of a UUID, and in native homes with or without a prefix. |
| RestoreCopy.CopyGivesOwners | infra/deploy/publish.py:71-104 | Every node of a finished copy has that owner, and that mode unless it is a link. |
| RestoreCopy.OwnersNest | infra/deploy/publish.py:38-68 | A path is of a known class only if its parent is, and nothing below a directory of the runner belongs to anyone else. |
| HelperSlots.LedgerStaysSound | infra/files/slots.py:67-114 | Whatever brokers do and wherever they crash: four rows at most, no id twice. |
| HelperSlots.RowsLeaveAfterContainers | infra/files/launcher.ts:70-130 | Without haste, when a row leaves its container does not exist, its call can create none, and neither container nor row comes back, whatever happens. |
| HelperSlots.LiveHelpersHaveRows | infra/files/launcher.ts:49-130 | If nobody looks for a helper before its own call has created it, every live helper has a row and four live at most. |
| HelperSlots.HasteUncovers | infra/files/launcher.ts:82-130 | Every hasty look, at any point of any run and whatever its call has reached, can be followed by a live helper without a row though nobody else is hasty: the condition cannot be weakened. |
| HelperSlots.HasteHappens | apps/supervisor/src/files.ts:308-323 | The watchdog of the dispatcher looks like that between the claim of a slot and the creation, in a run without a crash. |
| HelperSlots.Ledger.Claim | infra/files/slots.py:75-94 | A claim succeeds exactly with room and a new id, and appends the row; otherwise only old rows of dead brokers are named stale. |
| HelperSlots.Ledger.Release | infra/files/slots.py:70-74 | Exactly the rows of that id leave; the order of the rest stays. |
| HelperSlots.Host.FixedFileHelper | infra/files/launcher.ts:163-328 | A call from claim to retirement keeps the ledger sound and, without haste, every live helper in it. |
| HelperSlots.Host.Permit | infra/files/launcher.ts:49-62 | Claim until there is room or the time is up. |
| Framing.DrainConserves | infra/previews/launcher.ts:126-149 | The lines handed over and the rest are the buffer: no byte is lost, repeated or reordered, and no line is too long. |
| Framing.RelayIgnoresChunks | infra/previews/relay.ts:250-275 | Lines, effect, closing and remaining buffer depend only on the concatenated bytes. |
| Framing.BrokerIgnoresChunks | apps/api/src/preview-gateway.ts:225-246 | So do effect and closing at the gateway, whose handler ignores lines after it has closed, and its lines unless it closed meanwhile. |
| Framing.PreviewIgnoresChunksExactly | infra/previews/launcher.ts:126-149 | At the supervisor the lines delivered are independent of chunks if and only if no listener throws on a line with a good one behind it. |
| Framing.HazardShows | infra/previews/launcher.ts:126-163 | Such a line, and a chunking that delivers more. |
| Framing.NullBeforeReady | infra/previews/launcher.ts:109-148 | Such a stream of the relay itself: `null` and another frame before the relay is ready; read at once the frame is dropped, in two chunks it is delivered. |
| Framing.FramesArrive | infra/previews/launcher.ts:164-173 | Frames written by a sender are read back, once each and in order, by the relay, the supervisor and a gateway that stays open, under any chunking. |
| FrameReaders.ReadLines | infra/previews/launcher.ts:128-149 | The shared loop over the buffer takes exactly the lines of the specification. |
| FrameReaders.PreviewRelay.OnData | infra/previews/launcher.ts:126-149 | The listener that goes on after an abort. |
| FrameReaders.PreviewRelay.Send | infra/previews/launcher.ts:164-173 | A frame is sent if and only if the relay is open, the frame fits and the backlog has room. |
| FrameReaders.RelayInput.OnData | infra/previews/relay.ts:250-275 | The listener that stops at a shutdown. |
| FrameReaders.BrokerConnection.OnData | apps/api/src/preview-gateway.ts:225-246 | The listener that finishes the chunk at hand after its handler closed. |
| Base64.DecoderInverts | infra/previews/protocol.ts:31-43 | A body comes back from its coding, and is refused exactly when it exceeds the maximum. |
| Base64.DecoderIsExact | infra/previews/protocol.ts:31-43 | A text is accepted if and only if it is well formed and decodes to at most the maximum: the length test and the size test agree. |
| Base64.CanonicalIsEncoded | infra/previews/protocol.ts:31-43 | A well-formed text is the coding of what it decodes to if and only if its padding bits are zero (section 4 of RFC 4648). |
| Base64.EncodedSize | infra/previews/protocol.ts:2-3 | A coding takes four characters for every three bytes begun. |
| RelayBodies.LineFits | infra/previews/protocol.ts:2-3 | Every piece of a body, coded, and the largest websocket message fit one frame. |
| RelayBodies.LinesByEnd | infra/previews/relay.ts:138-225 | The bytes of a line: a piece of a request travels as `body`, one of a response as `data`. |
| RelayBodies.BodyArrivesExactly | infra/previews/relay.ts:211-224 | A request body at the relay or a response body at the gateway, sent in any parts and read in any chunks, arrives whole with its connection open if and only if every piece passes the limits; otherwise its connection is given up. |
| RelayBodies.KeepingUpFlows | infra/previews/relay.ts:213-224 | With a peer that keeps up, every piece passes if and only if the request is within its limit. |
| RelayBodies.SplitChunk | apps/api/src/preview-gateway.ts:387-396 | The splitting loop gives the pieces in order, each in a frame that fits. |
| StreamBudget.NoMinuteOverruns | infra/previews/protocol.ts:45-57 | In any half-open minute, wherever it is placed, at most 4096 entries and 2 MiB are accepted. |
| StreamBudget.RowsAreRecent | infra/previews/protocol.ts:48-56 | The rows kept are the last accepted ones, within the bounds; the others had left the window. |
| StreamBudget.RefusalIsNeeded | infra/previews/protocol.ts:48-56 | A refused call would have overrun the minute that it ends. |
| StreamBudget.Budget.Take | infra/previews/protocol.ts:48-56 | The shifting and pushing of rows accepts as specified, and `used` is the sum of the rows. |
| GitTrees.TreesRoundTrip | infra/files/git_actions.py:490-509 | The parser returns these entries if and only if the bytes are exactly their coding and each is well formed: nothing is skipped or left over. |
| GitTrees.ParsedIsWritten | infra/files/git_actions.py:490-509 | An accepted tree is, from any entry on, the coding of what was parsed. |
| GitTrees.EntryErrors | infra/files/git_actions.py:490-509 | A cut entry or a bad name is invalid, a good name under another mode is not supported. |
| GitTrees.PushEntries | infra/files/git_actions.py:490-509 | The cursor loop pushes exactly the parsed entries with their kinds. |
| GitWalk.WalkCloses | infra/files/git_actions.py:462-509 | Whatever inspecting means: a finished worklist has inspected all that it saw and saw all that this names. |
| GitWalk.WalkCounts | infra/files/git_actions.py:473-482 | The bytes reported are those of the distinct objects seen, within the budget. |
| GitObjects.AcceptedIsClosed | infra/files/git_actions.py:462-510 | Every object that an accepted result reaches through tree entries was fetched, hashes to its own id and, if a tree, parses to the last byte. |
| GitObjects.HashedDetermines | infra/files/git_actions.py:478-490 | The bytes that are hashed determine the kind and the content of an object. |
| GitObjects.HashedExamples | infra/files/git_actions.py:478-490 | They are kind, space, decimal size, NUL and content. |
| GitObjects.InspectErrors | infra/files/git_actions.py:470-489 | Which error an object gives, the first that applies. |
| GitObjects.SeenIsReachable | infra/files/git_actions.py:462-510 | The objects seen are exactly those that a path of tree entries reaches from the result. |
| GitObjects.SeenIsSound | infra/files/git_actions.py:462-510 | At most 10000 objects are seen, each sound, and what they name is seen. |
| GitObjects.ReportIsTrue | infra/files/git_actions.py:473-483 | The report counts distinct objects and their bytes, within 32 MiB if reported sizes are true and else past it by one object at most. |
| GitObjects.FamiliesAreAccepted | infra/files/git_actions.py:462-510 | A well-formed family of objects within the limits is accepted. |
| GitObjects.NamesAreTrueExactly | infra/files/git_actions.py:470-480 | The kinds named by what an accepted result reaches are all true if and only if no reachable object is named under two kinds. |
| GitObjects.SubtreeNamedAsFile | infra/files/git_actions.py:470-480 | A tree that names one of its directories also as a file is accepted. |
| GitObjects.VerifyObjects | infra/files/git_actions.py:462-510 | The loop over stack, seen and total terminates and gives the specified report or error. |
| GitObjects.TakeNext | infra/files/git_actions.py:470-509 | One turn of the loop preserves the answer of what is left. |
| FileSearch.PagesAreAPrefix | infra/files/helper.py:240-367 | The filename pages in a row are a prefix of the whole ordered list of matches, and all of it if the last is not truncated. |
| FileSearch.ChainKeepsBudget | infra/files/helper.py:270-300 | Over the whole chain of pages, in either mode, entries and bytes stay within the first budget. |
| FileSearchOrder.TextMatchesRise | infra/files/helper.py:314-364 | Over a chain of text pages every match stands at its own entry and line of the listing, that line has the text, and the spots rise strictly from the first match to the last. A line with the text past the first cursor is found if and only if no page of the chain, with its cursor still before the line, reached the file and skipped it (above 1 MiB, or above what was left of the bytes when that page reached it), and it does not lie past the end of a last page that was cut. |
| FileSearchOrder.LinesRise | infra/files/helper.py:328-353 | The lines of one file come in order, after those that the cursor has passed, none with the text is left out, and a cursor cut in a file stands at its last match. |
| FileSearchOrder.RestIsLostExactly | infra/files/helper.py:317-353 | A page that begins with a cursor inside a file and reaches it skips what is left of it if and only if the whole file is above 1 MiB or above the bytes that came with the cursor; the chain then never finds that rest. |
| FileSearchOrder.HalfSearched | infra/files/helper.py:317-353 | It happens: of a file with the text in more than 200 lines and of more than half the bytes, the chain finds 200 lines, and its last page is not marked as truncated. |
| FileSearch.Chain | infra/files/helper.py:270-364 | Every page leaves less time for the next, so the chain ends. |
| FileSearch.PageByName | infra/files/helper.py:288-367 | A page holds exactly the matches of a slice of the listing that starts at its offset, and its cursor stands at the end of that slice. |
| FileSearch.WalkIsTheTree | infra/files/helper.py:288-308 | The walk meets exactly the entries down to the depth limit. |
| FileSearch.Search | infra/files/helper.py:240-367 | The loops over stack and names give the specified page. |
| FileSearch.SearchDirectory | infra/files/helper.py:292-364 | One directory is looked through in order and its directories are pushed. |
| FileSearch.LookThrough | infra/files/helper.py:328-353 | The lines of one file, with their matches, cuts and line offsets. |
| FileSearch.ContainsSomewhere | infra/files/helper.py:328-353 | A line is a match if and only if the text stands somewhere in it. |
| FileSearch.EntryCounts | infra/files/helper.py:300-345 | What one entry counts for: visited, skipped if too deep, too big or no text, and the bytes of a file that was read. |
| FileSearch.RemainingExactly | infra/files/helper.py:270-275 | A cursor has left what was not spent, time by at least one, and owes nothing. |
| FileSearch.LimitsExactly | infra/files/helper.py:290-310 | A page stops before an entry when entries, bytes or time are used up; a full page gives a cursor if and only if some of each is left; 32 levels are the depth. |
| MessageHistory.ReconcileOnlyExtends | apps/supervisor/src/recovery.ts:199-283 | Reconciliation changes no complete message, moves or drops none, only appends to the text of an unfinished one, and adds answers only. |
| MessageHistory.HistoryStaysBounded | apps/supervisor/src/conversation-output.ts:36-118 | At every point of every run: at most 2000 messages and 2 MiB. |
| MessageHistory.ToolsStayBoundedExactly | apps/supervisor/src/recovery.ts:232-265 | Command output stays within 256 KiB at every point of a run if and only if no item of a reconciliation extends an unfinished command row, fits the conversation and exceeds the room for command output. |
| MessageHistory.RecoverKeepsBounds | apps/supervisor/src/recovery.ts:225-281 | One item of a reconciliation overruns that room if and only if it does so, and none makes room. |
| MessageHistory.AnyOpenCommandOverruns | apps/supervisor/src/recovery.ts:238-265 | Any unfinished command row of any reachable conversation overruns when a native message of its id goes on past the room left. |
| MessageHistory.ReadingACommandOverruns | apps/supervisor/src/recovery.ts:232-265 | Such a run from the start. |
| MessageHistory.FinalTextIsFinal | apps/supervisor/src/conversation-output.ts:36-118 | An item keeps the row of its last accepted completion, whatever deltas, repeats and reconciliations come in whatever order. |
| MessageHistory.AnswerIsWhatWasSaid | apps/supervisor/src/conversation-output.ts:60-118 | The text of an answer is the one that its accepted completion carried. |
| MessageTexts.AnswerIsItsPieces | apps/supervisor/src/conversation-output.ts:53-57 | From any point of any run, until a completion or a reading of the item: the text of an answer is what it was and then the pieces that had room, joined in order. |
| MessageTexts.PieceOfAnswer | apps/supervisor/src/conversation-output.ts:42-128 | A piece of an answer is added to the end of its text if and only if the item is new or open in this turn and there is room, and else nothing changes. |
| MessageTexts.CommandIsItsPieces | apps/supervisor/src/conversation-output.ts:53-72 | The same of a command's output, as long as all of it fits 32 KiB. |
| MessageTexts.CommandCompletes | apps/supervisor/src/conversation-output.ts:61-71 | An accepted completion of a command ends with its status line, after all of its output if that leaves 256 bytes. |
| MessageTexts.AnswerCompletes | apps/supervisor/src/conversation-output.ts:57-60 | A completion of an answer is accepted if and only if the item is its own or new and there is room, and leaves what was said, complete. |
| MessageTexts.TooLongIsCut | apps/supervisor/src/conversation-output.ts:6-12 | A text that fits is kept; one that does not is its longest beginning within a hundred bytes of the limit, a replacement character if a character was cut in two, and the notice. |
| MessageTexts.OmittedOutput | apps/supervisor/src/conversation-output.ts:75-112 | A piece of output that finds no room leaves the notice, once and if that has room, and nothing else. |
| MessageTexts.CommandStarts | apps/supervisor/src/conversation-output.ts:61-71 | An accepted start of a command leaves its output, or the text so far, or its heading, if that fits. |
| MessageTexts.QuestionIsKept | packages/storage/src/turns.ts:45-75 | A question is kept if and only if it has room. |
| MessageTexts.WidthExactly | apps/supervisor/src/conversation-output.ts:6-12 | The width of a character is the least that reaches its code point (RFC 3629, section 3). |
| MessageTexts.ReadingReports | apps/supervisor/src/recovery.ts:225-281 | A message of the native history that conflicts is counted and not written; one that continues is written whole and counted as repaired, or marks the report as truncated; the others count nothing. |
| MessageTexts.ReadingStops | apps/supervisor/src/recovery.ts:219-224 | Only the first 2000 messages are read, and one more marks the report as truncated. |
| MessageHistory.SaveLetsStand | apps/supervisor/src/conversation-output.ts:36-118 | Output lets a complete row stand unless it is another accepted completion of the same item. |
| MessageHistory.OnlyReadingsLengthen | apps/supervisor/src/conversation-output.ts:6-12 | At every point of every run the text of a command is within 32 KiB, the cut and its notice included, unless a reconciliation lengthened that very message to the text it has: output alone never does. |
| MessageHistory.EndedTurnStands | apps/supervisor/src/main.ts:601-604 | At the end of a turn the messages of its operation become complete; what they say then stays over whatever comes later, unless the same item is completed once more. |
| MessageStore.Conversation.SaveConversationOutput | apps/supervisor/src/conversation-output.ts:16-118 | Totals, quotas and write in order; a piece of an answer or of output is joined exactly when it has room, a completion leaves what was said or ends with the status line, and a thrown error leaves the rows alone. |
| MessageStore.Conversation.ReconcileNative | apps/supervisor/src/recovery.ts:199-283 | The nested loops, with running bytes and count, give the specified rows and report, within the bounds. |
| MessageStore.Conversation.RecoverItem | apps/supervisor/src/recovery.ts:225-281 | The counts carried along are those of the rows. |
| MessageStore.Conversation.EndTurn | apps/supervisor/src/main.ts:601-604 | The messages of that operation become complete and no other changes; no total moves. |
| RuntimeMailbox.CountersAreTrue | apps/supervisor/src/runtime-mailbox.ts:12-39 | Count and bytes are those of the unfinished entries and within the limits; work begins in the order of arrival; the terminal callback fires once if poisoned and else never. |
| RuntimeMailbox.PoisonIsFinal | apps/supervisor/src/runtime-mailbox.ts:12-39 | After the poisoning nothing begins and nothing is accepted. |
| RuntimeMailbox.DrainedMeansAllBegun | apps/supervisor/src/runtime-mailbox.ts:40-42 | A drained, unpoisoned queue has begun all it accepted, once and in order. |
| RuntimeMailbox.EntryRuns | apps/supervisor/src/runtime-mailbox.ts:12-43 | From any reachable sound mailbox: the first entry is applied, counted out and gone; if it fails, the mailbox is poisoned and its callback called. |
| RuntimeMailbox.Mailbox.EnqueueWork | apps/supervisor/src/runtime-mailbox.ts:18-39 | Work is taken if and only if the mailbox is sound and has room in count and bytes; otherwise it is poisoned. |
| RuntimeMailbox.Mailbox.PoisonNow | apps/supervisor/src/runtime-mailbox.ts:12-17 | The callback is called exactly at the first poisoning. |
| HistoryPages.EveryConversationOnce | apps/api/src/history.ts:38-160 | In any of the three orders and with any page sizes the pages to the end hold each wanted conversation exactly once, in one descending order, and the chain ends. |
| HistoryPages.PagesAreTheListing | apps/api/src/history.ts:101-159 | From any cursor on, the pages in a row are the rest of the sorted listing. |
| HistoryPages.ListingIsUnique | apps/api/src/history.ts:119-122 | The order leaves only one listing. |
| HistoryPages.OrderOfListing | apps/api/src/history.ts:95-125 | The order is by creation; by the last change with the selected conversation first; or by the latest question, creation standing in for it; equal times by id. |
| HistoryPages.WantedExactly | apps/api/src/history.ts:118-125 | Which conversations each filter wants. |
| HistoryPages.CursorsAreShared | apps/api/src/history.ts:52-97 | Two listings share their cursors if and only if text, filters and order are the same and, but for the default order, the selection. |
| HistoryPages.PageExactly | apps/api/src/history.ts:118-160 | A page holds the first `limit` of what is selected and leads on if and only if there is more. |
| HistoryPages.CursorBelongsToItsListing | apps/api/src/history.ts:38-100 | A cursor leads on exactly under the filters and the order that gave it. |
| DispatchLoop.Supervisor.MakeRoom | apps/supervisor/src/main.ts:1447-1467 | Idle members that no turn has claimed are retired one by one until there is room; the loop's plans stay. |
| DispatchLoop.Supervisor.Sending | apps/supervisor/src/main.ts:1690-1790 | At most this one turn is sent, and only under the fence. |
| DispatchLoop.Supervisor.Admission | apps/supervisor/src/main.ts:1503-1600 | One transaction admits the turn, passes it over, or leaves its outcome unknown to the catch. |
| PreviewLeases.ClaimKeepsLeases | apps/supervisor/src/previews.ts:594-660 | A current claim keeps every live preview at its lease. |
| PreviewLeases.SettlementKeepsLeases | apps/supervisor/src/previews.ts:424-453 | A settlement drops its own lease and no other. |
| FileOperations.SettleMovesRows | apps/supervisor/src/files.ts:43-92 | A settlement moves its own row, and else only fails queued dependents. |
| RestorePublication.RunKeepsInv | infra/deploy/publish.py:153-263 | The journal, the directories, what a power loss may bring back and the position of the program keep one joint invariant in every run. |

## Left out

- FileAgreement.FailedMeansUnpublished: is proved under the premise that the check after publication does not itself report an error; without it the statement is false, and the exact condition is `FailedMeansUnpublishedUnlessLate`.
- PreviewLeases.LeasesHoldExactly: the lease rules hold exactly in the runs whose admitted claims were current, as `ClaimLeaseExact` shows for one claim; the code does not make sure of that.
- PreviewLeases.GitOperationIsAlone: is stated for legal lists of transactions, those in which the file supervisor keeps its side; `SupervisedRuns.SupervisedIsLegal` proves that every run of the supervisor is one, and `PendingGitIsAlone` states the result without that premise.
- RunnerAuthority.OneContainer: is stated for runs without a hasty launch, because `HasteOverlaps` shows that any such launch can end in two containers; a mismatch of the container's labels is a failure of the retirement.
- HelperSlots.LiveHelpersHaveRows: is stated for runs in which nobody looks for a helper before its own call created it, because `HasteUncovers` shows that any such look can end in a helper without a row. Each operation id belongs to one call.
- MessageHistory.ToolsStayBoundedExactly: the bound on command output holds exactly under the guard stated there, because reconciliation does not look at roles.
- Framing.BrokerIgnoresChunks: needs a handler that ignores lines once it has closed its connection, as the gateway's handler does; the lines handed to a handler that has closed are not compared, as it ignores them.
- RestorePublication.OneCompleteRunPublishesAll: needs placeable paths, faithful staging and a prepared slot for each project; `ErrorsAreExact` shows that nothing else stops a run.
- WorkspaceReceipts.CleanCallSettles: excludes the stuck receipts, which do not settle.
- GitObjects.ReportIsTrue: the byte bound is 32 MiB when the sizes that git reports are true, and one object more otherwise, as the code checks the reported size.
- Reservations: the SQL transactions are functions from rows to rows, and `ReservationStore` carries out their checks and statements in order on one object and states what each keeps and means; locks, waiting and deadlocks are not modelled.
- Managed profile: the reservation of files, conversations and previews is that of the managed profile; the personal profile's shared branch of `claimWorkspace` returns before taking a writer and is left out there.
- Personal profile: turn dispatch is that of the personal profile, where conversations keep runtimes; in the managed profile there are no members to evict.
- Recovery: of `processRecovery` the reconciliation of messages is modelled, and of it and `processWorkspaceReleases` the compare-and-clear release of the slot; their own request states are not. The personal profile refuses requests for a recovery (apps/api/src/server.ts:172-188), so turn dispatch has no such event.
- TurnDispatch: approvals, cancel bookkeeping, attachments, schedules and background timers are left out; an emergency stop is the event `Halt`.
- Terminals, extensions and their share of the writer slot.
- Restored operations (`restored_from`), restored previews and `native_probe_started` in the restore; quota verification and the native directories after publication.
- Paths below a symbolic link and special files in the restore inventory: every path is a file, a directory or a link.
- Fixture mode, local development mode and the docker, systemd, XFS, SSH and restic calls themselves: only present or absent, confirmed or not.
- Authentication, tokens, CSRF, encryption, header policy and quotas of the API's accept and inspect routes: an authority check may fail at any step.
- Stale-file error codes: `FILE_STALE` and `GIT_STALE` count as confirmed rejections.
- HTTP and WebSocket semantics of the preview relay beyond framing and body accounting. How much of a body waits to be written on is an arbitrary function of what was received; websocket messages are framed one by one and not joined.
- FileSearchOrder.TextMatchesRise: hits in files skipped for their size when they were reached, and hits past the end of a last page that was cut, are left out, as in the code; a file that is denied or binary has no lines.
- FileSearch: the directory limit, the query check and the `tree` revision, which does not change on an unchanged tree, are left out.
- MessageHistory: a text is a sequence of code points with their UTF-8 and UTF-16 widths; lone surrogates are not modelled.
- Git: the commit's own tree and parents are not followed by the source either; `git`, `difflib` and the index formats are not part of this model, nor are `publish_index`, `stage` and `commit`.
- HistoryPages: archive, title and metadata routes; text search is an arbitrary predicate.
