# Verification of Pair Notebook

Pair Notebook shares a notebook project between a host and its guests: they edit the same texts and notebooks, follow one
terminal, run code in remote kernels and receive the host's files. This project models the parts that have to survive
crashes, loss and reordering, together with the in-place algorithms beneath them, and proves what they promise.

Check it with `dafny verify dfyconfig.toml`.

## How the project is built

Each component has one module that follows the source's form, a class with the source's fields where it changes state and
loops with invariants where it has loops, and proves it equal to functions on values. A second module takes these
functions as the steps of whole runs and proves the main results as invariants of every run.

| files | component |
|---|---|
| `SessionAgent`, `SessionRun` | durable receipts and reports of the session agent, against a server that appends at its own length and acknowledges an identical replay again |
| `TrainingJob` | launch, supervision and recovery of a training job by three processes with two locks |
| `VerifiedCopy` | resumable, verified staging of a dataset |
| `SharedTerminal`, `TerminalRun` | the shared terminal: streams, generations, sequence numbers, nonces |
| `StorageAdapter`, `StorageRedirects`, `StorageRun`, `StorageDisk`, `StorageRemoval`, `StorageProgress`, `StorageCases` | the storage adapter's queue, pending set, redirects, removal marks and retries; what its runs leave on disk |
| `ProjectTree`, `Materialization`, `FolderInspection` | making, inspecting and deleting shared files in a folder with host-only files |
| `TextEdits`, `TextRebase` | validated in-place edits and their rebase over a diff |
| `CellOrder`, `CellOrderPeers` | the shared cell order and the removal of duplicates by concurrent peers |
| `CellGarbage`, `CellGarbageRun` | collection of unreferenced cells after a grace period, repair, renames |
| `NotebookIdentity` | minimal splices and initial identities of cells |
| `Transfer`, `SnapshotTree`, `SnapshotDownload`, `SnapshotCompletion` | chunks, and the resumable download of a project snapshot |
| `FrameRelay`, `RelayReceiver`, `RelayRun` | cutting, reassembly, expiry and outbox of the frame relays |
| `LineReader` | the line splitter of the kernel bridge's output |
| `KernelBridge`, `KernelBridgeRun` | completion and interruption of executions by racing threads |
| `HostElection`, `HostGroup` (in `HostElection`) | hand-over of the host role |
| `ArtifactScan`, `WorkspaceInstall` | the workspace round trip of the session agent |
| `Bytes`, `FiniteSets`, `Outcomes`, `ProjectPaths`, `Utf16` | shared small types |

Common conventions: texts are sequences of UTF-16 units. Paths are sequences of segments, with the case folding and
tracking rules as parameters. A hash is any function from bytes to digests, encryption any function that opens what was
sealed, a diff any list of kept, removed and added parts, and the shared array a fixed document order with tombstones.

## Where the code does not do what one might expect

Kept as the code has them, with the exact condition where it says so and a lemma that shows the case:

- Redirects that cross (`a` to `b/x` together with `b` to `a/y`) make `resolveCurrentPath` loop forever
  (`StorageRedirects.SearchEndsExactlyWhen`, exact for two redirects; `CrossingNeverSettles`). The runs assume redirects
  of which none interferes with another, and then the search ends (`ResolveCurrentPath`).
- A flush that fails while one of its paths was renamed forgets the path (`StorageRun.FailureLosesRenamed`, exact;
  `StorageCases.FailureLosesScheduled`).
- A rename issued during a flush can move an old file over newer content just written under the new name
  (`StorageDisk.WriteKeepsDiskIff` and `RenameOverWrite`, exact; `StorageCases.RenameMayRestoreOldContent`).
- A queued rename that fails is not tried again (`StorageDisk.FailedRenameIff`, exact for the last operation in the queue;
  `StorageCases.FailedRenameLosesFile`).
- Scheduling a sibling clears the removal mark of its folder, and a failing flush can then bring a removed path back
  (`StorageRemoval.FailureRevives`, exact; `StorageCases.SiblingRevivesRemoved`).
- An execution whose thread is cut off at the end of the process is never reported (`KernelBridgeRun.ReportedOnceAtExit`,
  exact; `CutOffThreadReportsNothing`).
- A deletion concurrent with duplicate removal can lose a cell (`CellOrderPeers.NormalizeThenMerge`, exact;
  `DeletionLosesCell`).
- A folder listed under another spelling than what is below it can be materialized and then reported as extra
  (`FolderInspection.MaterializedMatches` and `MatchesWhen`, exact).
- A link or special node in the place of a wanted file is replaced by a materialization, although it is host-only
  (`Materialization.HostOnlyKeptExactlyWhen` and `LinksAreReplaced`, exact; `LinkIsReplaced`).
- A flush of the relay's outbox during which the last ready broker refuses loses the messages from there on
  (`RelayReceiver.Outbox.FlushOutbox` and `TakenAreFirst`, exact).
- The partial file of a dataset that changed is never discarded, so retries keep failing
  (`VerifiedCopy.PublishesExactlyWhen`, exact; `StalePartialBlocks`, `ChangedFileLeavesStale`), although the error text
  says that retained partial files can be retried.
- A large file that did not change is held against the limits of the artifact scan before it is found to be unchanged, so
  whether there is a warning can depend on the order of entries (`ArtifactScan.CollectChanges`, exact for the order;
  `OrderDecides`).
- The agent may recover a job whose runner it has just launched; only a delay of ten seconds keeps it from doing so
  (`TrainingJob.UndisturbedJobTrains`, under the condition that it waits; `EarlyRecoveryPreventsTraining`).
- The limit of 32 warnings in the artifact scan is never reached (`ArtifactScan.ScanAll`, `WarningsAreFew`).

## Model

| member | source | states |
|---|---|---|
| `SessionRun.ServerLogIsPrefix` | scripts/pair-notebook-session-agent.py:782-1048 | In every run of claims, drains, reports, lost requests and answers, crashes and restarts, the server's log of a command is a prefix of the events in the receipt on disk and covers at least what the agent counts as acknowledged: nothing lost, repeated or reordered |
| `SessionRun.ResendsAreIdentical` | scripts/pair-notebook-session-agent.py:969-1048 | Two reports ever sent for a command at one offset are equal, also across restarts; a terminal state is sent only with the last event of the receipt, its state and its result |
| `SessionRun.CodeRunsAtMostOnce` | scripts/pair-notebook-session-agent.py:782-889 | The code of a command is handed to a kernel at most once, and only after its receipt is on disk |
| `SessionRun.FinalAcknowledgementIsComplete` | scripts/pair-notebook-session-agent.py:1041-1048 | When the acknowledgement of a terminal report is accepted, the server holds every event of the receipt |
| `SessionRun.ServerNeverSeesConflict` | scripts/pair-notebook-session-agent.py:969-1048 | Every report that reaches the server either extends its log or is already in it, so it is never turned away |
| `SessionAgent.SessionAgent.Claim` | scripts/pair-notebook-session-agent.py:782-889 | A command that has a receipt is resumed without being launched; a new one gets its receipt on disk first. The new state is the one the runs use |
| `SessionAgent.SessionAgent.Append` | scripts/pair-notebook-session-agent.py:906-926 | A reply always joins the journal, shortened to a failure when it is too long; any other event joins as it is exactly when it and the journal are within their limits, and the first that is not leaves one notice |
| `SessionAgent.SessionAgent.Drain` | scripts/pair-notebook-session-agent.py:928-967 | The loop over the bridge's queue takes events in order up to the one that ends the command or the limit of one call, appends each that fits, ends the command exactly as the last of them, the warnings and fatal events say, and stores the result once |
| `SessionAgent.DrainMeaning` | scripts/pair-notebook-session-agent.py:928-967 | The same of the step the runs take: which events are taken, what each leaves in the journal, and when the command is then completed, failed, interrupted or still running |
| `SessionAgent.NothingIsOmitted` | scripts/pair-notebook-session-agent.py:906-926 | When everything the kernel said fits, the journal grows by exactly these events in their order |
| `SessionAgent.NextBodyMeaning` | scripts/pair-notebook-session-agent.py:1006-1029 | There is a next report unless a running command has nothing new; it continues at the offset, is as long as the limits allow, and carries state and result exactly when it reaches the end of the journal |
| `SessionAgent.KeepUploadedMeaning` | scripts/pair-notebook-session-agent.py:969-1004 | After a rejected artifact, exactly the artifacts not waiting to be uploaded are still reported, in their order |
| `SessionRun.RunningEndsAs` | scripts/pair-notebook-session-agent.py:782-967 | Each step leaves a running command in the state it stands for: a release completes it, a failed launch or rejected artifact fails it, a stop or a lost receipt interrupts it, a drain decides by what it takes, and no other step ends it |
| `SessionRun.EndedStaysEnded` | scripts/pair-notebook-session-agent.py:782-889 | In every run a command that is over stays so; its state changes at most to failed, when an artifact is rejected |
| `SessionRun.LaunchRunsOnce` | scripts/pair-notebook-session-agent.py:782-889 | A new command can always be launched, and then its code has reached a kernel exactly once |
| `SessionRun.ReportingFinishes` | scripts/pair-notebook-session-agent.py:969-1048 | Whatever happened before: once a command is over and its artifacts are settled, some rounds of reports that are not lost bring its whole journal to the server and close it |
| `SessionAgent.SessionAgent.PrepareReport` | scripts/pair-notebook-session-agent.py:1006-1029 | The report is stored in the receipt before it is sent, and a stored one is sent again unchanged |
| `SessionAgent.SessionAgent.AcknowledgeReport` | scripts/pair-notebook-session-agent.py:1041-1047 | An acknowledgement counts exactly when it names the end of the report that was sent |
| `SessionAgent.SessionAgent.Close` | scripts/pair-notebook-session-agent.py:1127-1133 | A command still running when the service stops becomes interrupted in its receipt |
| `TrainingJob.TrainingStartsAtMostOnce` | scripts/pair-notebook-agent.py:435-541 | Over every interleaving of agent, runner and supervisor, with a crash of any of them at any step, training, the runner and the supervisor are each started at most once |
| `TrainingJob.ResultIsFinal` | scripts/pair-notebook-agent.py:544-697 | Once result.json exists, no step that starts training or writes a result is possible, in this state and after any further run it was written once |
| `TrainingJob.InterruptedMeansNobodyWorks` | scripts/pair-notebook-agent.py:880-933 | When the agent may report a job as interrupted, neither runner nor supervisor is alive with its lock and no result exists; in every run after the report the result stays, no runner gets past finding it and no training starts |
| `TrainingJob.ResultStays` | scripts/pair-notebook-agent.py:544-697 | From any state of the invariant in which the result exists, every run keeps it, writes no other and starts no training |
| `TrainingJob.TestDecides` | scripts/pair-notebook-agent.py:452-457 | In every reachable state with the supervisor at its test, training may start right after it if and only if there is no result, no cancellation and the runner is connected |
| `TrainingJob.CancelledNeverTrains` | scripts/pair-notebook-agent.py:452-457 | A cancellation that is there before the supervisor has tested keeps every further run from training |
| `TrainingJob.UndisturbedJobTrains` | scripts/pair-notebook-agent.py:435-697 | A run without crash, failure or cancellation, in which the agent tries the run lock only after the runner has, is never stuck, has a bounded amount of work, trains exactly once and writes one result, whatever the agent does meanwhile |
| `TrainingJob.EarlyRecoveryPreventsTraining` | scripts/pair-notebook-agent.py:880-933 | A run in which the agent takes both locks before the runner it has just launched: the job is reported as interrupted and never trains |
| `TrainingJob.AbandonedIsInterrupted` | scripts/pair-notebook-agent.py:880-933 | A job without result on which nobody works is reported as interrupted, without any training |
| `TrainingJob.StoppedRunnerReports` | scripts/pair-notebook-agent.py:544-697 | A runner that is cancelled or fails before it has a supervisor, or that sees its supervisor gone, writes the result next |
| `TrainingJob.EveryJobCanEnd` | scripts/pair-notebook-agent.py:435-933 | From every state of the invariant, steps that are neither crashes nor failures lead to a result: no job is stuck |
| `VerifiedCopy.PublishedIsVerified` | scripts/pair-notebook-agent.py:90-156 | Whatever the owner's file does, and however attempts are cancelled or crash, only bytes of the declared size and digest are ever published, and they are never replaced |
| `VerifiedCopy.PublishesExactlyWhen` | scripts/pair-notebook-agent.py:121-156 | An uninterrupted attempt publishes if and only if the owner's file has the declared size and the retained bytes continued from it have the declared size and digest; these are the bytes published |
| `VerifiedCopy.AttemptsAddUp` | scripts/pair-notebook-agent.py:121-150 | While the owner's file stays the same, attempts only ever extend what is kept, and it stays a beginning of the file |
| `VerifiedCopy.ResumedCopyCompletes` | scripts/pair-notebook-agent.py:121-156 | After any interrupted and crashed attempts, the next uninterrupted one publishes exactly the declared bytes |
| `VerifiedCopy.StalePartialBlocks` | scripts/pair-notebook-agent.py:121-133 | A partial file that is no beginning of the declared bytes is never thrown away: no number of further attempts publishes the file |
| `VerifiedCopy.ChangedFileLeavesStale` | scripts/pair-notebook-agent.py:121-150 | Such a partial file arises from an empty target when the owner's file has other bytes for a while and the process dies; whatever follows, nothing is published |
| `VerifiedCopy.GrownMeaning` | scripts/pair-notebook-agent.py:134-150 | The copying loop appends a prefix of what is left to read; it reaches the end of file exactly when it is asked to stop late enough and the size is not exceeded, and reports an excess exactly when there is one |
| `VerifiedCopy.Staging.CopyItem` | scripts/pair-notebook-agent.py:97-156 | The attempt at one file, as loops over blocks, has exactly the outcome the runs use and touches no other file |
| `VerifiedCopy.Staging.CopyVerifiedData` | scripts/pair-notebook-agent.py:90-156 | On success every file of the manifest is there with its declared size and digest; published files never change |
| `TerminalRun.GuestShowsHostHistory` | src/core/sharedTerminal.ts:74-165 | Under loss, repetition, reordering, resets and host restarts, the text a guest shows is the host's history right after the (stream, generation, sequence) the guest holds |
| `TerminalRun.GuestNeverGoesBack` | src/core/sharedTerminal.ts:74-165 | Along every run the guest's position never goes back, also across streams and its own resets; what the host showed at a position never changes |
| `TerminalRun.AnswerCatchesUp` | src/core/sharedTerminal.ts:60-69 | In every state of the invariant, the answer to the guest's current nonce makes it show exactly what the host shows |
| `TerminalRun.NextOutputMoves` | src/core/sharedTerminal.ts:155-163 | In every state of the invariant the next output of what the guest follows moves it there: it shows what the host showed then and asks for nothing |
| `TerminalRun.OldOutputStays` | src/core/sharedTerminal.ts:155-156 | An output already shown changes nothing |
| `TerminalRun.GapAsks` | src/core/sharedTerminal.ts:157-160 | After a gap the guest stays where it is and asks for a snapshot exactly when none is outstanding |
| `TerminalRun.NewerOutputAsks` | src/core/sharedTerminal.ts:127-140 | The first output of a newer generation puts the guest at the start of that generation and makes it ask anew |
| `TerminalRun.OtherStreamAsks` | src/core/sharedTerminal.ts:113-126 | The first output of a stream the guest does not follow makes it ask; further ones change nothing while it waits |
| `TerminalRun.FlushLevels` | src/core/sharedTerminal.ts:248-260 | A guest level with the host that receives all frames of one flush in order is level with the host again |
| `TerminalRun.PublishedIsShown` | src/core/sharedTerminal.ts:241-260 | Published text is what the next flush adds to what the host shows, as long as the history is not full |
| `TerminalRun.AnsweredThenLevel` | src/core/sharedTerminal.ts:142-154 | The answer to the current nonce makes the guest level with the host |
| `TerminalReplication.SharedTerminal.Handle` | src/core/sharedTerminal.ts:85-165 | A frame of the host has exactly the effect the runs use; a snapshot is asked for exactly on the first frame of an unfollowed stream, a newer generation or a first gap, and the nonce sent is the one the guest then waits for |
| `TerminalReplication.SharedTerminal.FlushOutput` | src/core/sharedTerminal.ts:248-260 | The loop sends all pending output in chunks that never split a surrogate pair, one sequence number each |
| `TerminalReplication.SharedTerminal.SendSnapshot` | src/core/sharedTerminal.ts:265-270 | A snapshot is preceded by all pending output and names the position it shows |
| `TerminalReplication.SharedTerminal.RequestSnapshot` | src/core/sharedTerminal.ts:60-69 | A nonce is drawn unless one is still waited for and no new one is asked for |
| `TerminalReplication.SharedTerminal.Reset` | src/core/sharedTerminal.ts:275-296 | A reset starts the next generation with nothing shown, nothing pending and no stream followed |
| `StorageRun.ScheduledIsServed` | src/core/persistence.ts:68-156 | In every run in which no rename overlaps a failing flush, a document scheduled and not removed since is pending, in a queued batch under its current name, or was written with content serialized after its last schedule; with nothing queued or pending it was written |
| `StorageDisk.DrainedIsSaved` | src/core/persistence.ts:83-171 | In every run in which each write is left stored by what is queued behind it, queued renames and removals succeed and no rename overlaps a failing flush: once nothing is queued or pending, both roots hold every document scheduled and not removed since, under its current name, with content fixed no earlier than its last schedule; a file mirrored meanwhile carries the time of its call |
| `StorageDisk.CalmRunsAreSaved` | src/core/persistence.ts:318-339 | The same whenever callers rename nothing that a queued or running batch still has to write |
| `StorageProgress.OneFlushDrains` | src/core/persistence.ts:83-171 | From every reachable state, work on the queue that never fails, one flush and work on its batch leave nothing queued or pending: the queue is never stuck |
| `StorageProgress.OneFlushSaves` | src/core/persistence.ts:83-171 | After every calm run with no rename queued, one flush is enough: once the queue has drained, all documents that are due are saved in both roots |
| `StorageDisk.WriteKeepsDiskIff` | src/core/persistence.ts:98-128 | A write loses no document if and only if it leaves the one it writes stored: nothing queued undoes it, or the document is pending, in a batch, or stored all the same |
| `StorageDisk.RenameOverWrite` | src/core/persistence.ts:318-339 | A rename issued over the document just being written lets the write leave it stored if and only if the file it moves over it is new enough itself, or there is nothing to move and nothing else queued undoes the write |
| `StorageDisk.FailedRenameIff` | src/core/persistence.ts:340-365 | A rename that fails in a root, with nothing queued behind it, loses no document if and only if there was nothing to move or the files under its target are new enough as they are |
| `StorageRemoval.RemovedStaysAbsent` | src/core/persistence.ts:284-302 | In every run, also when flushes fail during renames: once the queue has drained, every path at or below a removed root is absent from both roots and not pending, unless since then a call named this very path, a rename gave something to be written this name or moved a file there, a failed batch took it up, or the removal failed |
| `StorageRemoval.FailureRevives` | src/core/persistence.ts:143-156 | In every reachable state a failing batch brings a removed path back if and only if it still held the path and no removal mark covers the name its document has now |
| `StorageRemoval.MarkedStaysGone` | src/core/persistence.ts:143-156 | While the mark stands and the path is not being renamed, no failing batch brings it back |
| `StorageRun.RedirectsAreQueuedRenames` | src/core/persistence.ts:318-365 | In every run the redirect table is the list of queued renames, and it satisfies the condition under which resolving is replaying |
| `StorageRun.FailureLosesRenamed` | src/core/persistence.ts:143-156 | A failing flush leaves every scheduled document served if and only if each unwritten path that was renamed meanwhile is safe elsewhere: pending, or carried by a later batch |
| `StorageCases.FailureLosesScheduled` | src/core/persistence.ts:143-156 | A reachable state in which the failing batch loses a scheduled document: its path was renamed while it was being written |
| `StorageCases.RenameMayRestoreOldContent` | src/core/persistence.ts:98-128 | A reachable state with empty queue in which the file holds content older than the last schedule although newer content was written: a rename during a flush moved the old file over it |
| `StorageCases.FailedRenameLosesFile` | src/core/persistence.ts:340-365 | A reachable state with empty queue in which neither root has a file under the document's name: its rename failed in both and is not tried again |
| `StorageCases.SiblingRevivesRemoved` | src/core/persistence.ts:143-156 | A reachable state in which both roots hold a removed path that no call named again: a sibling was scheduled while the flush that then failed still held it |
| `StorageRedirects.ResolveCurrentPath` | src/core/persistence.ts:416-431 | For redirects no two of which interfere, restarting at the first applicable one ends and gives the path's place after all renames in issue order |
| `StorageRedirects.SearchEndsExactlyWhen` | src/core/persistence.ts:416-431 | For two redirects, neither moving a folder into itself, the restarting search with its visited paths ends from every path if and only if the first followed by the second does not move a folder into itself; otherwise it never ends for that folder |
| `StorageRedirects.CrossingNeverSettles` | src/core/persistence.ts:416-431 | The renames a to b/x and b to a/y are such a pair: from a the search never ends |
| `StorageAdapter.StorageAdapter.Schedule` | src/core/persistence.ts:68-80 | Scheduling clears the removal marks comparable to the path and makes it pending |
| `StorageAdapter.StorageAdapter.IssueFlush` | src/core/persistence.ts:83-88 | A flush takes all pending paths into one queued batch |
| `StorageAdapter.StorageAdapter.IssueRemove` | src/core/persistence.ts:284-302 | A removal marks the path, drops it and everything below it from pending, and queues the deletion |
| `StorageAdapter.StorageAdapter.IssueRename` | src/core/persistence.ts:318-339 | A rename renames pending paths and removal marks, records its redirect and is queued |
| `StorageAdapter.StorageAdapter.Requeue` | src/core/persistence.ts:143-156 | The unwritten paths of a failed batch become pending again unless removed |
| `StorageAdapter.StorageAdapter.FinishRename` | src/core/persistence.ts:354-365 | A finished rename takes its own redirect off the table and no other |
| `Materialization.Materialize` | src/core/persistence.ts:543-592 | Succeeds if and only if the manifest is within the limit and valid, nothing but folders is in the way of its folders and above its files, no folder is in the place of a file, and every binary is as declared. Then the shared files are exactly the wanted ones with the wanted bytes, all wanted folders exist, and other shared folders remain only for what they still contain. In every case an entry changes only in the place of a wanted file or when it is shared and unwanted; an invalid manifest changes nothing |
| `Materialization.HostOnlyKeptExactlyWhen` | src/core/persistence.ts:689-692 | A materialization leaves every host-only entry as it was if and only if nothing host-only is in the place of a wanted file but what is written there anyway |
| `Materialization.LinksAreReplaced` | src/core/atomicFile.ts:9-38 | When all that is wanted is shared: if and only if no link or special node is in the place of a wanted file, which can be read off the folder before |
| `Materialization.LinkIsReplaced` | src/core/atomicFile.ts:9-38 | A folder that holds one link in the place of the one wanted file: it is accepted, and whatever holds the wanted file has lost the link |
| `Materialization.Validate` | src/core/persistence.ts:594-621 | A manifest passes exactly when no two entries share a portable key, nothing lies below a file and every parent is listed under some spelling |
| `Materialization.ValidManifestIsTree` | src/core/persistence.ts:594-621 | In a valid manifest no file is above another entry or is also a folder |
| `Materialization.MakeFolder` | src/core/persistence.ts:666-687 | Makes a folder with all above it, or changes nothing when a file or link is in the way |
| `Materialization.WriteFile` | src/core/persistence.ts:689-692 | Writes a file under folders made for it; every other entry stays |
| `Materialization.PruningMaterializes` | src/core/persistence.ts:575-592 | Removing the unwanted shared files and the folders this empties turns a tree that holds all that is wanted into one that matches the manifest |
| `Materialization.EmptyIffPruned` | src/core/persistence.ts:580-591 | Taking folders longest first, a folder is found empty exactly when nothing in it is to be kept |
| `FolderInspection.Inspect` | src/core/persistence.ts:444-541 | An inspection is refused exactly for an invalid or too large manifest; otherwise it lists missing, extra and differing entries as specified |
| `FolderInspection.MaterializedMatches` | src/core/persistence.ts:444-541 | What a successful materialization leaves is reported as a match if and only if every folder above a wanted file is listed under the same spelling and, unless it holds something host-only, so is every folder above a wanted folder |
| `FolderInspection.MatchesWhen` | src/core/persistence.ts:444-541 | The same condition read off the manifest and the folder as it was before the call |
| `FolderInspection.MatchMeans` | src/core/persistence.ts:493-541 | A match, however the folder came about, means: the shared files are the wanted ones, each with its digest, all wanted folders exist and other shared folders hold only private things |
| `FolderInspection.UnlistedParentIsExtra` | src/core/persistence.ts:527-530 | A folder above a shared file is always reported as an extra one when the manifest does not list it |
| `FolderInspection.PrivateFolders` | src/core/persistence.ts:516-526 | The marking of private folders, deepest first, marks exactly the shared folders without shared entries that hold something host-only |
| `ProjectTree.RemovalKeepsHostOnly` | src/core/persistence.ts:628-655 | Deleting a shared path removes every shared file at or below it, keeps every host-only entry and everything elsewhere, and keeps exactly the folders that still contain something host-only |
| `ProjectTree.Folder.RemoveShared` | src/core/persistence.ts:628-655 | The recursive deletion in place has exactly that effect; it is refused, changing nothing, exactly when the way crosses a link |
| `ProjectTree.ScanFiles` | src/core/projectFiles.ts:204-273 | The walk over a folder lists exactly the shared files below it |
| `ProjectTree.ScanFolders` | src/core/projectFiles.ts:210-226 | The walk over a folder lists exactly the shared folders below it |
| `TextEdits.SubstituteMeaning` | src/core/crdt.ts:257-269 | A batch of non-overlapping changes puts each insertion in front of the unit it names, in batch order, and keeps exactly the units no change deletes |
| `TextEdits.SharedText.ApplyTextChanges` | src/core/crdt.ts:257-269 | Applying the changes one after the other from the highest offset down equals substituting them all at once in the original text, with the predicted length; a rejected batch changes nothing |
| `TextEdits.ValidatedTextChanges` | src/core/crdt.ts:915-946 | A batch passes exactly when it is not too long, its changes lie inside the text without overlap, no insertion and not the result exceeds the limit; the result is the sorted batch reversed |
| `TextEdits.SortChangesSorts` | src/core/crdt.ts:924 | The order of the source's comparison, with the same changes |
| `TextEdits.SortIsStable` | src/core/crdt.ts:924 | The sort is stable: in every list the changes of one key keep their order |
| `TextEdits.SortedIsFixed` | src/core/crdt.ts:924 | A list in order is left alone |
| `TextEdits.SubstituteStep` | src/core/crdt.ts:262-268 | One edit in place, after all later ones, extends the substitution by that change |
| `TextEdits.SubstituteLength` | src/core/crdt.ts:929-941 | The length added up during validation is the length of the result |
| `TextRebase.RebaseMeaning` | src/core/textChanges.ts:5-44 | For ascending non-overlapping changes and any edit script between the texts, the rebased changes pass the overlap check on the target; applying them keeps every unit only the target has, drops exactly the shared units the user deleted, and puts every insertion into the gap its offset maps to |
| `TextRebase.RebaseKeepsInsertOrder` | src/core/textChanges.ts:19-42 | Read from left to right, the rebased insertions are the original ones: none lost, repeated or reordered |
| `TextRebase.PositionKeepsSides` | src/core/textChanges.ts:19-25 | An insertion is in front of a retained character of the target if and only if it was in front of it before |
| `TextRebase.RunsAreAligned` | src/core/textChanges.ts:11-18 | The retained runs pair equal characters of both texts |
| `TextRebase.SortedTable` | src/core/textChanges.ts:26-43 | Collecting changes by offset and sorting them loses no insertion and no deletion and leaves no overlap |
| `TextRebase.RebaseTextChanges` | src/core/textChanges.ts:5-44 | The loops over script and changes compute exactly the rebased list; equal texts give the changes back |
| `NotebookIdentity.MinimalNotebookSplice` | src/core/notebookIdentity.ts:96-123 | The splice is absent exactly when the structures are equal; otherwise it turns the current structure into the target, and no other single splice that does so deletes or inserts fewer cells |
| `NotebookIdentity.GreedyEndsAreMinimal` | src/core/notebookIdentity.ts:96-123 | Greedily found common ends are as long as any splice can leave |
| `NotebookIdentity.MatchInitialCellIds` | src/core/notebookIdentity.ts:49-81 | Exactly the cells that are alone with their content on both sides receive the identity of the shared cell |
| `NotebookIdentity.MatchedIdsAreDistinct` | src/core/notebookIdentity.ts:49-81 | No identity is given out twice |
| `CellOrder.NotebookOrder.NormalizeOrder` | src/core/crdt.ts:538-556 | The descending deletion loop leaves exactly the first occurrence of each valid id below the cap, with one edit per duplicate |
| `CellOrder.WithoutDuplicates` | src/core/crdt.ts:543-551 | Deleting the positions that were found leaves the first occurrences |
| `CellOrder.NormalizingTwice` | src/core/crdt.ts:538-556 | Normalizing is idempotent |
| `CellOrder.NormalStays` | src/core/crdt.ts:547 | An order without duplicates and invalid ids is not touched |
| `CellOrder.NotebookOrder.ReconcileOrder` | src/core/crdt.ts:333-345 | After the reconciliation loops the order is the snapshot's; an order that was right is not edited at all |
| `CellOrderPeers.NormalizationIsConfluent` | src/core/crdt.ts:538-556 | Peers whose views differ only by insertions: normalizing each, merging and normalizing again gives what merging first gives |
| `CellOrderPeers.NormalizeThenMerge` | src/core/crdt.ts:538-556 | For any two views this holds if and only if neither normalization deleted an item that comes first once both views' deletions are known |
| `CellOrderPeers.DeletionLosesCell` | src/core/crdt.ts:217-219 | Two runs from empty peers in which every view is normalized after each change: both insert one cell and the user of one deletes it. If the other peer received its item before the deletion, the cell is gone in the end; if it received both together, its own item stays |
| `CellOrderPeers.PeersConverge` | src/core/crdt.ts:226-241 | However insertions, normalizations and exchanges interleave while no user deletes a cell, the normalized order of a peer is the first occurrence of each valid id among the items it knows |
| `CellOrderPeers.AlgorithmKeepsFirsts` | src/core/crdt.ts:538-556 | Below the cap, what the algorithm keeps depends only on the items, not on the view |
| `CellOrderPeers.DeletedPositionsAreDuplicates` | src/core/crdt.ts:538-556 | The positions the algorithm deletes are those of the items that repeat an earlier one or are invalid |
| `CellGarbageRun.CollectedAfterGrace` | src/core/crdt.ts:564-604 | After any run of collections, edits, repairs and renames, a payload is collected if and only if the call is allowed, finds it present and unreferenced, and the unbroken series of calls that spared it, under whatever name the document had, began at least the grace period ago |
| `CellGarbageRun.CollectedWasSpared` | src/core/crdt.ts:564-604 | So some call at least the grace period ago, and every call since, was allowed and saw it present and unreferenced |
| `CellGarbageRun.SinceIsFirstOfSeries` | src/core/crdt.ts:580-586 | The measured time is that of the first call of the longest unbroken series |
| `CellGarbageRun.RenameMovesTables` | src/core/crdt.ts:152-183 | A rename carries the measured times and collected ids to the new names |
| `CellGarbageRun.RepairRemovesExactlyDangling` | src/core/crdt.ts:613-632 | Repair removes every order entry that points at a collected, missing payload, keeps every other as often as it occurred |
| `CellGarbageRun.RepairedHasNoDangling` | src/core/crdt.ts:613-632 | After repair no cell points at a collected missing payload, and repairing again changes nothing |
| `CellGarbageRun.RepairSplits` | src/core/crdt.ts:613-632 | Repair keeps what stays in its order |
| `CellGarbage.CollaborativeProject.CollectGarbage` | src/core/crdt.ts:564-604 | The loops over payloads and times change the tables of one document as the runs use it, and return what was collected |
| `CellGarbage.CollaborativeProject.RepairCollectedResurrections` | src/core/crdt.ts:613-632 | The descending deletion loop leaves the repaired order and returns the removed ids |
| `CellGarbage.CollaborativeProject.RenameDocument` | src/core/crdt.ts:152-183 | A rename into or out of itself is refused; otherwise every document at or below the old name moves with its tables, whatever the order of the moves |
| `CellGarbage.CollaborativeProject.DeleteDocument` | src/core/crdt.ts:185-194 | Every document at or below the path goes, with its tables |
| `Transfer.ChunksTile` | src/core/transfer.ts:45-49 | The chunks follow one another without gap or overlap from 0 to the size |
| `Transfer.EachByteInOneChunk` | src/core/transfer.ts:45-49 | Every byte lies in exactly one chunk |
| `Transfer.AllChunksAreTheSize` | src/core/transfer.ts:17-49 | The sizes of all chunks add up to the declared size |
| `Transfer.WritingAgrees` | src/runtime/bootstrap.ts:444-459 | A right chunk written at its place keeps all received places right, in any order and any number of times |
| `Transfer.CompleteFileIsSource` | src/runtime/bootstrap.ts:444-459 | With all chunks received the file is the source |
| `SnapshotDownload.SnapshotDownload.Run` | src/runtime/bootstrap.ts:150-532 | For any sequence of acknowledgements, frames of any generation, interruptions and reasons to give up: whenever the download has succeeded, every manifest file holds bytes with its recorded digest, every manifest directory exists and nothing with a key outside the manifest remains; an ended download changes nothing |
| `SnapshotCompletion.CompleteDownload` | src/runtime/bootstrap.ts:408-532 | Once the manifest is complete and its folders are made, a host that delivers the wanted files, their chunks in any order, repeated, or only when asked for again, makes the download succeed with exactly its bytes |
| `SnapshotCompletion.ReceiveFile` | src/runtime/bootstrap.ts:408-514 | A file all of whose chunks arrive within the allowed rounds is stored under its name as the host has it |
| `SnapshotDownload.SnapshotDownload.Handle` | src/runtime/bootstrap.ts:270-532 | A frame of another generation, or after the end, changes nothing; every other keeps the invariant behind that result |
| `SnapshotDownload.SnapshotDownload.Begin` | src/runtime/bootstrap.ts:299-348 | The declared counts are consistent and within limits, and a generation begins only once |
| `SnapshotDownload.SnapshotDownload.Manifest` | src/runtime/bootstrap.ts:349-371 | A manifest part is taken whole with distinct proper paths and within the declared counts, or the download fails |
| `SnapshotDownload.SnapshotDownload.ManifestEnd` | src/runtime/bootstrap.ts:372-378 | The manifest is complete exactly as declared, and only the files the host agrees on count as received |
| `SnapshotDownload.SnapshotDownload.FileStart` | src/runtime/bootstrap.ts:408-443 | A transfer starts exactly for a manifest file neither started nor received, with a valid shape, a new id, a free place and within the byte limit |
| `SnapshotDownload.SnapshotDownload.FileChunk` | src/runtime/bootstrap.ts:444-459 | The download fails exactly for an unknown transfer or a chunk of the wrong index or size; a chunk already received changes nothing, another is written at its place |
| `SnapshotDownload.SnapshotDownload.FileEnd` | src/runtime/bootstrap.ts:460-514 | A file with missing chunks is asked for again; a whole one is stored exactly when its digest is right and it can be written |
| `SnapshotDownload.SnapshotDownload.Directory` | src/runtime/bootstrap.ts:396-407 | A listed directory, announced for the first time, is made |
| `SnapshotDownload.SnapshotDownload.End` | src/runtime/bootstrap.ts:515-532 | The download succeeds if and only if the manifest is complete, nothing is under way, and all its files and directories were received |
| `SnapshotDownload.SnapshotDownload.Cleanup` | src/runtime/bootstrap.ts:546-556 | Removing the scratch folder leaves only what the manifest names |
| `SnapshotDownload.SnapshotDownload.RequestSnapshot` | src/runtime/bootstrap.ts:163-177 | A generation is asked for unless one is being received; failing to send ends the download only when the host is not being recovered |
| `SnapshotDownload.SnapshotDownload.Recovered` | src/runtime/bootstrap.ts:178-198 | A new generation forgets everything but the files received completely |
| `SnapshotTree.Visit` | src/runtime/bootstrap.ts:648-676 | The walk that removes what the manifest does not name, in place, equals its specification entry by entry |
| `RelayRun.CounterIsStoredBytes` | src/runtime/mqttFrameRelay.ts:378-417 | For any interleaving, repetition and expiry of chunks of honest senders, the pending byte counter is the number of bytes stored, under its cap, and so is the number of pending packets |
| `RelayRun.DeliveredIsSent` | src/runtime/mqttFrameRelay.ts:378-406 | What is delivered for a packet is the frame its sender sealed |
| `RelayRun.DeliveredOnceWhileRemembered` | src/runtime/mqttFrameRelay.ts:454-463 | Between two deliveries of one packet its id was forgotten |
| `RelayRun.RecentIsKept` | src/runtime/mqttFrameRelay.ts:408-417 | Housekeeping forgets an id only when it is older than the limit |
| `RelayRun.NewestAreKept` | src/runtime/mqttFrameRelay.ts:454-463 | Remembering an id forgets none of the newest ones up to the limit |
| `RelayRun.AnyOrderDelivers` | src/runtime/mqttFrameRelay.ts:378-417 | With room in the table, the chunks of a packet deliver its frame in whatever order they arrive, and however often there is housekeeping between them, as long as the first of them is then no older than the limit |
| `FrameRelay.SentIsAccepted` | src/runtime/mqttFrameRelay.ts:214-239 | Every message of a frame within the wire limit passes all checks of the receiver, the length of its text included |
| `FrameRelay.Cut` | src/runtime/mqttFrameRelay.ts:214-239 | A frame is refused exactly above the wire limit; otherwise the loop gives one message per chunk in order |
| `FrameRelay.JoinedChunks` | src/runtime/mqttFrameRelay.ts:398-400 | The first n chunks put together are the beginning of the sealed packet |
| `RelayReceiver.RelayReceiver.AcceptChunk` | src/runtime/nostrRelay.ts:429-462 | The table and the remembered ids change as the runs use it, with or without sequence numbers |
| `RelayReceiver.RelayReceiver.Housekeeping` | src/runtime/mqttFrameRelay.ts:408-425 | A pending packet is left, as it was and in its place, if and only if its first chunk is no older than the limit, and an id is still remembered if and only if it is no older than its limit; the counter follows |
| `RelayReceiver.HousekeepingMeaning` | src/runtime/mqttFrameRelay.ts:408-425 | The same of the step the runs take |
| `RelayReceiver.RelayReceiver.RememberSeen` | src/runtime/mqttFrameRelay.ts:454-463 | The id becomes the newest; beyond the limit the oldest are dropped |
| `RelayReceiver.Outbox.ExecuteOrQueue` | src/runtime/mqttFrameRelay.ts:261-279 | Without a ready broker all messages are queued or none, which fails exactly beyond the limits; with one they are published in order as long as a broker is left, and the rest is lost |
| `RelayReceiver.Outbox.FlushOutbox` | src/runtime/mqttFrameRelay.ts:280-302 | With a ready broker the outbox is emptied: published are, in order, exactly the messages before the one at which the last broker refuses, and lost are exactly the others |
| `RelayReceiver.TakenAreFirst` | src/runtime/mqttFrameRelay.ts:287-302 | A message is handed to some broker if and only if one is left after it; so those handed on are a beginning of the queue |
| `RelayReceiver.Outbox.BecomeReady` | src/runtime/mqttFrameRelay.ts:304-334 | A broker that becomes ready empties the outbox the same way |
| `LineReader.CutsDoNotMatter` | src/core/pythonKernel.ts:389-417 | However the byte stream is cut into chunks, the same lines are handed on, the same bytes stay buffered and it ends the same way |
| `LineReader.ReaderHandsOnLines` | src/core/pythonKernel.ts:389-417 | The lines handed on are the newline-separated ones, one trailing CR dropped and empty ones skipped, up to the first that is too long or stops the stream |
| `LineReader.RawLinesCutTheStream` | src/core/pythonKernel.ts:393-412 | These raw lines and the unfinished rest are the stream cut at every newline |
| `LineReader.ReaderIsBounded` | src/core/pythonKernel.ts:298-315 | The buffer never exceeds the limit; no line handed on is empty, too long or holds a newline |
| `LineReader.LineSplitter.Data` | src/core/pythonKernel.ts:389-417 | The handler of one chunk, with its segment buffer and counters, equals feeding its bytes one at a time |
| `KernelBridgeRun.EachExecutionInOnePlace` | media/jupyter_kernel_bridge.py:219-383 | Over every interleaving of the threads, an execution that was entered is pending, in one thread's hands or reported once, and never two of these |
| `KernelBridgeRun.ReportedOnceAtExit` | media/jupyter_kernel_bridge.py:546-556 | When the process has ended, an execution was reported exactly once if and only if no other thread was cut off between taking it out of the table and reporting it |
| `KernelBridgeRun.ReportsNameTheirRequest` | media/jupyter_kernel_bridge.py:219-233 | A report names the request its execution was entered for |
| `KernelBridgeRun.FinishedIsNotPending` | media/jupyter_kernel_bridge.py:219-333 | Once both threads are done with its reply and its idle status, an execution is no longer pending |
| `KernelBridgeRun.ReportsSayWhatHappened` | media/jupyter_kernel_bridge.py:219-233 | The shell and iopub threads report an execution with the last reply received for it while it was pending; on a restart, a stop or the death of the kernel it is reported as aborted; no other step reports anything |
| `KernelBridgeRun.AnsweredAndIdleIsTaken` | media/jupyter_kernel_bridge.py:219-333 | An execution whose reply and idle status both arrived while it was pending is no longer pending once no thread is about to look at it |
| `KernelBridgeRun.AskingInterruptsBusy` | media/jupyter_kernel_bridge.py:505-513 | A busy execution without a timer is interrupted when the user asks for it and the timer that starts then fires |
| `KernelBridgeRun.BusyIsInterruptedLater` | media/jupyter_kernel_bridge.py:284-300 | One that was not busy yet when the user asked is interrupted once it is |
| `KernelBridgeRun.InterruptedAtMostOnce` | media/jupyter_kernel_bridge.py:235-259 | No execution is interrupted twice, and none while it is not busy |
| `KernelBridgeRun.CutOffThreadReportsNothing` | media/jupyter_kernel_bridge.py:546-556 | A reachable end of the process at which an execution was taken out by the iopub thread and never reported |
| `KernelBridge.Bridge.Execute` | media/jupyter_kernel_bridge.py:482-498 | An execution is entered unless the table is full |
| `KernelBridge.Bridge.HandleReply` | media/jupyter_kernel_bridge.py:306-333 | A reply answers an auxiliary request or is recorded for its execution |
| `KernelBridge.Bridge.HandleStatus` | media/jupyter_kernel_bridge.py:262-303 | A status marks its execution busy or idle, and a busy one releases an interrupt asked for before |
| `KernelBridge.Bridge.MaybeComplete` | media/jupyter_kernel_bridge.py:219-233 | An execution is taken out exactly when both its reply and its idle status are in |
| `KernelBridge.Bridge.FailPending` | media/jupyter_kernel_bridge.py:355-363 | Everything pending is taken out at once |
| `KernelBridge.Bridge.RequestInterrupt` | media/jupyter_kernel_bridge.py:505-513 | All pending executions are marked; those to interrupt now are the busy ones not yet interrupted |
| `KernelBridge.Bridge.ScheduleInterrupt` | media/jupyter_kernel_bridge.py:235-259 | A timer starts only for an execution without one that was not interrupted yet |
| `KernelBridge.Bridge.Deliver` | media/jupyter_kernel_bridge.py:245-256 | A timer interrupts only a busy execution while the bridge neither stops nor restarts the kernel |
| `HostGroup.AtMostOneHost` | src/core/election.ts:72-95 | In every reachable state of the group, for any delay, loss, repetition or reordering of announcements, and although members come back with clocks no older than their own, at most one peer considers itself host |
| `HostGroup.EpochsAgree` | src/core/election.ts:82-91 | Two members at one host epoch name the same host |
| `HostGroup.EpochNeverGoesBack` | src/core/election.ts:82-91 | A member's host epoch never goes back, and it keeps its session |
| `HostGroup.EveryoneCatchesUp` | src/core/election.ts:72-91 | In every reachable state with well-formed names and numbers, a member that has fallen behind reaches the last epoch and its host by hearing what was announced, whatever it missed |
| `HostGroup.RejoinMakesTwoHosts` | src/core/election.ts:82-95 | While another member is host, a member that comes back makes a second host only with a clock older than its own; with any other the host stays the only one |
| `HostGroup.OlderClockAlone` | src/core/election.ts:82-95 | It comes back as host if and only if the clock it gets is older than its own and of an epoch of which it was host |
| `HostGroup.OldClockMakesTwoHosts` | src/core/election.ts:82-95 | A run after which a former host that came back with the clock of a member left behind would be a second host |
| `HostElection.SessionCoordinator.ManualTransfer` | src/core/election.ts:72-80 | A transfer happens exactly for a host and a target that is online; the clock moves to the next epoch and names the target |
| `HostElection.SessionCoordinator.ApplyAnnouncement` | src/core/election.ts:82-91 | An announcement is accepted exactly when it is well formed, of this session, newer, and made by the host of the current epoch |
| `HostElection.SessionCoordinator.Evaluate` | src/core/election.ts:42-70 | Evaluating closes the session exactly on the loss of another host, reopens none and leaves the clock alone |
| `ArtifactScan.CollectChanges` | scripts/pair-notebook-session-agent.py:241-332 | There are no warnings if and only if every folder is shallow and can be listed, there are few entries, no link or special file, every file has a safe path and can be read, and everything measured fits when it is reached; where no large file is unchanged that is: the changed files together are within the limits. Always, the changes are exactly the changed files for which there was room, staged exactly when staging is on and they are large, and the paths removed are exactly those whose file is gone when the scan was not cut |
| `ArtifactScan.FitInAnyOrder` | scripts/pair-notebook-session-agent.py:279-316 | Where no large file is unchanged, everything fits, in whatever order the entries come, if and only if the changed files are within the limits on number and bytes |
| `ArtifactScan.OrderDecides` | scripts/pair-notebook-session-agent.py:279-311 | With a large unchanged file the order decides: it is held against the limits before it is known to be unchanged |
| `ArtifactScan.ReportGivesWorkspace` | scripts/pair-notebook-session-agent.py:241-332 | A report without warnings, applied to the baseline, gives exactly the regular files of the workspace |
| `ArtifactScan.ScanAll` | scripts/pair-notebook-session-agent.py:241-326 | The walk over the stack of folders is cut short if and only if a folder is too deep or cannot be listed or there are too many entries; otherwise it looks at every entry exactly once and records it. The exit on the number of warnings is never taken |
| `ArtifactScan.WarningsAreFew` | scripts/pair-notebook-session-agent.py:241-326 | The set of different warnings a scan can collect always stays below the number that would end it |
| `WorkspaceInstall.InstallSnapshot` | scripts/pair-notebook-session-agent.py:155-238 | Succeeds if and only if the items are accepted, nothing is in the way of any of them, the content of each is there or comes as declared, and every name that is no longer listed can be dropped. Then every listed file holds bytes of its pinned size and digest, names listed before and no longer are gone, everything else is unchanged, and what is new is folders above listed files |
| `WorkspaceInstall.Decode` | scripts/pair-notebook-session-agent.py:155-183 | Items are accepted exactly when there are not too many, their names are safe and differ after case folding, and their bytes are within the limit |
| `WorkspaceInstall.WritingInstalls` | scripts/pair-notebook-session-agent.py:184-228 | Writing one item disturbs none installed before |

## Left out

Of the whole repository: the editor's interface and session flow, the installer, services and proxies, process trees and
sandboxes, network clients, cryptography, hardware and interpreter discovery, and Unicode details of paths.

- Concurrency of objects: threads and processes interleave as steps on values; the classes beside them prove each critical section or method.
- TrainingJob: processes that share only files and locks have no object, so it is a state machine on values; log output, output streaming and the Windows path are not modelled.
- TrainingJob.UndisturbedJobTrains: the delay before recovery is a condition on runs, not a clock.
- TextEdits.ValidatedTextChanges: sizes are counted in UTF-16 units, not also in UTF-8 bytes, because those are not additive when an edit splits a surrogate pair.
- TextEdits: the same loop on the source of a cell (`applyCellTextChanges`) is not repeated.
- TerminalReplication.SharedTerminal.Handle: the permission check, the rate limit on snapshots, legacy frames without a stream id and the command, input and interrupt frames; nor closing the terminal.
- TerminalReplication.SharedTerminal.Publish: the delay before output is flushed; any flush time is allowed.
- SessionAgent: live controls, artifact uploads (they complete or fail in one step), the path taken when credentials are lost, and the file name of a receipt.
- StorageAdapter: timers, debouncing, the final flush on stop, and the order of paths within one batch (any order is allowed).
- StorageRun.ScheduledIsServed: speaks of what was written under which name, not of the files; `StorageDisk` does.
- StorageDisk.DrainedIsSaved: a root whose rename failed although it had something to move is excluded, see `FailedRenameIff`.
- StorageAdapter.StorageAdapter.IssueRename: a rename whose working copy the editor has already moved.
- StorageAdapter.StorageAdapter.IssueMirror: a mirrored file is the version fixed by the call, also where the source copies the working file when its turn comes.
- Materialization.Materialize: the model notices a wrong digest before it makes the file's folders, the code after; temporary files of atomic writes are not modelled.
- FolderInspection.Inspect: the size limits met while scanning, and the session descriptor's own file name.
- NotebookIdentity: `StableCellIdRegistry`, a weak map from cells to drawn identities.
- CellGarbage: the loop over all documents in `collectAllGarbage`.
- SnapshotDownload.SnapshotDownload.Run: when a timer runs out or the queue of unhandled frames overflows is any moment; permissions of stored files and renames of partial files (a file is stored in one step) are not modelled.
- SnapshotCompletion.CompleteDownload: the host sends one file after the other, and the parts of the manifest came before.
- FrameRelay.Cut: base64 text is its bytes with a length; encryption is any sealing that adds its fixed size.
- RelayReceiver.RelayReceiver.AcceptChunk: the sequence numbers `nostrRelay.ts` remembers as delivered.
- RelayReceiver.Outbox.ExecuteOrQueue: an error that a client reports after it took a message; the message counts as handed to it.
- RelayReceiver.Outbox.BecomeReady: the probe that decides when a broker is ready, and reconnects.
- LineReader: what the lines mean; the settlement of executions in `handleEvent` and `rejectAll`.
- KernelBridge: input requests, output messages, and restarting the kernel itself.
- HostElection: resuming a session after the host itself restarted; members join, or come back, with the clock of a member.
- ArtifactScan: entries vanishing while a folder is listed; hard links count as special files.
- WorkspaceInstall.InstallSnapshot: modes and owners, and the temporary file left by a failed write.
- VerifiedCopy: checks for links and hard links of source, target and partial file; the partial files' names are one per path.
