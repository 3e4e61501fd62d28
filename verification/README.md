# Relay Git Sync: a verified model

Relay Git Sync mirrors the documents of a remote shared folder into a git working
tree. This project models its decision logic in Dafny and proves what that logic
keeps, over every input, every run or every reachable state.

| part | files | what is modelled |
|---|---|---|
| Mirror pass | `MirrorModel`, `MirrorEngine` | planning against disk and tracked state, the order create / rename / deletion gate / update and delete, the truncation budget, the stored filemeta |
| Mirror theorems | `MirrorFrames`, `MirrorPhases`, `MirrorPresence`, `MirrorFinish`, `MirrorEntries`, `MirrorTruncation`, `MirrorConvergence`, `MirrorAgreement`, `MirrorRuns`, `MirrorFirst`, `MirrorIncremental`, `MirrorHolders`, `MirrorSafety`, `MirrorStale`, `MirrorStory`, `MirrorIndex`, `MirrorPublication`, `MirrorPlans`, `MirrorBudget`, `PlainTerms` | when a pass is accepted, refused or aborted, what is planned, convergence with its exact conditions, agreement over runs, incremental against full, whose bytes stand where, safety of bytes, exact budget, the index after a pass |
| Notification pipeline | `OperationsQueue`, `ChangeFolding`, `HeadProtocol`, `HeadRuns`, `HeadRounds`, `HeadCatchUp`, `HeadOrder`, `HeadEffects`, `Pipeline`, `TruncationWindow` | the coalescing queue and the reconnect protocol as interleavings of atomic steps, how rounds end and what they write, what reconnecting repairs, when heads never go back, both machines as one system, the rolling gate |
| Git recovery | `CommitGraph`, `Reattach`, `PushRecovery` | reattaching a detached HEAD, rejected-push recovery among other pushers |
| Codecs, paths, index | `Varuint`, `Protocol`, `S3rn`, `Text`, `Paths`, `Dict`, `ResourceIndex`, `IndexEntries`, `Filemeta` | LEB128 framing, paged queries, resource names, compound ids, path sanitising, the resource index |

How the model is set up:

- Code that changes state step by step is a class (`FolderMirror`, `OperationsQueue`,
  `DocumentMirror`, `Listener`, `Gate`, `GitRepo`, `PushClient`, `RelayIndex`, `SubdocSubscription`).
  Each method equates the new state with a specification function of the old one, and
  the lemmas are about those functions.
- A tree maps the path `os.walk` reports to the file's contents. Python dictionaries keep
  their insertion order (`Dict`), because the first or last match decides in places.
- Answers of the relay server are a function of round, path and document id; every
  fetch failure ends as "no body" in the source, so an answer is an optional body.
- SHA-256 is taken as injective: a digest is represented by what it belongs to.
- In the reconnect protocol examining a snapshot, enqueuing it, taking a record, fetching
  and processing are separate steps of any number of listeners, one worker and the server.
  A version made after the listener is last seen after it was made.
- `PlainTerms`, `MirrorPublication`, `MirrorPlans`, `MirrorBudget`, `HeadEffects` and `IndexEntries` say what the
  decisions are in the source's own characters, numbers and fields, without the functions that make them.
- `int(0.1 * n)` is `n / 10`. Bit operations on bytes are written arithmetically.

Five findings about the code are stated beside the theorems they limit, each with an
input and its exact condition:

- A file whose hash already matches is left alone even when a rename in the same pass
  moves it away (`HashEqualFileIsLost`; exact in `PathsConverge` and `AgreementIff`).
- Deleting a file tracked under a leading slash leaves its tracking entry behind, and a
  document that later returns at another path is then never created (`SlashStory` follows
  both passes, `DroppedStaysTracked` and `RestoredFileIsMissing` are the general steps;
  exact in `AgreementIff`).
- Two keys that name one file ("a" and "/a") let one rename overwrite the other's bytes
  (`TwoSpellingsOverwrite`; exact, read off the plan, in `SurvivesByPlan` and `RenamedOverIff`).
- A baseline snapshot is believed without looking at the file, and the listener starts even
  when the startup sync failed (`BaselineTrustsStartup`; exact over all runs in
  `StartupSyncIff`, whose failing run is `Adopting`).
- A document that two configured folders' filemetas both list is examined by both folders'
  listeners, and the slower one can set a newer head back to an older snapshot
  (`HeadGoesBack`). The file keeps the newer version and the next index message repairs the
  head. Under one listener, with versions reported in order, a head never goes back
  (`HeadNeverGoesBack`, `ListenerKeepsOrder`).

## Model

| member | source | states |
|---|---|---|
| MirrorPublication.AcceptedIff | sync_engine.py:494-587 | a pass is accepted iff some entry is listed (a dictionary with an id and a type other than "folder") or no visible file stands, every entry it acts on has a usable path and a type, and its deletions are at most max(n / 10, 25) for n listed entries, unless overridden |
| MirrorPublication.EmptyPublicationIsRefused | sync_engine.py:494-500 | with no listed entry and one visible file the pass changes nothing, does nothing and is not accepted, whatever the rest |
| MirrorPublication.UntypedIsAborted | sync_engine.py:674-734 | a pass that has to act on an entry without a usable path or a type changes nothing |
| MirrorPublication.ListedToDelete | sync_engine.py:1031-1063 | a file is listed for deletion iff it neither begins with ".git" nor lies below a ".git" directory and no key of the filemeta is its path under either spelling |
| PlainTerms.CountedIs | sync_engine.py:604-613 | counted as local are exactly the files outside ".git" directories whose own name does not begin with ".git", read off positions in the path |
| MirrorPlans.PlannedAs | sync_engine.py:694-784 | update, no-op, rename or create, each iff its condition on tree, hash and the first tracked path of the document holds, with the kind of file its type names |
| MirrorPlans.WorklistOneMore | sync_engine.py:589-595 | entry by entry in the filemeta's order: acted on iff listed, with an id that is not empty, and new or changed when incremental |
| MirrorPlans.CreateEnds | sync_engine.py:836-907 | a create ends with a missing hash, a failed fetch or no error, by its type and the answer of the first round |
| MirrorPlans.RenameEnds | sync_engine.py:992-1003 | a rename from a usable path ends done and without an error, whether or not a file was there |
| MirrorPlans.OnlyStandingIsDeleted | persistence.py:1500-1516 | a deletion takes a standing file with its entry, and leaves both tree and state alone where none stands |
| MirrorConvergence.PathsConverge | sync_engine.py:502-580 | from any tree and any tracked state, full or incremental: with every fetch answered and nothing gated, the pass is accepted, and it ends with exactly the filemeta's file paths iff every planned rename has its own source in the tree, no rename takes a file held by hash or by an unchanged entry, every visible file whose path the filemeta uses for something else is taken by a rename, and so is every visible file whose key the deletion step would not recognise; git-named keys and entries that are not files are unrestricted |
| MirrorConvergence.MirrorsIffStanding | sync_engine.py:545-572 | the final paths are right iff, when deletions are computed, every file that is not updated stands, and no visible file stands whose path and key the filemeta and the deletion step judge differently |
| MirrorConvergence.FinalMembership | sync_engine.py:569-572 | after the last phase a path exists iff it stood or is an update's target, and was not listed for deletion |
| MirrorPresence.StandsIffMovable | sync_engine.py:545-546 | creates and renames leave every planned and kept file standing iff the plan is movable and spares held files |
| MirrorPhases.RenamedAt | persistence.py:1484-1489 | a movable rename carries the old bytes to the new path and leaves the old path empty, whatever the other operations |
| MirrorPhases.RenamedEntries | persistence.py:1491-1496 | tracking follows a rename: the new path belongs to the document, the old entry is gone |
| MirrorPhases.CreatedAt | sync_engine.py:836-907 | a create leaves the fetched body tracked for its document, or changes nothing when nothing was fetched |
| MirrorFinish.FinishUpdate | sync_engine.py:909-990 | an update alone decides its file and its entry, from what creates and renames left |
| MirrorFinish.FinishDelete | persistence.py:1500-1516 | a listed file is gone at the end |
| MirrorEntries.EntryFinal | persistence.py:1350-1381 | the final owner of every tracked path, by cases that can be read off before the pass |
| MirrorEntries.WrittenBytes | sync_engine.py:836-1003 | created and updated files hold the fetched body, renamed ones their document's earlier bytes |
| MirrorEntries.MidMembership | sync_engine.py:545-551 | which files stand when deletions are computed |
| MirrorAgreement.AgreementIff | sync_engine.py:694-784 | an ordinary pass keeps tree, tracked state and filemeta in agreement iff every hash-equal file was tracked for its own document and every dropped path was tracked without a leading slash, is no git file, and has no entry left under either spelling |
| MirrorAgreement.TracksIff | persistence.py:1350-1381 | the tracked state ends listing exactly the filemeta's files with the right ids iff those two conditions hold |
| MirrorAgreement.AgreesMovable | sync_engine.py:756-773 | agreement and distinct ids make every plan movable, swaps and chains included |
| MirrorAgreement.DroppedEntryEnds | sync_engine.py:1043-1063 | which dropped paths leave the tracked state and which stay behind |
| MirrorRuns.RunAgrees | sync_engine.py:116-141 | over any sequence of such passes the tree mirrors the stored filemeta and the state tracks exactly its files |
| MirrorFirst.FirstPassAgrees | sync_engine.py:502-580 | in an empty folder the first pass of any canonical filemeta with distinct ids is accepted, if every fetch is answered, and ends in agreement, full or incremental |
| MirrorFirst.FirstPassKeeps | sync_engine.py:756-784 | that pass meets every condition of a run (nothing to delete, nothing gated, nothing held or dropped), so runs can start from nothing |
| MirrorRuns.PlainDropsPlain | sync_engine.py:1041-1063 | keys without a leading slash meet the second condition, when no entry stays without staying a file and no git file is dropped |
| MirrorRuns.PlainRunAgrees | sync_engine.py:116-141 | any sequence of publications with slash-free keys, distinct ids and no hashes keeps the agreement, given answered fetches and open gates; nothing is asked of the worlds in between |
| MirrorRuns.BodiesConverge | sync_engine.py:728-784 | every file of the filemeta ends with its own document's bytes: served, held, or moved along |
| MirrorRuns.RepeatPlansNoMoves | sync_engine.py:728-754 | on unchanged remote data only updates and no-ops are planned, and none incrementally |
| MirrorRuns.RepeatDeletesNothing | sync_engine.py:1048-1063 | repeating a pass finds nothing to delete, whatever the fetches answer |
| MirrorRuns.IncrementalRepeatIsIdle | sync_engine.py:589-595 | repeating an incremental pass changes neither tree nor tracked state |
| MirrorRuns.RepeatIsFixpoint | sync_engine.py:502-580 | repeating a full pass keeps agreement, and leaves the tree as it was iff every updated file already held the served body |
| MirrorIncremental.IncrementalRefinesFull | sync_engine.py:474-480 | from agreement with the old filemeta, a pass over the changed entries and a pass over all end with the same paths and the same tracked documents |
| MirrorIncremental.MovesAgree | sync_engine.py:589-595 | both passes plan the same creates and renames |
| MirrorSafety.BytesAreSafe | sync_engine.py:553-587 | for every filemeta, tree, state and fetch outcome: an old file's bytes are still at their location, or were overwritten with the body the update's fetch returned, or the location was deleted and is no key of the filemeta, or a rename overwrote them; deletions respect the threshold, and a pass not accepted deletes nothing |
| MirrorSafety.RenamedOverIff | sync_engine.py:756-773 | for a movable plan a rename overwrites an old file's bytes iff the pass runs and plans a second rename to where it moves them, whatever the server answers |
| MirrorHolders.SurvivesByPlan | persistence.py:1484-1489 | the same for any list of planned operations: bytes are overwritten iff the plan moves the file somewhere and later moves another one there |
| MirrorHolders.SurvivesIff | persistence.py:1484-1489 | the general step, for plans that need not be movable: bytes are somewhere after the renames iff no rename brought another file to where they were |
| MirrorHolders.BytesTravel | sync_engine.py:992-1003 | bytes that are not overwritten stand at their own location after the renames |
| MirrorSafety.DistinctFilesAreSafe | sync_engine.py:545-546 | no rename overwrites anything when no two keys name one file |
| MirrorSafety.DeletionsCostOneEach | sync_engine.py:553-567 | old files that are not overwritten have distinct locations, so each deletion costs at most one |
| MirrorSafety.MisspelledIsDeleted | sync_engine.py:1048-1063 | a visible file under any other spelling of its key is deleted by the pass that mirrors it |
| MirrorStory.TwoSpellingsOverwrite | persistence.py:1471-1498 | input on which two keys for one file cost a document's bytes, followed to the end of the accepted pass |
| MirrorBudget.PassBudget | sync_engine.py:502-572 | in an accepted pass an update is refused iff it is a document that gets "" or a canvas that gets the JSON of an empty one, over a file not empty when updates begin, and at least max(n / 10, 25) such updates precede it; refused it keeps its bytes, any other update whose body arrives has it written under its document |
| MirrorBudget.BudgetOnFields | sync_engine.py:633-645 | the same for any planned operations, with the error every update ends with |
| MirrorBudget.BinaryIsNeverGated | sync_engine.py:923-950 | an update of a binary file is never refused as a truncation |
| MirrorTruncation.BudgetIsExact | sync_engine.py:633-645 | the general step, on the engine's own predicate: of the updates that would empty a non-empty file exactly the first `limit` in plan order are applied; later ones keep their bytes and carry the error |
| MirrorTruncation.BudgetTotal | sync_engine.py:502-505 | in all, min(k, limit) of k truncations are applied |
| MirrorTruncation.UpdatedAt | sync_engine.py:952-990 | what each update ends with: error and untouched file, or fetched body under its document |
| MirrorStale.HashEqualFileIsLost | sync_engine.py:744-754 | input on which an accepted pass misses a path because the hash matched |
| MirrorStale.DroppedStaysTracked | persistence.py:1510-1514 | a path dropped under a leading slash stays tracked, and is what the lookup by document finds |
| MirrorStory.SlashStory | sync_engine.py:694-784 | the same story from beginning to end, for any names and answers: two accepted passes after which the returned document's file is missing |
| MirrorStale.RestoredFileIsMissing | sync_engine.py:756-773 | every pass that brings such a document back at another path is accepted and misses it |
| MirrorIndex.IndexAfterPass | persistence.py:1518-1617 | after a pass that keeps agreement the rebuilt index finds each of the folder's documents at its filemeta path, and forgets documents that left |
| MirrorEngine.FolderMirror.SyncFolder | sync_engine.py:116-141 | new tree, state, operations and stored filemeta are those of the pass function, for some order of the walk |
| MirrorEngine.FolderMirror.ApplyRemoteFolderChanges | sync_engine.py:448-587 | in-place run of the whole pass equals the pass function |
| MirrorEngine.FolderMirror.SyncByType | sync_engine.py:674-692 | plans all file entries in order, or aborts exactly when one cannot be planned |
| MirrorEngine.FolderMirror.ApplyRemoteState | sync_engine.py:694-784 | the branch taken for one entry |
| MirrorEngine.FolderMirror.ExecuteSyncOperation | sync_engine.py:804-834 | one operation's effect on tree, state, budget and flags |
| MirrorEngine.FolderMirror.CleanupExtraLocalFiles | sync_engine.py:1015-1065 | lists each visible file absent from the filemeta under both spellings, once |
| MirrorEngine.FolderMirror.FindLocalFileByDocId | persistence.py:1383-1392 | first tracked path of a document |
| MirrorEngine.FolderMirror.LocalFileCount | sync_engine.py:604-613 | number of files outside git's own, whatever the walk's order |
| MirrorEngine.FolderMirror.ChangedFilemetaEntries | sync_engine.py:589-595 | new or modified entries in order |
| TruncationWindow.Gate.Gates | sync_engine.py:647-672 | refuses iff the last minute already holds the limit; the deque is always the history of the last minute |
| TruncationWindow.AskedKeeps | sync_engine.py:647-672 | one question to the gate, on values: refused iff the history says so, and the deque goes on standing for the history |
| TruncationWindow.DropSince | sync_engine.py:652-657 | popping stale times off the deque filters the whole history |
| TruncationWindow.WindowBound | sync_engine.py:647-672 | any closed minute holds at most as many truncations as the limit in force at its last one |
| PlainTerms.MinuteBound | sync_engine.py:33-43 | the same in numbers: any closed sixty seconds |
| PlainTerms.ThresholdIs | sync_engine.py:41-42 | the limit is a tenth of n, and 25 below 260 |
| OperationsQueue.TokensAlways | operations_queue.py:40-86 | in every interleaving a key is in the map iff exactly one token for it exists: about to be put, queued, or held by the worker |
| OperationsQueue.TokenConsequences | operations_queue.py:65-86 | a take always finds its record, queued tokens have distinct keys, an idle system holds nothing back |
| OperationsQueue.NothingLost | operations_queue.py:42-67 | every accepted change is in the queued record or in the record of the first take after it |
| OperationsQueue.ServedInOrder | operations_queue.py:69-102 | in every interleaving requests and notifications are served in the order they were put: one put behind k tokens is what the worker gets once it got k others |
| ChangeFolding.UntornIff | operations_queue.py:45-50 | for any changes whatever: the record holds the newest snapshot with that snapshot's own flag iff it brought a flag, or no earlier change could supply one and nothing came after it |
| ChangeFolding.FoldIsNewest | operations_queue.py:45-50 | the newest timestamp and the newest snapshot always win |
| ChangeFolding.FoldSpec | websocket_listener.py:154-161 | changes that carry both fields or neither, as all producers send them, make an untorn record |
| ChangeFolding.TakenIsUntorn | operations_queue.py:65-67 | over every interleaving of such notifications a take hands out the newest timestamp and snapshot with that snapshot's flag |
| ChangeFolding.UnpairedIsTorn | operations_queue.py:46-49 | what a snapshot without a flag would do: take over an older one |
| OperationsQueue.OperationsQueue.MergeLocked | operations_queue.py:42-50 | the locked merge as one atomic step |
| OperationsQueue.OperationsQueue.TakeDocumentChange | operations_queue.py:65-67 | the take as one atomic step |
| HeadProtocol.DocumentMirror.ProcessDocumentChange | sync_engine.py:177-242 | new heads, hashes, files and deque after one record, and how the round ended, decided from index, head, hash, file and gate |
| HeadProtocol.DocumentMirror.HandleDocumentUpdate | sync_engine.py:406-438 | the gated write: no path, refused, raised or written |
| HeadProtocol.Listener.HandleSubdocs | websocket_listener.py:143-161 | what one index message enqueues, when the heads may change between any two examinations |
| HeadEffects.NewBodyIsWritten | sync_engine.py:210-228 | a round for an indexed document whose fetched body is new, with a path, a working disk and room in the folder's minute, and no snapshot or one that is neither head nor baseline: file and hash become the body, the head the snapshot if there is one |
| HeadEffects.KnownBodyIsRecorded | sync_engine.py:210-242 | a body that is known is not written again; only the head is recorded |
| HeadEffects.TruncationCounts | sync_engine.py:647-672 | a write counts in the folder's history iff it has a path, would empty a file that is not empty and is not refused, under the limit of its moment and whether or not the disk takes it |
| HeadEffects.ChangesNothingIff | sync_engine.py:177-242 | a round leaves heads, hashes and files alone iff the record is put off (not indexed, not fetched, no path, refused or raised) or up to date |
| HeadEffects.ExaminedIs | websocket_listener.py:184-205 | an examination sends a snapshot iff the head is another or missing, as a baseline iff it is missing and the snapshot was last seen before the listener was made |
| HeadEffects.LiveEditArrives | websocket_listener.py:132-141 | in every run, once the record of a live event is taken and its round fetches version v for a document it can write, the file holds v or newer for good, and v is no older than the edit |
| HeadEffects.MissedEditArrives | websocket_listener.py:143-161 | in every run a version that is not the head is set on its way by the index message, and once sent, taken and processed by a round that can record it, it is the head and the file holds it or newer for good |
| HeadRuns.HeadNeverAhead | websocket_listener.py:184-205 | in every interleaving from a hydrated start, a recorded head of version v means the file holds the body of some version at least v |
| HeadRounds.HeadsFollowRounds | sync_engine.py:177-242 | in every run a head is the snapshot of the last round that recorded one |
| HeadRounds.DeferredLeavesBehind | sync_engine.py:222-234 | over every run a deferred, gated or failed record changes neither file nor hash, and the head stays behind until a later round of that document records |
| HeadRounds.WriteEnds | sync_engine.py:647-672 | a write has no path, is refused, raises or succeeds according to the index and the folder's history of truncations |
| HeadRounds.TruncationsBounded | sync_engine.py:647-672 | over every run any closed minute of a folder has at most as many truncations as the limit at its last one |
| HeadRounds.RecordedIsNotEnqueued | websocket_listener.py:199-200 | while a snapshot's head stays recorded, its enqueues and the examinations still under way add up to those under way when it was recorded; with none under way it is never enqueued again |
| HeadRounds.StragglerIsHarmless | sync_engine.py:184-185 | a round whose snapshot is the recorded head changes nothing |
| HeadCatchUp.ReconnectCatchesUp | websocket_listener.py:143-161 | whatever is interleaved, once an examined snapshot is enqueued and the round that takes it records, the head is that version and the file holds it or newer for good |
| HeadCatchUp.ReconnectHolds | sync_engine.py:195-228 | a round begun after the server had version v that delivers leaves the file at v or newer for good |
| HeadCatchUp.StartupSyncIff | app.py:22-88 | from any start, no run takes a head ahead of its file iff the startup sync stored every version last seen before the listener was made, of documents without a head |
| HeadCatchUp.BaselineTrustsStartup | sync_engine.py:186-191 | adopting a baseline snapshot keeps heads behind files iff the file already holds it |
| HeadCatchUp.Adopting | websocket_listener.py:202-205 | the run of an adopted snapshot: examined, enqueued, taken, fetched for in vain, recorded |
| HeadOrder.HeadNeverGoesBack | websocket_listener.py:143-161 | in every run from rest a head never goes back, if its document is examined by one listener at a time and in the order of its versions |
| HeadOrder.ListenerSendsWanted | websocket_listener.py:143-161 | the listener's loop in the protocol: the enqueues of a thread that alternates examining and sending are what the loop computes |
| HeadOrder.ListenerIsOneListener | websocket_listener.py:42-58 | a thread that alone examines a document, its versions reported in order, meets that condition |
| HeadOrder.ListenerKeepsOrder | websocket_listener.py:73-110 | so under one listener thread a head never goes back in any run |
| HeadCatchUp.HeadGoesBack | websocket_listener.py:163-182 | run of a document that two folders' listeners examine: the overtaken one sets a newer head back while the file keeps the newer version |
| HeadOrder.CrossingIsTwoListeners | websocket_listener.py:42-58 | that run breaks the condition |
| Pipeline.StepRefines | operations_queue.py:74-102 | each step of listeners, token queue and worker together is a step the protocol allows or does not see; a take always hands out a record |
| Pipeline.PipelineIsSafe | operations_queue.py:40-102 | in every interleaving of the whole, tokens match records, records fold what was enqueued, and no head is ahead of its file |
| Reattach.ReattachLosesNothing | persistence.py:746-764 | every commit a branch or HEAD reached is reached by a branch afterwards, if twelve digits tell the existing commits apart |
| Reattach.ReattachedValid | persistence.py:746-769 | the repository stays well formed, and HEAD's commit is unchanged |
| Reattach.AttachedTo | persistence.py:738-744 | HEAD goes to the connector's branch if there is a connector, else to the only branch, else to "main" |
| Reattach.OnlyTargetMoves | persistence.py:746-764 | that branch is at HEAD's commit, and every other branch there was is where it was |
| Reattach.OldTipIsKept | persistence.py:752-764 | a tip that has to give way is kept under recovery/, the branch name with dashes for slashes, a dash and its twelve digits, unless that name is taken |
| Reattach.ConnectorIsAttached | persistence.py:738-764 | the whole for a configured branch |
| Reattach.ReattachedNamed | persistence.py:757-762 | recovery branches keep pointing to the commit their suffix names |
| Reattach.RunLosesNothing | persistence.py:728-769 | over any run of commits, checkouts, new branches and reattachments nothing once reachable is lost, if twelve digits tell the commits made so far apart |
| Reattach.HexTellsApart | persistence.py:757 | twelve hexadecimal digits can tell apart the commits of any history of at most 16^12 |
| Reattach.DivergedIsRecovered | persistence.py:752-764 | on a diverged repository reattaching moves the branch to HEAD's commit and keeps the old tip under a branch named after it |
| Reattach.DivergedIsARun | persistence.py:752-764 | a diverged repository and its reattachment are such a run, with a commit that only the recovery branch saves |
| Reattach.GitRepo.EnsureConfiguredBranch | persistence.py:728-769 | branches and HEAD after the call |
| PushRecovery.RemoteOnlyAdvances | persistence.py:1221-1298 | whatever others push, and whatever history and tip an unclean rebase leaves, the remote tip only moves to descendants |
| PushRecovery.TipReachesRemoteIff | persistence.py:1256-1279 | with no push after the pull's last fetch, the local tip reaches the remote iff the first push went through or the pull took the remote in |
| PushRecovery.TipReachesRemote | persistence.py:1256-1279 | so with a clean rebase it always does, however many pushes landed before |
| PushRecovery.LocalChangesSurvive | persistence.py:1066-1120 | every change on the local branch is still on it after a pull that does nothing, fast-forwards, rebases cleanly, leaves the branch or merges |
| PushRecovery.RejectedIsBehind | persistence.py:1048-1060 | after a rejected push the fetch always finds something to pull |
| PushRecovery.PushClient.PushToRemote | persistence.py:1221-1298 | the state after push, pull and second push among other pushers, for any way the rebase ends |
| PushRecovery.PushMoves | persistence.py:1256-1260 | a push of a descendant moves remote and tracking ref to the local tip, any other changes nothing |
| PushRecovery.ReplayedAt | persistence.py:1066-1073 | a clean rebase adds each commit's change to the one before it, the first to the fetched tip, and to nothing else |
| PushRecovery.OnlyIs | persistence.py:1052-1060 | ahead and behind list exactly the commits one tip reaches and the other does not, once each, oldest first |
| CommitGraph.AncestorIff | persistence.py:1052-1060 | ancestors are what a walk over parents reaches |
| ResourceIndex.RelayIndex.Build | persistence.py:1518-1617 | the rebuilt index answers every lookup by precedence: last tracked match, folder, first filemeta match, standalone hash |
| IndexEntries.TrackedAnswer | persistence.py:1543-1575 | a tracked id without five dashes is answered by the last place of a configured folder that tracks it, with the stored type or the one its extension suggests |
| IndexEntries.TypeIs | persistence.py:1556-1565 | the type of a tracked path, by its last characters in any case |
| IndexEntries.FolderAnswer | persistence.py:1530-1540 | an untracked id that is a configured folder's is answered by the folder |
| IndexEntries.MentionedAnswer | persistence.py:1577-1602 | else by the first place a configured folder's filemeta mentions it, as "document" when no type is recorded |
| IndexEntries.RemainingAnswer | persistence.py:1604-1621 | else only a known hash is left, without connectors and with fewer than five dashes |
| ResourceIndex.IndexAgreesWithScan | persistence.py:1383-1392 | for an id one folder tracks, index and linear scan agree iff that folder tracks it at one path |
| ResourceIndex.FindLocalFileByDocId | persistence.py:1383-1392 | first matching path |
| Paths.SanitizeSpec | persistence.py:1305-1342 | accepted iff no ".." component and something named; the result is base plus the named components |
| Paths.SameFile | persistence.py:1305-1342 | two accepted paths name the same file iff they agree after dropping "" and "." |
| Varuint.VaruintRoundTrip | relay_sdk/protocol.py:26-52 | decoding an encoded value amid other bytes returns it with its length iff it is below 2^70, else fails |
| Varuint.TenGroups | relay_sdk/protocol.py:26-52 | the same at the start of a frame, with the limit in digits |
| Varuint.DecBounds | relay_sdk/protocol.py:38-52 | a successful decode stays in bounds and consumes one to ten bytes |
| Varuint.LebIsShortest | relay_sdk/protocol.py:26-35 | the encoding is the unique shortest byte string decoding to its value |
| Varuint.EncodeVaruint | relay_sdk/protocol.py:26-35 | the encoding loop, rejecting negatives |
| Varuint.DecodeVaruint | relay_sdk/protocol.py:38-52 | the accumulating loop agrees with the group-by-group reading |
| Protocol.FrameRoundTrip | relay_sdk/protocol.py:93-98 | string-list frames decode to their tag and values |
| Protocol.CborRoundTrip | relay_sdk/protocol.py:131-152 | a frame of tag 4 or 8 decodes to exactly its payload, without tag and length |
| Protocol.CborIsExact | relay_sdk/protocol.py:131-152 | no proper prefix of such a frame decodes and any trailing byte is rejected |
| Protocol.PayloadRoundTrip | relay_sdk/protocol.py:159-160 | any tag but 4 to 8 leaves the rest of the frame as it is |
| Protocol.PrefixFree | relay_sdk/protocol.py:131-174 | no proper prefix of a decodable CBOR or string-list frame decodes |
| Protocol.FrameIsExact | relay_sdk/protocol.py:131-174 | no proper prefix decodes and any trailing byte is rejected |
| Protocol.FirstOccurrencesSpec | relay_sdk/__init__.py:239 | exactly the non-empty guids, once each, in first-occurrence order |
| Protocol.QueryReadBack | relay_sdk/__init__.py:236-243 | the sent frames hold 1 to 100 guids each and read back as the de-duplicated list |
| Protocol.PagesAre | relay_sdk/__init__.py:236-243 | page k carries the guids from 100 k on, a hundred of them or what is left, and there are as many pages as hundreds begun |
| Protocol.SubdocSubscription.Query | relay_sdk/__init__.py:236-243 | sends the pages of the de-duplicated guids, or fails unconnected |
| S3rn.RoundTrip | s3rn.py:221-326 | decode(encode(e)) is e exactly for the faithful entities, over every entity that encodes |
| S3rn.EncodeIsInjective | s3rn.py:221-261 | distinct faithful entities have distinct names |
| S3rn.ReadRoundTrip | s3rn.py:263-326 | encode(decode(s)) is s exactly when s begins with the prefix, which the reader ignores, and nothing follows the last id |
| S3rn.UnfaithfulIsRead | s3rn.py:312-326 | what the others are read as: a local document or file as its folder, the product not at all |
| S3rn.ReadIsValid | s3rn.py:290-295 | whatever decodes has UUIDs or nothing where names have ids |
| S3rn.ValidUuidIs | s3rn.py:213-219 | accepted are five groups of hexadecimal digits in either case, and one newline after them |
| S3rn.EncodesIff | s3rn.py:221-261 | an entity has a name iff all its ids are there and are UUIDs |
| S3rn.DocumentName | s3rn.py:221-261 | the name of a document, part by part |
| S3rn.BlobName | s3rn.py:221-261 | the name of a blob, with "None" for an attribute that is not set |
| S3rn.ExtractedIff | relay_client.py:257-302 | ids are found in a compound id iff it has nine dashes, a folder iff it is a whole number of UUIDs |
| S3rn.ChainEnds | relay_client.py:257-301 | first and last UUID are found however many stand between |
| S3rn.CompoundRoundTrip | s3rn.py:328-341 | a compound id splits into the relay and resource it was made from |
| S3rn.SubdocGuidRoundTrip | relay_sdk/__init__.py:171-174 | a guid names its resource, and making it twice changes nothing |

## Left out

- Directories: folder entries count as keys but create nothing, and a file never stands where a directory is needed.
- Disk errors in the middle of an operation: in a folder pass the only exception modelled is a path that cannot be sanitised, and a document's write either happens or raises before it changes anything.
- Two documents at one path in the reconnect protocol, which keeps files by document.
- Operations are values in a list; the source shares mutable operation objects between its lists.
- Hash, type and modification time in the tracked state of the mirror; the index has its own view of type.
- MirrorConvergence.PathsConverge: asks file entries to name distinct files, to have a type, without which the pass aborts and changes nothing, and binary ones a hash, without which they cannot be fetched.
- MirrorConvergence.MirrorsIffStanding: asks the same of the file entries.
- PushRecovery.LocalChangesSurvive: does not say what `--ours` and `--theirs` keep when conflicts are resolved inside a rebase; that is git's meaning and is not part of this model, where such a rebase may end with any local tip over the old history.
- First pushes without an upstream, and the repair of tracking branches.
- HTTP, websocket and git processes, SSH keys, lock files, signals, threads' scheduling beyond the modelled atomic steps.
- CBOR, JSON, UTF-8 and CRDT contents: payloads stay raw bytes, bodies stay strings.
- The interplay of folder passes with document hashes: passes rewrite bodies without touching hashes, so the head theorem is about runs of document events; passes only change the index there.
- The `has_changes` flag between worker and commit timer.
- Authentication, webhooks, the web server, the command line, host keys and configuration files.
