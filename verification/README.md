# A verified model of the Brain's stores, sync, ingestion and fixes

A Brain is a folder of Markdown files that is kept in step with a hosted, revisioned store. This project models
the parts of the repository that keep the two honest and proves what they promise. It is written in Dafny 4.11;
`dafny verify dfyconfig.toml` checks all of it.

Each state-changing part appears twice: as functions from one value of the state to the next (the `...Model` and
`...Runs` files), and as classes and methods with the fields and loops of the source, each proved to do exactly
what the function says (`RevisionStore`, `BrainStore`, `SyncAgent`, `IngestionJobs`, `WriteAudit`, `OAuthState`,
`TokenGrants`, `LintTransforms`, `BrainGraph`, `UnionSpan`, and the loops in `Log` and `WritePolicy`). Theorems
about whole runs are proved of the functions; the methods carry them over. The `...Cases` files say when exactly each
operation takes effect and what it then leaves, in terms of the state before it alone.

## What is modelled

- **Revision store** (`RevisionModel`, `RevisionHistory`, `RevisionTheorems`, `RevisionStamps`, `RevisionCases`,
  `RevisionStore`, `BrainStore`, `WritePolicy`). Compare-and-swap proposals, tombstones, recreation over a tombstone,
  renames, replays of an operation id, the receipt nested in LOG.md, conflicts, roll-back on exceptions, and admission under
  a write policy. Single calls of the store are atomic, as the queue of the file-backed store makes them; the Brain's
  own operations are several such calls, and any run of other callers' operations may fall between two of them. In
  every reachable store the heads are the fold of the change log and each file's revisions form one chain without forks.
- **Local sync agent** (`SyncModel`, `SyncSafety`, `SyncRuns`, `SyncDeletions`, `SyncConverges`, `SyncCases`,
  `SyncPasses`, `SyncAgent`). A machine in which user edits, hosted operations and crashes may fall between any two steps of the agent, and
  whatever the agent remembers may be out of date by the time it acts. No local text is lost; deletions pass all
  guards; a quiet sync converges and a second one changes nothing.
- **Ingestion jobs** (`IngestionModel`, `IngestionRuns`, `IngestionCommit`, `IngestionCases`,
  `IngestionJobs`). Any number of workers that may stall past the expiry of their lease, fail or die between any two statements.
- **Filesystem write journal** (`WriteJournal`, `WriteOutcomes`, `WriteAudit`). Any number of processes that may stall,
  fail with an exception or crash between any two file operations of one operation id, and that know one another by pid alone: a
  pid that has become free may be given to a new process.
- **Tokens** (`OAuthState`, `RefreshRotation`, `TokenGrants`). Grants as interleaved steps over a state store that
  sweeps itself, for RFC 6749 sections 4.1.2 and 6.
- **Log** (`Log`, `LogCases`), **lint fixes** (`LintLines`, `LintFix`, `LintApply`, `LintCases`, `LintTransforms`),
  **link graph** (`BrainGraph`) and **interval union** (`UnionSpan`).

## Results that differ from what one might expect

- A write that expected no file need not follow on no file. If others create and delete the file between the read of
  its head and the proposal, the write is accepted over the tombstone; once the head has moved in any other way nothing
  is written (`BrainStore.WriteNeverOverwritesUnseen`, and `ExpectedNothing` for an input of each kind).
- A restore proposes the text under the tombstone it read first. If others restore, rewrite and delete the file in the
  meantime, the older text is put back; `BrainStore.RestoreGivesBack` says that the text is what the file last held if
  and only if that tombstone is still the head, and `RestoresOlderText` is an input.
- Neither `complete` nor `approved` nor `needs_review` is safe from a worker in the ingestion jobs. `advance` claims
  the job and only then reads it, inside the block whose failure handler sets `stage='blocked'`; when that first read
  fails, the job is blocked whatever its stage. `IngestionRuns.OnlyBlindFailureDragsBack` and `CompleteLeft` say that
  nothing else drags such a job back, and `AnyStageCanBeLost`, `ApprovalCanBeLost` and `ReachComplete` that this
  does happen.
- What `apply` commits is what was approved, except for LOG.md: a candidate that names LOG.md, applied by a caller
  with a write context, gets the ingestion receipt appended to it in the same transaction.
  `IngestionCommit.ReviewedBytesCommit` gives the condition in both directions, and `ReviewedLogDiffers` a run.
- A write whose process crashes between creating the intent and writing the target is made again only under the
  crashed process's own pid. Any other retry finds the intent and stops (`WriteOutcomes.NeverRedone`, and
  `WriteCanBeLost` for such a crash on every fresh machine); but a new process that was given that pid, or a call after
  a failed one, takes the intent for its own, overwrites it and writes. `RedoneIffPrepared` and `ReclaimsIffPrepared`
  say exactly when that can happen.
- So "at most once" holds for each life of that pid, not for each operation id: there are at most one more writes than
  times the pid began afresh (`CrashSafe`; once if it never did, `OnceInOneLife`), and for every number there is a run
  that reaches the bound (`WritesReachBound`), in which somebody sets the target back before each retry.
- The grace of a refresh token counts from the clock reading of the first grant, which is taken after the token was
  consumed. Counted from the first use it can be exceeded by the time in between, and by no more
  (`RefreshRotation.WindowFromFirstUse`, and `DelayExtendsWindow` for every such delay).
- A patch does not make sure that the old text occurs once: occurrences are counted without overlap, so "aa" is patched
  in "aaa" (`BrainStore.OverlapIsPatched`). Every other occurrence overlaps the one replaced, and there is none in any
  text exactly when the old text does not overlap itself (`UniqueUnlessOverlapping`).

## Conventions

Hashes and digests are identified with what they are taken of. Revision ids, cursors and conflict ids are the
counters they are built from. What the source works out with regular expressions in the write policy (the active
blocks of a task file, the rules for knowledge lines and evidence formats) is a parameter `Rules`, so the results
hold for every such rule. `Env` carries all that one call reads from outside the store. The history
variables `displaced`, `intents`, `again`, `held`, `logged`, `writes`, `redeemed`, `uses` and `first` decide no step. `issued` and
`codesIssued` also keep tokens and codes from being generated twice, and `pushes` also holds the record of the push
under way, which its last steps complete.

## Model

| member | source | states |
|---|---|---|
| `WritePolicy.AddedLines` | src/services/write-policy.ts:107-119 | the loop over a counting map returns the lines of the new text that the old text has no copy left for |
| `WritePolicy.AddedLinesAreTheDifference` | src/services/write-policy.ts:107-119 | added lines are exactly the multiset difference, an ordered subsequence of the new lines, and empty exactly on inclusion |
| `WritePolicy.NewBlockFound` | src/services/write-policy.ts:87-96 | the counting loop over blocks accepts exactly when the new blocks are included in the old ones with multiplicity |
| `Log.FormattedEntryIsWellFormed` | src/services/log.ts:16-28 | a formatted entry with a date and an innocent summary starts an entry and holds no other start or root heading |
| `Log.AppendKeepsInk` | src/services/log.ts:29-48 | appending puts the entry in below the divider, else before the first entry, else at the top: every character of log and entry that is not white space is there, in order |
| `Log.AppendChangesContent` | src/services/log.ts:29-48 | appending an entry that is not blank always changes the log |
| `Log.ParseLogEntries` | src/services/log.ts:71-110 | the parsing loop computes the state-machine specification of entries, preamble and headings |
| `Log.ParseInvertsAppend` | src/services/log.ts:16-110 | appending any well-formed entries to the header and parsing gives back exactly those entries, trimmed, newest first |
| `Log.PagesPartition` | src/services/log.ts:112-140 | consecutive pages of any size concatenate to exactly the parsed entries |
| `LogCases.FormattedEntryHolds` | src/services/log.ts:16-28 | a printed entry is date, operation and summary on one line and the list of files on the next |
| `LogCases.ListedFile` | src/services/log.ts:16-28 | every file touched is in that list |
| `LogCases.FirstEntryMeans` | src/services/log.ts:58-66 | the first entry looked for is the first line start where one begins |
| `LogCases.LegacyMeans` | src/services/log.ts:54-56 | a legacy entry begins with white space, perhaps a dash and white space again, a date, white space and a long dash |
| `LogCases.RootHeadingMeans` | src/services/log.ts:67-69 | a root heading is one number sign, alone or before anything but another |
| `LogCases.StandardRunsOn` | src/services/log.ts:71-110 | a standard entry is its first line and everything up to the next entry, heading or end, trimmed |
| `LogCases.LegacyIsAnEntry` | src/services/log.ts:91-96 | a legacy line is an entry by itself, trimmed; it ends what was open, and the lines after it are read anew |
| `LogCases.OutsideIgnored` | src/services/log.ts:71-110 | lines before the first entry, or after a heading, belong to none |
| `LogCases.PageExactly` | src/services/log.ts:112-140 | a page is the entries from the offset on up to the limit, numbered exactly when there are others |
| `RevisionStore.MemoryRevisionStore.FindWriteOperation` | src/sync/memory-revision-store.ts:176-179 | the search finds the first revision that carries the operation id with a request hash |
| `RevisionStore.MemoryRevisionStore.AdmitRevision` | src/services/write-admission.ts:19-60 | the evidence loop refuses, passes or stamps exactly as the admission function says |
| `RevisionStore.MemoryRevisionStore.RecordConflict` | src/sync/memory-revision-store.ts:507-536 | an equal open conflict is answered again, otherwise one is added under a new id |
| `RevisionStore.MemoryRevisionStore.ApplyRevision` | src/sync/memory-revision-store.ts:199-291 | replay, admission, unchanged, conflict, acceptance and the nested receipt, on the mutable fields |
| `RevisionStore.MemoryRevisionStore.ProposeRevision` | src/sync/memory-revision-store.ts:185-198 | an exception anywhere puts every field back |
| `RevisionStore.MemoryRevisionStore.ProposeDeletion` | src/sync/memory-revision-store.ts:293-370 | idempotent on tombstones, a conflict off the head, otherwise a tombstone |
| `RevisionStore.MemoryRevisionStore.ProposeRename` | src/sync/memory-revision-store.ts:372-486 | both revisions of a rename or a conflict or a refusal, never half of it |
| `RevisionStore.MemoryRevisionStore.ResolveConflict` | src/sync/memory-revision-store.ts:548-586 | resolution on the reviewed head, with the resolving revision recorded |
| `RevisionStore.MemoryRevisionStore.SetWriteVerification` | src/sync/memory-revision-store.ts:180-184 | the verification state changes on the copy among the revisions only |
| `RevisionStore.FileRevisionStore.ProposeRevision` | src/sync/file-revision-store.ts:105-120 | load, run, and save only when nothing was thrown |
| `RevisionStore.FileRevisionStore.ResolveConflict` | src/sync/file-revision-store.ts:99-120 | a resolution that throws leaves the file as it was |
| `RevisionStore.FileRevisionStore.Await` | src/sync/file-revision-store.ts:105-120 | whatever calls the queue admits before a caller's next turn, the file becomes what that run of operations makes of it |
| `RevisionHistory.RecordConflictSound` | src/sync/memory-revision-store.ts:507-536 | recording touches no file and answers with an open conflict of that very input |
| `RevisionHistory.CommitSound` | src/sync/memory-revision-store.ts:248-278 | a new revision on the head keeps numbering, chains, heads, operations and conflicts sound |
| `RevisionHistory.ProposeSound` | src/sync/memory-revision-store.ts:185-291 | a proposal keeps the whole invariant and only adds to the history |
| `RevisionHistory.DeleteSound` | src/sync/memory-revision-store.ts:293-370 | so does a deletion |
| `RevisionHistory.RenameSound` | src/sync/memory-revision-store.ts:372-486 | so does a rename |
| `RevisionHistory.ResolveSound` | src/sync/memory-revision-store.ts:548-586 | so does a resolution, whose revision is live and of the conflict's file; if it throws nothing changes |
| `RevisionHistory.VerificationSound` | src/sync/memory-revision-store.ts:180-184 | so does a verification, which leaves the heads alone |
| `RevisionHistory.RunSound` | src/sync/memory-revision-store.ts:185-586 | over any run of operations the invariant holds and recorded text never changes |
| `RevisionHistory.OnHeadNeverConflicts` | src/sync/memory-revision-store.ts:199-291 | a proposal made on the current head, as the receipt is, cannot conflict |
| `RevisionHistory.AnswerHoldsContent` | src/sync/memory-revision-store.ts:199-291 | a successful answer is a live recorded revision of the file with the proposed content |
| `RevisionHistory.HistoryIsLinear` | src/sync/memory-revision-store.ts:199-486 | in every reachable store heads are the fold of the change log, cursors increase, and parents from a head lead through all revisions of its file |
| `RevisionHistory.HistoryNeverForks` | src/sync/memory-revision-store.ts:199-486 | no two revisions share a parent, and no file begins twice |
| `RevisionHistory.HeadMovesOn` | src/sync/memory-revision-store.ts:185-586 | over any run a file's head stays as it was or is replaced by a later revision, never by an earlier one |
| `RevisionTheorems.OperationsAtMostOnce` | src/sync/memory-revision-store.ts:176-291 | no two revisions of a Brain carry one operation id with a request hash |
| `RevisionTheorems.AdmittedRevision` | src/services/write-admission.ts:19-60 | an admitted write carries its operation and the hash of its request, and is never to LOG.md |
| `RevisionTheorems.ResubmissionReturnsOriginal` | src/services/write-admission.ts:14-18 | resubmitting after any further operations answers with the original and changes nothing |
| `RevisionTheorems.OtherRequestRefused` | src/services/write-admission.ts:14-18 | a different request under the same operation id is refused and changes nothing |
| `RevisionTheorems.ReceiptIsAccepted` | src/sync/memory-revision-store.ts:276-283 | the nested receipt is accepted as a fresh revision of LOG.md or throws; it never conflicts and wants no receipt itself |
| `RevisionTheorems.ProposalAccounting` | src/sync/memory-revision-store.ts:185-291 | an admitted write adds exactly its revision and one of LOG.md, an ordinary one its own, a conflict no file, and everything else nothing |
| `RevisionTheorems.AdmittedEvidenceIsGrounded` | src/services/write-admission.ts:31-56 | evidence recorded as retrieved matches the live head it names, in revision, hash and passage |
| `RevisionTheorems.RetiredIntakeNeverGrows` | src/services/write-policy.ts:87-96 | under a fixed retired policy no run of revisions, deletions, renames and resolutions adds an active block to a task file |
| `RevisionCases.EvidencePassesExactly` | src/services/write-admission.ts:31-56 | evidence passes exactly when every hosted item is grounded; otherwise the first that is not decides, by whether its source is there |
| `RevisionCases.AdmitsExactly` | src/services/write-admission.ts:19-60 | what admission decides and why, in order: queue, whether evidence is asked for, path, form, target and grounding, and what it stamps |
| `RevisionCases.LogPathMeans` | src/services/write-policy.ts:134 | the log is a path whose last part reads LOG.md in whatever case |
| `RevisionCases.ReplaysExactly` | src/services/write-admission.ts:14-18 | an operation id on record answers with what it did exactly when the request is the same in every part, and with a refusal otherwise |
| `RevisionCases.AnswersExactly` | src/sync/memory-revision-store.ts:199-291 | every other proposal is refused, already there, in conflict, or accepted on its base with the receipt a policy wants, exactly when, and with which revision, change, conflict and LOG.md |
| `RevisionCases.RecordsExactly` | src/sync/memory-revision-store.ts:507-536 | a difference is recorded under the next id unless the very same one is open |
| `RevisionCases.ResolvesExactly` | src/sync/memory-revision-store.ts:548-586 | a resolution takes effect exactly on an open conflict of the Brain, the head reviewed and a text the queue takes, and is refused for the first of these that fails |
| `RevisionCases.VerifiesExactly` | src/sync/memory-revision-store.ts:180-184 | a verification changes the verification of the one revision, if it has a context, and nothing else |
| `RevisionCases.RenamesExactly` | src/sync/memory-revision-store.ts:372-486 | a rename conflicts over the old name, then the new one, is refused, or makes both revisions, in this order |
| `RevisionStamps.RunStamped` | src/services/write-admission.ts:58-60 | when callers bring no request hash of their own, every recorded hash is that of the write that carries it |
| `RevisionStamps.OnHeadTakesEffect` | src/sync/memory-revision-store.ts:199-273 | a proposal on the current head is never answered by a replay: its content is at the head afterwards |
| `BrainStore.RevisionBrainStore.DeleteFile` | src/services/revision-brain-store.ts:434-459 | protected files refused, otherwise a deletion on the head read, after whatever others did since |
| `BrainStore.RevisionBrainStore.RenameFile` | src/services/revision-brain-store.ts:460-490 | the guards of a rename, and its outcome after whatever others did since the head was read |
| `BrainStore.RevisionBrainStore.RestoreFile` | src/services/revision-brain-store.ts:491-529 | restore from the parent of the tombstone read, with each refusal and others acting between any two of its four calls |
| `BrainStore.RevisionBrainStore.WriteFile` | src/services/revision-brain-store.ts:340-426 | replace, append and patch with expectation checks on the head read, the text read later, and the proposal made later still on that head |
| `BrainStore.DeleteThenRestore` | src/services/revision-brain-store.ts:434-529 | a file deleted as it was read and then left alone is restored to its exact content, whatever else others do, exactly when the policy can be read and its queue takes the text |
| `BrainStore.EveryTombstoneRestorable` | src/services/revision-brain-store.ts:491-529 | every reachable tombstone has a live parent of the same file, and under every policy restoring gives its text back exactly when the queue takes it |
| `BrainStore.RenameConserves` | src/sync/memory-revision-store.ts:372-486 | an accepted rename moves one content, keeps the number of live files and touches no other head |
| `BrainStore.RefusesExactly` | src/services/revision-brain-store.ts:340-529 | which writes, deletions, renames and restores are refused before the store is asked to change, and why |
| `BrainStore.AppendsExactly` | src/services/revision-brain-store.ts:399-403 | an appended text starts on a line of its own after all there is |
| `BrainStore.WriteNeverOverwritesUnseen` | src/services/revision-brain-store.ts:340-426 | whatever others do in between, an accepted write follows on the head it read, and was made from its text, unless it read no file and finds a tombstone; a write neither refused nor replayed conflicts exactly when the head has moved otherwise to another text, and then changes no file |
| `BrainStore.ExpectedNothing` | src/services/revision-brain-store.ts:366-413 | a write that expected no file conflicts with another's creation and is accepted over another's creation and deletion |
| `BrainStore.DeleteTakesOnlySeen` | src/services/revision-brain-store.ts:434-459 | a deletion takes exactly the head it read; once that has moved it changes no file, and succeeds only if others deleted it |
| `BrainStore.RenameMovesOnlySeen` | src/services/revision-brain-store.ts:460-490 | a rename moves the very text it read, exactly when the old name has not moved, the new one is free and the queue takes the text; otherwise it changes no file |
| `BrainStore.RestoreGivesBack` | src/services/revision-brain-store.ts:491-529 | a restore puts back the text under the tombstone it read, exactly when the policy takes it and no other text is live; it is the last text if and only if that tombstone is still the head |
| `BrainStore.RestoresOlderText` | src/services/revision-brain-store.ts:491-529 | a restore overtaken by another restore, rewrite and deletion puts the older text back |
| `BrainStore.PatchReplacesFirstOccurrence` | src/services/revision-brain-store.ts:375-394 | a patch goes through exactly when the old text occurs in a live file and all other occurrences overlap the first, which it replaces, keeping everything around it |
| `BrainStore.UniqueUnlessOverlapping` | src/services/revision-brain-store.ts:375-394 | the occurrence replaced is the only one in every text if and only if the old text does not overlap itself |
| `BrainStore.OverlapIsPatched` | src/services/revision-brain-store.ts:375-394 | the old text "aa" is patched in "aaa", where it occurs twice |
| `SyncAgent.LocalSyncAgent.ReconcileResolvedConflicts` | src/sync/local-sync-agent.ts:339-364 | the loop installs resolutions over the very text the conflict recorded, and saves only if it did |
| `SyncAgent.LocalSyncAgent.PushChanged` | src/sync/local-sync-agent.ts:396-458 | one file of the push loop: unchanged, held, refused, conflict or tracked at the answer |
| `SyncAgent.LocalSyncAgent.ProposeDeletions` | src/sync/local-sync-agent.ts:545-563 | the loop proposes each confirmed deletion at its tracked base and forgets what was tombstoned |
| `SyncAgent.LocalSyncAgent.InferGuardedDeletions` | src/sync/local-sync-agent.ts:496-569 | the three guards, the deletion loop and what is remembered for the next scan |
| `SyncAgent.LocalSyncAgent.PushLocalChanges` | src/sync/local-sync-agent.ts:366-486 | a whole push, failed scans and exceptions included |
| `SyncAgent.LocalSyncAgent.PullDeleted` | src/sync/local-sync-agent.ts:635-672 | a hosted tombstone removes a clean copy, never a marker, and conflicts with an edited one |
| `SyncAgent.LocalSyncAgent.PullCurrent` | src/sync/local-sync-agent.ts:674-742 | a live head is adopted, installed over a clean copy, or conflicts |
| `SyncAgent.LocalSyncAgent.PullHostedChanges` | src/sync/local-sync-agent.ts:571-748 | a whole pull |
| `SyncAgent.LocalSyncAgent.SyncOnce` | src/sync/local-sync-agent.ts:750-779 | a push and then a pull of what the store then lists |
| `SyncAgent.LocalSyncAgent.Rebase` | src/sync/local-sync-agent.ts:245-328 | the state file is rebuilt as the specification says or left alone |
| `SyncSafety.ReconcileWriteSafe` | src/sync/local-sync-agent.ts:352-361 | installing a resolution seen at any earlier time loses nothing and tracks truthfully |
| `SyncSafety.PushedRevision` | src/sync/local-sync-agent.ts:437-446 | what a push tracks is the live head with the pushed content |
| `SyncSafety.PushFileSafe` | src/sync/local-sync-agent.ts:389-458 | one push turn keeps tracked entries truthful and displaces nothing |
| `SyncSafety.DeleteOneSafe` | src/sync/local-sync-agent.ts:545-563 | so does one deletion |
| `SyncSafety.CleanIsJustified` | src/sync/local-sync-agent.ts:594-742 | a clean local copy is the content of a live revision of that file |
| `SyncSafety.PullFileSafe` | src/sync/local-sync-agent.ts:594-742 | one pull turn on a head and a local hash of any age loses no text and never throws on a listed head |
| `SyncSafety.SafeSurvives` | src/sync/local-sync-agent.ts:339-742 | whatever the hosted side does next, tracked entries stay truthful and displaced text stays recorded |
| `SyncRuns.ActSafe` | src/sync/local-sync-agent.ts:339-742 | every step of anybody keeps the system safe |
| `SyncRuns.AgentAccounts` | src/sync/local-sync-agent.ts:339-742 | only the user changes the disk without the text being put on record as displaced |
| `SyncRuns.NoLostLocalText` | src/sync/local-sync-agent.ts:339-742 | over any run, a text the agent takes off the disk is for ever after a live revision of the file or the local side of a resolved conflict, and neither `00_loader.md` nor `NOW.md` is removed |
| `SyncDeletions.PlanIsGuarded` | src/sync/local-sync-agent.ts:496-569 | a plan deletes exactly the files missing twice, from a folder that shows files and each of `00_loader.md` and `NOW.md` that is tracked, when within both limits, and otherwise none; it names the guard that tripped and the files spared |
| `SyncDeletions.RunGuarded` | src/sync/local-sync-agent.ts:496-569 | over any run with crashes, pending deletions are misses of the last completed healthy push |
| `SyncDeletions.OnlyPlannedTombstones` | src/sync/local-sync-agent.ts:366-742 | no other step of the agent ends a live hosted file |
| `SyncDeletions.GuardedDeletion` | src/sync/local-sync-agent.ts:496-569 | a file the agent tombstones was tracked and absent in this push and in the last completed one, both from an intact folder, within the limits, and is neither `00_loader.md` nor `NOW.md` |
| `SyncConverges.QuietPushCleans` | src/sync/local-sync-agent.ts:366-486 | after a push without conflict, guard, hold or missing file the tracked files are exactly the local ones, each as last synced |
| `SyncConverges.PullOneQuiet` | src/sync/local-sync-agent.ts:594-742 | one quiet pull turn brings its file together and leaves the others |
| `SyncConverges.SyncConverges` | src/sync/local-sync-agent.ts:366-779 | a quiet sync leaves every live hosted vault file byte-equal on disk and tracked at its head |
| `SyncConverges.SyncSettles` | src/sync/local-sync-agent.ts:366-779 | syncing replicas that agree changes neither disk, store nor tracked files, under any policy |
| `SyncConverges.RebaseGuard` | src/sync/local-sync-agent.ts:245-328 | rebuilding succeeds exactly when no conflict is open and the two inventories are byte-equal |
| `SyncConverges.RebaseSettles` | src/sync/local-sync-agent.ts:245-328 | a rebuilt state file leaves the replicas in step |
| `SyncCases.ReconcileTurn` | src/sync/local-sync-agent.ts:344-361 | one resolved conflict is installed exactly when it was the agent's own, the head resolves it, and the file is still tracked and still reads as recorded; otherwise nothing changes |
| `SyncCases.ReconcileInstalls` | src/sync/local-sync-agent.ts:339-364 | a whole reconciliation brings a file to its head exactly when some resolved conflict may be installed as it begins, and otherwise leaves file and entry alone |
| `SyncCases.PushTurn` | src/sync/local-sync-agent.ts:389-458 | a synced file is left alone; any other is published exactly when the hosted file is where it was last synced, holds the text already, or is deleted and the local one new; otherwise there is a conflict on record |
| `SyncCases.PushHeld` | src/sync/local-sync-agent.ts:396-436 | a refused text is not proposed again while text, base and policy are the same, and is as soon as one of them is not |
| `SyncCases.ReadsBack` | src/sync/local-sync-agent.ts:447-451 | the read-back of a policy-admitted push is recorded as verified exactly when the hosted text is the one pushed |
| `SyncCases.DeleteTurn` | src/sync/local-sync-agent.ts:545-563 | the hosted file is deleted exactly when its head is the revision tracked; deleted by others it is forgotten; otherwise there is a conflict |
| `SyncCases.DeletesExactly` | src/sync/local-sync-agent.ts:545-564 | over the whole plan, each file that can be is deleted and forgotten, and every other keeps its hosted head and its entry |
| `SyncCases.PushEnds` | src/sync/local-sync-agent.ts:490-569 | a tracked file is forgotten exactly when missed twice by an intact scan within both limits and not moved on the hosted side, and remembered exactly when missed by an intact scan and still tracked |
| `SyncCases.PullTombstoneTurn` | src/sync/local-sync-agent.ts:635-672 | a tombstone removes a synced copy, forgets a missing one, conflicts with an edited one, and never touches `00_loader.md` or `NOW.md` |
| `SyncCases.PullLiveTurn` | src/sync/local-sync-agent.ts:674-742 | a live head is left alone where tracked, adopted where equal, installed over a synced copy or where nothing is, and otherwise conflicts |
| `SyncCases.PullUnderPolicy` | src/sync/local-sync-agent.ts:583-634 | a file under sources/ is left alone and a name that is no Brain file ends the pull; a held or refused unsynced text waits and nothing else happens to it; every other head is pulled as without a policy |
| `SyncCases.FailedScan` | src/sync/local-sync-agent.ts:366-382 | a failed scan proposes nothing and remembers no miss |
| `SyncCases.RebasesExactly` | src/sync/local-sync-agent.ts:245-328 | rebuilding goes through exactly on byte-equal inventories without an open conflict, and then tracks every local file at its head, forgets every miss and keeps every hold |
| `SyncPasses.PushIsARun` | src/sync/local-sync-agent.ts:366-486 | a push that nothing interrupts is a run of the machine |
| `SyncPasses.PullIsARun` | src/sync/local-sync-agent.ts:571-748 | so is a pull |
| `IngestionJobs.IngestionJobs.Reserve` | src/ingestion/jobs.ts:52-83 | each guard of a reservation, the existing job or a new row, keeping identities reserved |
| `IngestionJobs.IngestionJobs.Claim` | src/ingestion/jobs.ts:84-87 | a new token when nobody holds the row or the lease has lapsed |
| `IngestionJobs.IngestionJobs.Fence` | src/ingestion/jobs.ts:88-95 | the row's owner and a live lease with this token, or why not |
| `IngestionJobs.IngestionJobs.MarkVerified` | src/ingestion/jobs.ts:116-118 | a fenced step changes the row only under the lease |
| `IngestionJobs.IngestionJobs.SaveExtraction` | src/ingestion/jobs.ts:124-126 | a fenced step changes the row only under the lease |
| `IngestionJobs.IngestionJobs.Block` | src/ingestion/jobs.ts:128-130 | the failure handler writes only under the lease |
| `IngestionJobs.IngestionJobs.ReviewJob` | src/ingestion/jobs.ts:133-156 | a review binds every change to the head it was read at and withdraws any approval |
| `IngestionJobs.IngestionJobs.Approve` | src/ingestion/jobs.ts:157-163 | an approval is of exactly the candidate on record |
| `IngestionJobs.IngestionJobs.Commit` | src/ingestion/jobs.ts:171-229 | the transaction checks every head, writes every file and the receipts, or rolls all of it back |
| `IngestionRuns.Fenced` | src/ingestion/jobs.ts:84-163 | a row's content changes only by its live lease holder, or by review or approval of a row nobody holds |
| `IngestionRuns.OthersStandStill` | src/ingestion/jobs.ts:84-132 | no step of anybody else moves a row under a live lease |
| `IngestionRuns.UndisturbedUnderLease` | src/ingestion/jobs.ts:84-132 | over any run, a worker that still holds its lease finds the row as it left it |
| `IngestionRuns.StartInv` | src/ingestion/jobs.ts:29-34 | the empty table with no workers satisfies the invariant |
| `IngestionRuns.RunInv` | src/ingestion/jobs.ts:84-231 | tokens are never reused, approvals match candidates, only verified originals are reviewed, and lease holders know the stage |
| `IngestionRuns.OnlyBlindFailureDragsBack` | src/ingestion/jobs.ts:97-132 | no step of a worker, commits of approved jobs aside, changes a job in review or later except a failure handler under a live lease; past review, exactly one whose first read failed |
| `IngestionRuns.CompleteLeft` | src/ingestion/jobs.ts:97-132 | completion is left exactly by the failure handler of an advance whose first read failed under a live lease |
| `IngestionRuns.AnyStageCanBeLost` | src/ingestion/jobs.ts:97-132 | from every job nobody holds, whatever its stage, such a failure leads to blocked |
| `IngestionRuns.ApprovalCanBeLost` | src/ingestion/jobs.ts:97-163 | an approved job is reachable from the empty table and so is its loss |
| `IngestionRuns.ReachComplete` | src/ingestion/jobs.ts:52-231 | completion is reachable, from reservation through review, approval and apply |
| `IngestionRuns.ReserveSound` | src/ingestion/jobs.ts:52-83 | a reservation answers with a job of that very subject and keeps identities reserved |
| `IngestionRuns.RunReservations` | src/ingestion/jobs.ts:52-83 | in every reachable table source, subject and companion determine one another and a subject's content has one job |
| `IngestionCases.ReservesExactly` | src/ingestion/jobs.ts:52-83 | a reservation goes through exactly when source, subject and companion agree with all jobs and sources, and the content has a job already or a free artifact; and which job answers |
| `IngestionCases.ClaimsExactly` | src/ingestion/jobs.ts:84-87 | a job is claimed exactly by its owner when nobody holds it or its lease has run out, for two minutes under a fresh token |
| `IngestionCases.ReleasesExactly` | src/ingestion/jobs.ts:96-96 | a lease is given back by its token alone |
| `IngestionCases.FencedExactly` | src/ingestion/jobs.ts:88-132 | each fenced step goes through exactly for the owner under a live lease, and what it changes |
| `IngestionCases.ReviewsExactly` | src/ingestion/jobs.ts:133-156 | a review goes through exactly on an extracted job nobody holds and a bundle that is current, and what it binds |
| `IngestionCases.ApprovesExactly` | src/ingestion/jobs.ts:157-163 | an approval goes through exactly for the candidate on record of a reviewed job nobody holds |
| `IngestionCases.CommitGuards` | src/ingestion/jobs.ts:171-189 | an application is refused for want of job, lease or matching approval, and a moved head sends the job back to review with nothing written |
| `IngestionCases.WritesExactly` | src/ingestion/jobs.ts:190-225 | each reviewed change is proposed on its reviewed head in the approver's name, and put to the policy exactly when it is not the companion and the caller has a write context; the receipt is an internal change of LOG.md |
| `IngestionCases.CommitGoesThrough` | src/ingestion/jobs.ts:171-229 | without policy and write context an application whose heads have not moved completes |
| `IngestionCommit.ChangesLand` | src/ingestion/jobs.ts:190-206 | writing the reviewed changes in any order leaves each at its head, but LOG.md where the transaction itself logs, and no other file moved |
| `IngestionCommit.LogDiffers` | src/ingestion/jobs.ts:207-225 | the ingestion receipt leaves a reviewed LOG.md holding something else |
| `IngestionCommit.ReviewedLogDiffers` | src/ingestion/jobs.ts:52-231 | the exception is reached from the empty table: a reviewed and approved LOG.md is committed holding something else |
| `IngestionCommit.ReviewedBytesCommit` | src/ingestion/jobs.ts:171-229 | a committed transaction withdraws a stale approval and changes no file, or leaves exactly the approved bytes, iff the candidate does not name LOG.md under a write context; even then every other file holds what was approved |
| `IngestionCommit.ReachableCommits` | src/ingestion/jobs.ts:52-231 | every reachable state meets what that theorem asks for |
| `WriteJournal.InvKept` | src/services/filesystem-write-audit.ts:67-183 | every file operation of every process, every crash, failure and reuse of a pid and every outside edit keeps what processes know true |
| `WriteOutcomes.CrashSafe` | src/services/filesystem-write-audit.ts:67-183 | at most one write for each intent, and at most one intent more than times the owner's pid began afresh; all under that pid, to the one file; each receipt once; complete and not_applied mean what they say |
| `WriteOutcomes.AgainCounted` | src/services/filesystem-write-audit.ts:80-92 | the owner's pid begins afresh only by restarts and failed calls of that pid |
| `WriteOutcomes.OnceInOneLife` | src/services/filesystem-write-audit.ts:67-183 | while the owner's pid does not begin afresh there is one write at most, of the content first intended, and one receipt, and not_applied means nothing was written |
| `WriteOutcomes.WritesReachBound` | src/services/filesystem-write-audit.ts:67-163 | for every n there is a run in which the pid begins afresh n times and the target is written n + 1 times |
| `WriteOutcomes.NeverRedone` | src/services/filesystem-write-audit.ts:67-146 | once the intent's owner is gone nobody writes the target until something is started under its pid |
| `WriteOutcomes.NeverWrittenAgain` | src/services/filesystem-write-audit.ts:93-121 | once the journal has left prepared and its owner is not about to write, nobody ever writes again, whatever pids come back |
| `WriteOutcomes.RedoneIffPrepared` | src/services/filesystem-write-audit.ts:95-163 | when the owner is gone the write can still be made again if and only if the journal says prepared |
| `WriteOutcomes.RetryWrites` | src/services/filesystem-write-audit.ts:80-163 | a retry under the pid of an interrupted intent, with the target as it was before, takes the intent over and writes |
| `WriteOutcomes.WriteCanBeLost` | src/services/filesystem-write-audit.ts:123-163 | from every fresh machine a crash between link and write leaves a prepared intent, and the write is not made until something is started under that pid |
| `WriteOutcomes.ReclaimsIffPrepared` | src/services/filesystem-write-audit.ts:132-143 | a process between calls, or one yet to be started, can come to take an intent over if and only if the journal is prepared and carries its pid |
| `WriteOutcomes.NeverReclaims` | src/services/filesystem-write-audit.ts:132-143 | while a pid does not begin afresh no process of that pid takes an intent over |
| `WriteAudit.MovesAreARun` | src/services/filesystem-write-audit.ts:11-22 | the moves of one uninterrupted call are a run of the machine |
| `WriteAudit.FilesystemJournal.FilesystemReplay` | src/services/filesystem-write-audit.ts:67-122 | a write that took effect and that nobody else is at work on is completed, receipt and record; the write is still to be made exactly without a record or with a prepared one whose target is as before; otherwise nothing changes |
| `WriteAudit.FilesystemJournal.CreateIntent` | src/services/filesystem-write-audit.ts:123-153 | the exclusive link, or taking over a prepared intent of the same request and pid, exactly when there is no other intent |
| `WriteAudit.FilesystemJournal.WriteTarget` | src/services/filesystem-write-audit.ts:154-163 | the compare-and-swap on the target and the record of its outcome |
| `WriteAudit.FilesystemJournal.ApplyFilesystemChange` | src/services/filesystem-write-audit.ts:123-183 | an undisturbed change that may intend writes target, receipt unless it is there, and a complete record, or records that it was not applied; any other changes nothing |
| `OAuthState.FileStateProvider.Load` | src/oauth/state.ts:29-37 | the sweeping loop drops exactly what expired before this second |
| `OAuthState.SweptMeans` | src/oauth/state.ts:29-37 | an entry lives through the very second it expires in |
| `OAuthState.FileStateProvider.Get` | src/oauth/state.ts:103-106 | an unexpired value, or nothing |
| `OAuthState.FileStateProvider.CleanupExpired` | src/oauth/state.ts:97-102 | the file is replaced by its unexpired entries |
| `OAuthState.FileStateProvider.Put` | src/oauth/state.ts:108-115 | sweeps and stores |
| `OAuthState.FileStateProvider.ConsumeOnce` | src/oauth/state.ts:127-137 | an unexpired value is answered and gone, an expired one is not answered |
| `OAuthState.FileStateProvider.Del` | src/oauth/state.ts:117-125 | whether there was an unexpired entry, which is then gone |
| `RefreshRotation.InvKept` | src/oauth/token.ts:179-256 | a token's record is in the store or with one grant, and never reaches past its window |
| `RefreshRotation.RotationWindow` | src/oauth/token.ts:189-244 | all uses of a refresh token fall within its original expiry and its first grant plus grace, and no grace means one use |
| `RefreshRotation.WindowFromFirstUse` | src/oauth/token.ts:189-244 | counted from the first use, uses exceed the grace by no more than the delay between consuming the token and reading the clock |
| `RefreshRotation.DelayExtendsWindow` | src/oauth/token.ts:189-244 | and by any such delay that the token's own expiry leaves room for |
| `RefreshRotation.GrantIsARun` | src/oauth/token.ts:189-244 | a refresh that nothing interrupts leaves the new token for its whole life, and the old one exactly while it has grace left |
| `RefreshRotation.CodesOnce` | src/oauth/token.ts:106-107 | an authorization code is redeemed at most once |
| `TokenGrants.TokenEndpoint.AuthorizationCodeGrant` | src/oauth/token.ts:90-177 | granted exactly when code, client, proof, resource and access agree; the code survives exactly a request that lacks code, redirect or verifier |
| `TokenGrants.TokenEndpoint.RefreshTokenGrant` | src/oauth/token.ts:179-256 | granted exactly when token, client, resource and access agree; the old token lives on only within its grace |
| `LintLines.EraseStamp` | src/services/lint-fix.ts:145-172 | stamping changes a line by the one stamp alone |
| `LintLines.StampDated` | src/services/lint-fix.ts:77-81 | a stamped line carries a date that is recognised |
| `LintFix.FlattenBlocks` | src/services/lint-fix.ts:115-138 | the blocks of a text are all of its lines in order |
| `LintFix.RelocateConserves` | src/services/lint-fix.ts:180-221 | relocation keeps every line with its multiplicity, stamps some, and adds at most one Done heading |
| `LintFix.StampingConserves` | src/services/lint-fix.ts:145-172 | stamping keeps every line |
| `LintFix.ArchiveCounts` | src/services/lint-fix.ts:224-266 | archiving splits the lines in two and loses none |
| `LintFix.KeptBlocks` | src/services/lint-fix.ts:115-203 | on text without fences, what stays behind falls into the very blocks that stayed: taking one out joins no other two |
| `LintFix.RelocationSettles` | src/services/lint-fix.ts:180-221 | on text without fences, relocating again changes nothing, whatever is approved each time, so long as the second time approves nothing the first had not |
| `LintCases.NotedStands` | src/services/lint-fix.ts:94-112 | a line is noted as fenced exactly on or after an odd number of fences, and as done exactly under a last unfenced heading Done |
| `LintCases.TailMeans` | src/services/lint-fix.ts:115-138 | a tail runs up to the last indented line before the first flush one |
| `LintCases.BlocksExactly` | src/services/lint-fix.ts:115-138 | each block starts where the ones before end, is noted as its line stands, and takes along its tail exactly if it is an item outside a fence |
| `LintCases.RelocatesExactly` | src/services/lint-fix.ts:180-206 | what moves is exactly the ticked tasks outside fences and Done that were chosen, each dated, in order |
| `LintCases.PlansRelocation` | src/services/lint-fix.ts:180-206 | the plan lists exactly these tasks, chosen or not, with their ids |
| `LintCases.InsertsExactly` | src/services/lint-fix.ts:208-218 | the moved lines go right under the first Done heading, or under one made at the end |
| `LintCases.StampsExactly` | src/services/lint-fix.ts:145-172 | a line gets the date exactly when it is a chosen dateless item under Done outside a fence |
| `LintCases.PlansStamping` | src/services/lint-fix.ts:145-172 | the plan lists exactly these items, chosen or not |
| `LintCases.ArchivesExactly` | src/services/lint-fix.ts:224-266 | what is archived is exactly the chosen items under Done outside fences whose date is further back than the threshold, in order, and the rest stays |
| `LintCases.PlansArchiving` | src/services/lint-fix.ts:224-266 | the plan lists exactly these items, chosen or not, with their ids |
| `LintCases.CompletedMeans` | src/services/lint-fix.ts:37-37 | a ticked task is a bullet, white space, a ticked box and white space |
| `LintCases.FenceMeans` | src/services/lint-fix.ts:38-38 | a fence is three back-ticks or tildes after nothing but white space |
| `LintCases.DoneDateMeans` | src/services/lint-fix.ts:35-35 | the date of a line is that behind its first dated "(done" |
| `LintApply.PipelineConserves` | src/services/lint-apply.ts:78-112 | every line of tasks and archive is there as often as before, only ever gaining its stamp, and the archive's text is kept as a prefix |
| `LintApply.EmptyApprovalChangesNothing` | src/services/lint-apply.ts:78-112 | an empty approval set changes not one character |
| `LintApply.RelocationIsIdempotent` | src/services/lint-fix.ts:180-221 | relocation of a fence-free text is idempotent under every approval set |
| `LintTransforms.AnnotateLines` | src/services/lint-fix.ts:94-112 | the loop notes fence and section of every line |
| `LintTransforms.AnnotateTaskBlocks` | src/services/lint-fix.ts:115-138 | the nested loops attach indented history to its item |
| `LintTransforms.RelocateCompletedTasks` | src/services/lint-fix.ts:180-221 | content, plan and applied ids; the plan does not depend on approvals |
| `LintTransforms.StampDoneItems` | src/services/lint-fix.ts:145-172 | content, plan and applied ids; the plan does not depend on approvals |
| `LintTransforms.ArchiveOldDoneItems` | src/services/lint-fix.ts:224-266 | both texts, plan and applied ids |
| `LintTransforms.ComputeFixes` | src/services/lint-apply.ts:78-112 | the three transforms in order, each on the output of the one before, and their three plans as the items |
| `LintTransforms.CollectWrites` | src/services/lint-apply.ts:114-136 | exactly the files whose text changed are written, and none for an empty approval set |
| `BrainGraph.ResolveRawEdge` | src/services/brain-graph.ts:255-327 | a link resolves exactly when it means one file, and then to that file |
| `BrainGraph.BuildAdjacency` | src/services/brain-graph.ts:350-376 | the lists hold exactly the resolved links of files that are not exempt |
| `BrainGraph.Search` | src/services/brain-graph.ts:377-387 | the search with duplicates in its queue ends and finds exactly the files on paths from present roots |
| `BrainGraph.AnalyzeBrainGraph` | src/services/brain-graph.ts:329-418 | reachable or exempt files and unreachable ones partition the files |
| `BrainGraph.FirstFile` | src/services/brain-graph.ts:281-291 | of the names a candidate stands for, the first that is a file |
| `UnionSpan.SortByStart` | src/services/operation-telemetry.ts:312-314 | a sorted permutation |
| `UnionSpan.UnionSpanMs` | src/services/operation-telemetry.ts:310-327 | the sweep computes the length covered by at least one span, at whatever break points it is measured |
| `UnionSpan.Gap` | src/services/operation-telemetry.ts:319-324 | a span that starts past the front adds its whole length |
| `UnionSpan.Overlap` | src/services/operation-telemetry.ts:325-325 | any other span adds only what reaches past the front |
| `UnionSpan.AtMostTheSum` | src/services/operation-telemetry.ts:305-327 | the union is at most the sum of the durations |
| `UnionSpan.AtMostTheExtent` | src/services/operation-telemetry.ts:305-327 | the union is at most last end minus first start |
| `UnionSpan.CutsExist` | src/services/operation-telemetry.ts:310-327 | there are break points to measure at for every list of spans |

## Left out

- `src/sync/recoverable-file.ts`, `src/sync/write-journal-context.ts` and `src/sync/postgres-revision-store.ts` are not
  part of this model: a local mutation is one atomic compare-and-swap, preserved recovery copies and sidecar
  contexts are absent, and a proposal inside an ingestion transaction behaves as in the in-memory store.
- The generated-LOG branch of a push, `unresolvedRecoveries`, `includeFiles`, the sync cursor, timings, heartbeats,
  progress callbacks and the command line.
- Reads that belong to one observation are one step: the head, local hash and revision a reconcile looks at, and the
  two local reads behind a policy hold in a pull. Looking and acting are separate steps.
- Sharing of head and revision objects inside one in-memory store; snapshots reload as separate copies, which is how
  the model keeps them.
- Timestamps of revisions, actor names and addresses, `tool_request_hash` on hosted revisions, policy digests, JSON,
  Zod parsing and the loss of the internal-write symbol on reload, which nothing stored depends on.
- `activeQueueBlocks`, `assertKnowledgeWrite` line rules and `assertReceipt`: parameters, for every value of which the
  results hold. Normalisation of `task_paths`.
- `RevisionTheorems.RetiredIntakeNeverGrows`: restores are proposals of its runs; one policy and one rule set hold
  throughout a run.
- `BrainStore.RevisionBrainStore.WriteFile`: the look-up of an earlier tool request and the read-back that follows a
  policy-admitted write.
- Rebuilding the sync state is one step: its scan, listing, local hashes and save are not interleaved with others.
- `IngestionCommit.ReachableCommits`: hosted callers bring no request hash of their own, as the tool adapter ensures.
- `SyncConverges.SyncConverges`: no write policy, one complete listing of files and heads, nobody else acting.
- Byte-size limits and manifest shapes of ingestion; original bytes are read outside the database and appear only as
  success or failure; the replaced write context on a companion revision; source and artifact tables are inputs.
- The LOG of the write journal is a list of entries, so that a summary occurs in it exactly when it is one of them;
  outside edits may remove or move the receipt but not forge another.
- Two live processes with one pid in the write journal, as in separate pid namespaces over one folder; a target or
  LOG.md that is there but cannot be read.
- Cryptography, PKCE and resource matching of the token grants: outcomes of checks. Each grant method reads one
  clock value; the machine lets every access read its own.
- Extraction of links from Markdown, globs, and diagnostics of the graph; `daysBetween` and the item hash of the lint
  fixes; rounding of the interval union.
- Search ranking, source manifests, HTTP, monitor pages, SQL text and wikilink rewriting.
