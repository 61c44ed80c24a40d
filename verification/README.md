# Verified model of the sync, calendar and voice cores

A Dafny 4.11 model of four parts of the assistant that change state over long runs,
and proofs of what those parts promise. `dafny verify dfyconfig.toml` checks all of it.

**Contacts** (`Contact*.dfy`). A provider's address book and the local one are kept in
step by comparing fingerprints with those of the last agreement. `ContactTables` has the
tables as maps and the effect of one record as a function, `ContactRuns` a state machine
in which any number of runs, people's edits, merges, failures, crashes and cursor expiries
interleave, and `ContactEngine` the engine as a class whose methods are proved to do what
those functions say. The theorems: a change at the provider arrives unless the contact was
edited, a pull never overwrites or deletes an edited contact, a deleted record never comes
back, interruptions do not change where a listing ends up, calls cut short get through a
listing, and cursors only move past pages that were applied.

**Cloud folders** (`RemoteNames`, `Sorting`, `Folder*.dfy`). A bounded worklist walk over a
remote tree, arriving in arbitrary pages, decides file by file against a running quota
and then removes what it did not see. The theorems: a complete walk has seen exactly the
tree, removal deletes nothing else, neither paging nor listing order changes any
decision, the bound on entries decides only whether a walk gets to its end, and a second
run over the same tree decides nothing anew unless the quota is short. File and folder
names are made safe, and paths split back into them.

**Civil time** (`Gregorian`, `Timestamps`, `CivilTime`). A zone is any function from
instants to offsets. The theorems: day shifting acts on dates as the integers do, printed
timestamps (RFC 3339, section 5.6) read back, sampling a zone finds every instant that
shows a civil minute if offsets last six hours, and a resolved range is the requested one.

**Voice** (`Host*.dfy`, `Gateway*.dfy`, `VoiceCapture.dfy`). The host helper that deploys a
container and may fail or die at any step; the gateway's bounded sessions over arbitrary
endpoint detection and transcription; the resampler in front of them. The theorems: what
the helper reports is what runs whichever releases its catalogs bring, failures and
rollbacks keep the record, operations succeed exactly if the steps they need do, sessions
stay within bounds and send well-formed events unless the speech model fails, and the
resampler never drifts.

## Where the code falls short of its documentation or intent

The model follows the code. Each case is a lemma with the exact condition.

- `mergeContacts` is documented as keeping every link, but a link that collides is dropped
  and leaves no tombstone, so the provider's next full listing creates the merged person
  again (`MergedRecordReturnsIff`). Merging a contact into itself deletes it; the HTTP route
  refuses that call (`MergeSurvivorIff`).
- A run cut short by its page bound is documented as not publishing success. It does when
  the bound falls on an expired cursor (`PublishesUnreadIff`).
- A stopped origin is put back in service by the last update of a run that was still going
  (`StoppedStaysIff`).
- Quota decisions are documented as independent of listing order. They are exactly if no
  two files, and no two folders, of a folder get one name (`VisitsOrderFreeIff`,
  `WalkOrderFreeIff`, `TreeOrderFreeIff`); `SharedPathDependsOnOrder` has what happens else.
- `effectiveName` can bring back `..`: "Notes." exported as text becomes "Notes..txt"
  (`EffectiveNameSafeIff`), which the index refuses, so the folder never completes a run
  (`TreePathsStorableIff`, `UnstorableNeverSyncs`).
- A scanner outage is documented as stopping, not as passing files over. A file the index
  already has with its present time is passed over by the next run, scanner or not (`OutageSticksIff`).
- Runs over the same folder are documented to decide alike. A file whose stored size is
  not the listed one, as for native exports, is charged again by every run although the
  index counts it already, so at the quota a second run turns it away
  (`SecondRunRepeatsIff`).
- A conflict that has resolved itself, both sides being alike again, keeps its flag, and
  the contact is no longer pushed (`AgreementKeepsFlag`, `FlagClearsIff`).
- A relative date that cannot be read is meant to be refused; after an earlier turn that
  turn's date is used instead (`UnreadDateGivesWay`).
- Shifting a date by no days changes it for the years 0 to 99 (`ShiftZeroIff`).
- A process that stops inside the three statements of a delete is not repaired by the next
  run, unlike one that stops inside an update (`StopInsideDeleteRepairedIff`).
- A request whose state cannot be saved, or whose thread cannot be started, gives the lock
  back but leaves the helper saying working, so that voice requests are refused until
  another operation (`StuckWorkingIff`, `StuckUntilNextOperation`).
- The gateway loses a `speech_start` when the model fails on the frame it belongs to; later
  events of the session then reach the client without one (`EventGrammarIff`).
- The resampler drifts at hardware rates below 16 kHz (`DriftsIff`).

## Model

| member | source | states |
|---|---|---|
| ContactRecords.FingerprintAgreement | packages/connectors/src/contactSync.ts:105-119 | two contacts have one fingerprint exactly when their normalised names are equal and every address of either has a counterpart in the other: order, repetition and case are no change, anything else is |
| ContactRecords.MatrixSafeIffBothAgreementsKnown | packages/connectors/src/contactSync.ts:154-204 | the decision matrix spares an edited contact for every incoming record if and only if the link remembers both fingerprints |
| ContactTables.ApplyKeepsSound | packages/connectors/src/contactSync.ts:466-565 | every record keeps foreign keys, ownership, one link per origin and contact, and two remembered fingerprints on every link |
| ContactTables.ApplyOutcome | packages/connectors/src/contactSync.ts:490-562 | after a create or update the contact holds the provider's values and both fingerprints agree on them; after a delete it is gone exactly when nothing else links it; otherwise no contact comes or goes |
| ContactTables.PullKeepsLocalEdit | packages/connectors/src/contactSync.ts:154-204 | one record of an origin neither deletes nor rewrites a contact edited since that origin's last agreement; at most its conflict flag is raised |
| ContactTables.PassKeepsLocalEdit | packages/connectors/src/contactSync.ts:367-370 | the same over a whole listing, for as long as the provider does not itself report the edited values |
| ContactTables.PullStaysWithOwner | packages/connectors/src/contactSync.ts:27-30 | a pull leaves other people's contacts as they are and creates contacts for the origin's owner only |
| ContactTables.PullKeepsOtherLinks | packages/connectors/src/contactSync.ts:466-565 | a record adds, removes or changes no link but its own |
| ContactReplay.SettledIffFixed | packages/connectors/src/contactSync.ts:466-565 | a condition on one record's own link, contact and tombstone that holds exactly when delivering the record again changes nothing at all |
| ContactReplay.ApplySettles | packages/connectors/src/contactSync.ts:466-565 | applying a record reaches that fixed point: applying it is idempotent |
| ContactReplay.ApplyInvisibleToOthers | packages/connectors/src/contactSync.ts:466-565 | a record changes nothing that another source id of the same origin can see |
| ContactReplay.PassSettles | packages/connectors/src/contactSync.ts:367-370 | after a listing with distinct source ids every record of it is settled |
| ContactReplay.StopInsideUpdateRepaired | packages/connectors/src/contactSync.ts:548-562 | stopping between the two statements of an update is repaired exactly by the next delivery |
| ContactReplay.StopInsideDeleteRepairedIff | packages/connectors/src/contactSync.ts:490-508 | stopping inside a delete is repaired if and only if another link keeps the contact and, before the tombstone, one was there already |
| ContactReplay.ApplyKeepsBuried | packages/connectors/src/contactSync.ts:167-174 | no record of any origin links a tombstoned, unlinked source id again; its own record changes nothing |
| ContactReplay.DeleteBuries | packages/connectors/src/contactSync.ts:490-508 | an applied delete leaves the source id tombstoned and unlinked |
| ContactReplay.TouchAgrees | packages/connectors/src/contactSync.ts:567-582 | touching a link is an agreement: the contact no longer counts as edited, the same record changes nothing from now on, and its deletion is applied unless the contact is the person's own |
| ContactReplay.TombstoneSpeaksForAccount | packages/connectors/src/contactSync.ts:584-597 | after a tombstone every origin of the account without a link skips the record, and a second tombstone changes nothing |
| ContactArrival.LinkedRecordArrives | packages/connectors/src/contactSync.ts:154-204 | a change made at the provider arrives: a linked record that differs from the contact and from the last agreement replaces the name, addresses and primary addresses of an unedited contact and clears its flag, and makes a conflict of an edited one; any other record leaves the contact row as it was, and every other row, link and tombstone stays |
| ContactArrival.NewRecordArrives | packages/connectors/src/contactSync.ts:490-546 | a record without a link is skipped exactly if the account has a tombstone for it, else it becomes one new contact of the owner with the provider's values, its origin and a link that agrees on them |
| ContactArrival.DeletionArrives | packages/connectors/src/contactSync.ts:490-508 | a deletion is a conflict exactly if the contact is the person's own, has notes or was edited; else the link goes for a tombstone, and the contact too unless another link keeps it |
| ContactMerge.MergeKeepsSound | packages/connectors/src/contactSync.ts:737-783 | merging keeps the table invariants, one link per origin and contact included |
| ContactMerge.MergeSurvivorIff | packages/connectors/src/contactSync.ts:750-767 | the survivor has exactly the addresses of both and keeps what it had; it survives if and only if it is not merged into itself |
| ContactMerge.MergeKeepsOrder | packages/connectors/src/contactSync.ts:750-758 | the survivor's addresses are its own and then the other's, each once, as first met; a primary address it lacked is the first of them |
| ContactMerge.MergeLeavesRest | packages/connectors/src/contactSync.ts:760-767 | of the links to the merged contact exactly those whose origin also links the survivor go, the rest point to it; no other link, contact or tombstone changes |
| ContactMerge.MergedRecordReturnsIff | packages/connectors/src/contactSync.ts:760-767 | a link of the merged contact follows it, or is lost and its record created anew by the next listing: the latter exactly when the survivor had a link to that origin |
| ContactMerge.MergeKeepsBuried | packages/connectors/src/contactSync.ts:760-767 | a merge links no tombstoned, unlinked source id |
| ContactMerge.PushKeepsSound | packages/connectors/src/contactSync.ts:625-660 | every outcome of pushing one link keeps the table invariants |
| ContactMerge.PushedEditIsAgreed | packages/connectors/src/contactSync.ts:642-645 | after a push the provider's report of what was written is pulled without touching the contact |
| ContactMerge.PushOneMore | packages/connectors/src/contactSync.ts:625-660 | pushing one more link after any set of others is pushing them all together: the order of the links does not matter |
| ContactMerge.PassLeavesNothing | packages/connectors/src/contactSync.ts:608-662 | after a whole push pass no unconflicted contact of the origin has an edit left to push, no name or address changed, and no other origin's link did |
| ContactMerge.PassOutcome | packages/connectors/src/contactSync.ts:608-662 | each link of the origin whose contact was edited and not in conflict agrees on what was written, or its contact is in conflict if the provider refused; every other link of the origin and its contact stay as they were |
| ContactMerge.NothingLeftToPush | packages/connectors/src/contactSync.ts:608-662 | after the pass every link of the origin whose contact is not in conflict remembers that contact's own fingerprint |
| ContactMerge.PassKeepsSound | packages/connectors/src/contactSync.ts:608-662 | a whole push pass keeps the table invariants, whatever the provider answers |
| ContactRuns.LinkOnlyFromItsOrigin | packages/connectors/src/contactSync.ts:527-546 | no event but a record of that origin and source id ever creates a link |
| ContactRuns.StepKeepsInv | packages/connectors/src/contactSync.ts:299-438 | every event of runs, people, crashes and the worker keeps the invariants of tables, origin rows and runs |
| ContactRuns.ExecKeepsInv | packages/connectors/src/contactSync.ts:299-438 | so does every interleaving of such events |
| ContactRuns.Reachable | packages/connectors/src/contactSync.ts:198 | in every state reachable from empty tables both fingerprints of every link are known, which the matrix relies on |
| ContactRuns.SyncKeepsLocalEdit | packages/connectors/src/contactSync.ts:19-22 | in every such state no event of any run, crash points included, changes or deletes a contact edited since that origin's last agreement |
| ContactRuns.NoResurrection | packages/connectors/src/contactSync.ts:167-174 | once tombstoned and unlinked, a source id stays so over every run of events, full resyncs and merges included |
| ContactRuns.ReconnectFindsBuried | packages/connectors/src/contactSync.ts:248-256 | a new origin for the same account starts with its tombstones in force, and nothing later links them |
| ContactRuns.DeltaAdvancesOnlyAfterLastPage | packages/connectors/src/contactSync.ts:355-403 | the stored delta cursor changes in three ways only: stopping the origin or an expiry in a run of it null it, and a finishing run of it sets what its last applied page carried, or else what it had loaded; bounded, failed and crashed runs keep it |
| ContactRuns.FailureRestartsListing | packages/connectors/src/contactSync.ts:422-438 | a failed origin keeps its delta cursor and starts the listing over when claimed again; a revoked one is not claimed |
| ContactRuns.StoppedStaysIff | packages/connectors/src/contactSync.ts:845-871 | a stopped origin stays stopped, until a mode is chosen for it again, exactly when no run of it is still going |
| ContactRuns.FlagClearsIff | packages/connectors/src/contactSync.ts:510-516 | a record clears the conflict flag of a contact exactly when it is applied as an update of that contact |
| ContactRuns.OnlyUpdatesClearFlag | packages/connectors/src/contactSync.ts:548-562 | while the contact is there nothing else clears the flag, short of an edit of that contact itself |
| ContactRuns.AgreementKeepsFlag | packages/connectors/src/contactSync.ts:519-525 | a flagged contact on which both sides agree again stays flagged, and the push pass does not ask for it |
| ContactConvergence.AppliedSettled | packages/connectors/src/contactSync.ts:466-565 | records already in are fixed points, also while the row of the next one is half written |
| ContactConvergence.AppliedNext | packages/connectors/src/contactSync.ts:548-562 | delivering the next record completes it, half written or not |
| ContactConvergence.StepProgress | packages/connectors/src/contactSync.ts:342-394 | every event that may interrupt a listing leaves the tables at a prefix of the uninterrupted pass and no cursor beyond it |
| ContactConvergence.Convergence | packages/connectors/src/contactSync.ts:342-403 | after any mix of bounded runs, failures, crashes and overlapping claims, a run past its last page has the contacts, links and tombstones of one uninterrupted pass and publishes that listing's cursor |
| ContactCoverage.StepCovers | packages/connectors/src/contactSync.ts:342-403 | every event, edits, merges, pushes, expiries, stops, other listings and finishing runs included, keeps this: a page cursor of the origin follows pages that were applied, and a delta cursor stands for a listing that was applied in full |
| ContactCoverage.StoredCursorSkipsNothing | packages/connectors/src/contactSync.ts:342-403 | in every history from empty tables, with full and incremental listings of any number, a stored delta cursor is what the last page of some listing carried, every record of which some run applied |
| ContactCoverage.AdvancedCursorSkipsNothing | packages/connectors/src/contactSync.ts:372-403 | whenever the stored delta cursor takes another value than null, a run of the origin has finished: it puts back what it had loaded or the end of a listing it read to the last page, and every record of a listing with that end was applied |
| ContactCoverage.CheckpointSkipsNothing | packages/connectors/src/contactSync.ts:372-390 | in every such history a page cursor, stored or carried by a run, follows pages all of which were applied |
| ContactDrive.DriveIsExec | packages/connectors/src/contactSync.ts:299-420 | one call of the engine is a path of the state machine |
| ContactDrive.CallIsDrive | packages/connectors/src/contactSync.ts:340-420 | the effect of a call, page by page and with one push pass, is the state machine run to the end of that call with the pushes in any order |
| ContactDrive.PushAllIsPass | packages/connectors/src/contactSync.ts:625-660 | pushing the links one by one, in every order that has each once, comes to the same tables as the pass |
| ContactDrive.DriveCompletes | packages/connectors/src/contactSync.ts:342-404 | a call served the rest of a listing within its bound brings in exactly the listing and publishes its cursor |
| ContactDrive.UninterruptedCall | packages/connectors/src/contactSync.ts:328-404 | the uninterrupted pass of the convergence theorem is itself what one call does |
| ContactDrive.PublishesUnreadIff | packages/connectors/src/contactSync.ts:385-404 | a call marks a success without having applied a last page exactly when its page bound falls on an expired cursor, or is zero without a checkpoint |
| ContactCheckpoint.BoundLeavesCheckpoint | packages/connectors/src/contactSync.ts:385-390 | a call whose page bound falls after a page with a successor leaves that successor's cursor in the row, goes idle and reports no success, for every sequence of pages and expiries before it |
| ContactCheckpoint.ClaimCarriesCheckpoint | packages/connectors/src/contactSync.ts:328-340 | an origin is claimed exactly if it is idle or failing, and the first request carries the stored page and delta cursors |
| ContactCheckpoint.CrashResumesAfterPage | packages/connectors/src/contactSync.ts:372-379 | a process that dies after a page resumes at that page's successor |
| ContactCheckpoint.StopForgets | packages/connectors/src/contactSync.ts:845-863 | stopping keeps contacts and links and forgets both cursors: after a mode is chosen again the next call lists everything |
| ContactCheckpoint.CallAdvances | packages/connectors/src/contactSync.ts:342-403 | a call that starts where some pages of a listing are in ends where a page bound more of them are in, its row at the cursor of the next, or with the listing read to its end, pushed if two-way, and published |
| ContactCheckpoint.BoundedCallsGetThrough | packages/connectors/src/contactSync.ts:342-403 | a listing of any length is read by exactly its number of pages over the page bound, rounded up, calls one after the other; the last publishes its delta cursor and no earlier one does |
| ContactCheckpoint.ModeDecidesPush | packages/connectors/src/contactSync.ts:392-403 | a call at the end of its listing publishes; a two-way one leaves nothing to push, an import-only one pushes nothing |
| ContactEngine.SyncEngine.ApplyRemote | packages/connectors/src/contactSync.ts:466-565 | one record changes the tables as the theorems' function says, and reports the contact left in place |
| ContactEngine.SyncEngine.MergeContacts | packages/connectors/src/contactSync.ts:737-783 | the tables become the specified merge, or stay as they were with the error reported |
| ContactEngine.SyncEngine.PushLocalChange | packages/connectors/src/contactSync.ts:625-660 | one link is pushed, skipped or flagged as specified |
| ContactEngine.SyncEngine.PushLocalChanges | packages/connectors/src/contactSync.ts:608-662 | the loop over every link the query returns, in whatever order, ends in the pass over all of them |
| ContactEngine.SyncEngine.ApplyPage | packages/connectors/src/contactSync.ts:367-370 | the records of a page in order |
| ContactEngine.SyncEngine.ReadPages | packages/connectors/src/contactSync.ts:342-383 | the page loop with its local cursors ends where the specified page loop ends, for every sequence of answers |
| ContactEngine.SyncEngine.SyncOrigin | packages/connectors/src/contactSync.ts:299-420 | what a call does in every case: unknown, paused, revoked, unscoped, already claimed, failed, bounded, finished |
| RemoteNames.OnePassIsEnough | packages/connectors/src/storageSync.ts:180 | the replacement loop ends: one pass leaves no two dots in a row |
| RemoteNames.SanitizeRemoteName | packages/connectors/src/storageSync.ts:178-182 | the loop computes the specified name, and terminates |
| RemoteNames.SanitizeSafeAndIdempotent | packages/connectors/src/storageSync.ts:172-182 | a sanitised name is not empty, has no slash, backslash, NUL or "..", and sanitising it again changes nothing |
| RemoteNames.SanitizeExactly | packages/connectors/src/storageSync.ts:178-182 | the sanitised name character by character: white space goes from both ends, slash, backslash and NUL become underscores, and so does every second dot of dots in a row; nothing else changes, and a name of which nothing is left is an underscore |
| RemoteNames.ExtensionOnce | packages/connectors/src/storageSync.ts:187-193 | a name that has the export extension, in letters of either case, is kept; any other gets it, so that it always ends in it |
| RemoteNames.EffectiveNameSafeIff | packages/connectors/src/storageSync.ts:187-193 | with an export extension the name stays safe exactly when the sanitised name does not end in a dot |
| RemoteNames.PathSplitsBack | packages/connectors/src/storageSync.ts:488-493 | a path splits on "/" back into the names of its folders and its file |
| RemoteNames.PathSafe | packages/connectors/src/storageSync.ts:488-493 | a path of safe names is relative and free of ".." |
| Sorting.SortSorts | packages/connectors/src/storageSync.ts:411-419 | sorting gives an ordered permutation |
| Sorting.LessIsBefore | packages/connectors/src/storageSync.ts:417-419 | the order sorted by is that of strings: a proper prefix comes first, else the lesser character at the first difference |
| Sorting.SortStable | packages/connectors/src/storageSync.ts:417-419 | items with one key keep their order |
| Sorting.SortDetermined | packages/connectors/src/storageSync.ts:411-419 | with one item for each key the sorted order depends on the set of items alone |
| Sorting.SortOrderIndependentIff | packages/connectors/src/storageSync.ts:411-419 | sorting forgets the listing order exactly when no two different items share a key |
| FolderWalk.Take | packages/connectors/src/storageSync.ts:476-497 | the pages of one folder never contribute more entries than the bound leaves |
| FolderWalk.OneFolderDescends | packages/connectors/src/storageSync.ts:459-524 | each pass spends entry room or shortens the work list, so the walk ends even on cyclic folder graphs |
| FolderWalk.WalkAccounted | packages/connectors/src/storageSync.ts:481-519 | every normal exit has seen = indexed + skipped + unchanged, and seen within the entry bound |
| FolderWalk.WalkWithinQuota | packages/storage/src/ingest.ts:87-100 | over a whole walk the usage charged never passes the quota, or is what it was before |
| FolderDecision.VisitOutcome | packages/storage/src/ingest.ts:78-111 | one file: left alone exactly if its indexed, skipped or blocked row has its known time and size; else skipped exactly if the gates or the room in files or bytes refuse it; else charged with one file and its listed size, with the row its scan and extraction give |
| FolderDecision.TakeIsPrefix | packages/connectors/src/storageSync.ts:476-497 | of a folder's listing exactly the beginning that fits the entry bound is taken, over all its pages, and it is complete exactly if that is all of it |
| FolderDecision.TakeFailsIff | packages/connectors/src/storageSync.ts:476-497 | taking a folder's listing fails exactly if one of its requests fails before the entry bound is passed |
| FolderDecision.FailedListingEndsWalk | packages/connectors/src/storageSync.ts:473-499 | such a failure ends the walk before any file of the folder is looked at: no row is written or removed |
| FolderBound.BoundOnlyCutsShort | packages/connectors/src/storageSync.ts:424-526 | the entry bound decides only whether a walk gets to its end: if it does with one bound, it does, with the same index, usage and counts, exactly with those not below the entries it lists |
| FolderBound.CutShortOnlyWhenFull | packages/connectors/src/storageSync.ts:481-498 | a walk is cut short only once it has listed as many entries as allowed, and a complete one leaves no folder waiting |
| FolderDecision.FilesInOrder | packages/connectors/src/storageSync.ts:499-500 | the files of a folder come in the order of their paths |
| FolderDecision.PassServesLeast | packages/connectors/src/storageSync.ts:459-519 | one pass serves a waiting folder with the least prefix: it sees that folder's files and no others, and all of them unless cut short or failed |
| FolderDecision.LastPlaceToFirstPath | packages/connectors/src/storageSync.ts:435-449 | of two new files with room for one, the one whose path comes first is charged and indexed and the other skipped, whichever was listed first |
| FolderDecision.WalkServesFirstPath | packages/connectors/src/storageSync.ts:421-527 | the same for a whole walk, for every paging and order of the listing |
| FolderTheorems.TakeComplete | packages/connectors/src/storageSync.ts:476-497 | a folder reported as complete was listed to its end, and nothing else was taken |
| FolderTheorems.WalkCovers | packages/connectors/src/storageSync.ts:459-526 | finished folders have their files seen and their subfolders finished or queued; nothing outside the grant is queued or seen |
| FolderTheorems.CompleteWalkSeesTheTree | packages/connectors/src/storageSync.ts:452-526 | a complete walk has seen exactly the file paths of the granted tree, any walk only such paths |
| FolderTheorems.RemovalIsSafe | packages/connectors/src/storageSync.ts:312-315 | after a complete run the index holds exactly the tree; after a truncated or failed one no row is gone |
| FolderTheorems.UnstorableNeverSyncs | packages/db/migrations/0007_documents.sql:205-206 | one new file at a path the index refuses keeps the folder from completing a run, and nothing is removed |
| FolderOrder.OrderIndependence | packages/connectors/src/storageSync.ts:435-524 | for every slicing and ordering of the folders within the grant, with names apart in each, an untruncated walk takes the same decisions and leaves the same usage, counts and index |
| FolderExact.VisitsOrderFreeIff | packages/connectors/src/storageSync.ts:435-449 | the files of a folder come to the same state in every order, under all rules, exactly when no two different ones are stored at one path |
| FolderExact.WalkOrderFreeIff | packages/connectors/src/storageSync.ts:435-526 | no walk over a folder without its subfolders depends on pages or order exactly when no two different files of it get one name |
| FolderExact.TreeOrderFreeIff | packages/connectors/src/storageSync.ts:435-526 | no walk over a folder and any trees below it with names apart depends on pages or order exactly when neither two different files nor two different folders of it get one name |
| FolderExact.NamesInUseByName | packages/connectors/src/storageSync.ts:187-193 | the naming in use meets the premise of the theorem before: a file's name depends on what it is called and exported as only |
| FolderOrder.SharedPathDependsOnOrder | packages/connectors/src/storageSync.ts:442-450 | how it shows otherwise: of two files at one path with room for one, the one listed first is charged and the one listed last is what the row describes |
| FolderQuiet.SecondRunIsQuiet | packages/connectors/src/storageSync.ts:504-516 | after a complete run over a tree whose files have times, distinct paths and definite endings, another run decides nothing, whatever quota, gates, scanner and bound have become: index and usage stay, every file counts as unchanged |
| FolderQuiet.OutageSticksIff | packages/storage/src/ingest.ts:104-111 | when a run ended for want of a scanner, the next run, with a scanner or without, passes that file over and leaves its row as skipped, exactly if the index had it with its present time; else the next run takes it in again |
| FolderQuiet.FailedWalkStopsAt | packages/connectors/src/storageSync.ts:500-519 | a failed walk whose listings do not fail ended at one file of the tree |
| FolderAgain.SecondRunRepeatsIff | packages/storage/src/ingest.ts:41-68 | after a complete run over files with times and paths of their own, another complete run takes in again what was stored at another size than listed, and repeats every decision exactly if the quota has room for all of that once more |
| FolderAgain.VisitsRepeatIff | packages/connectors/src/storageSync.ts:504-518 | the same for one sequence of files: the rows stay exactly if all that are taken in again fit |
| FolderAgain.ChargeLaw | packages/storage/src/ingest.ts:87-100 | what is charged and what the rows of the index count move apart, file by file, by exactly what the row counted for before, is charged, and counts for after |
| FolderAgain.WalkNeverUndercounts | packages/storage/src/ingest.ts:217-225 | over a whole walk the charged number of files is never less than what the index counts |
| FolderQuiet.WalkSettles | packages/connectors/src/storageSync.ts:504-518 | along such a walk every file seen is settled in the index |
| FolderSync.MappingSync.ListPage | packages/connectors/src/storageSync.ts:481-495 | one page up to the bound, as files and subfolders |
| FolderSync.MappingSync.ListFolder | packages/connectors/src/storageSync.ts:473-499 | one folder over all its pages is the batch the theorems are about |
| FolderSync.MappingSync.IngestFile | packages/connectors/src/storageSync.ts:532-646 | index row, usage and counts after one file, for every verdict of the gates and every ending |
| FolderSync.MappingSync.VisitFile | packages/connectors/src/storageSync.ts:500-519 | a file settled before and unchanged is only counted, any other ingested |
| FolderSync.MappingSync.VisitFiles | packages/connectors/src/storageSync.ts:499-519 | the files of a folder in path order |
| FolderSync.MappingSync.WalkFolder | packages/connectors/src/storageSync.ts:459-523 | one pass of the work list, least prefix first |
| FolderSync.MappingSync.WalkAndIngest | packages/connectors/src/storageSync.ts:421-527 | the loop ends where the specified walk ends, with the same index, usage, counts and seen paths |
| FolderSync.MappingSync.RemoveUnseen | packages/connectors/src/storageSync.ts:651-660 | exactly the rows at unseen paths go, and they are counted |
| FolderSync.MappingSync.SyncMapping | packages/connectors/src/storageSync.ts:307-315 | a run that is complete leaves exactly the mapped tree indexed, any other run removes no row |
| FolderSync.TreePathsStorableIff | packages/connectors/src/storageSync.ts:487-493 | every path of the tree splits back into its ancestors' names, and the index can store it (relative, no "..") exactly unless an export extension follows a trailing dot |
| Gregorian.DayFormulaCounts | packages/agent/src/timeContext.ts:44 | the closed day count of years is the sum of their lengths by the leap year rule of RFC 3339, appendix C |
| Gregorian.MonthStarts | packages/agent/src/timeContext.ts:44 | the calendar: on which day of a common and of a leap year each month starts |
| Gregorian.DayNumberFormula | packages/agent/src/timeContext.ts:44 | day numbers count from January 1, 1970, by ordinary arithmetic on year, month start and day |
| Gregorian.DayNumberOfDate | packages/agent/src/timeContext.ts:44-45 | every day number is that of a valid date |
| Gregorian.DateOfDayNumber | packages/agent/src/timeContext.ts:44-45 | the date of a valid date's day number is that date |
| Gregorian.NextDayCounts | packages/agent/src/timeContext.ts:44-45 | the calendar's next day is valid and its day number one more |
| Gregorian.ShiftMoves | packages/agent/src/timeContext.ts:42-46 | the day number moves by exactly the shift, to a valid date |
| Gregorian.ShiftZeroIff | packages/agent/src/timeContext.ts:43-44 | shifting by nothing is the identity exactly outside the years 0 to 99 |
| Gregorian.ShiftComposes | packages/agent/src/timeContext.ts:42-46 | shifting by a and then by b is shifting by a + b |
| Gregorian.ShiftOne | packages/agent/src/timeContext.ts:42-46 | shifting by one is the next calendar day, shifting back undoes it |
| Timestamps.TextShift | packages/agent/src/timeContext.ts:42-46 | on ten-character texts the function is the shift of dates, printed |
| Timestamps.DateReadsBack | packages/agent/src/timeContext.ts:43-45 | a printed date reads back |
| Timestamps.OffsetReadsBack | packages/agent/src/calendarTimeIntent.ts:100-104 | a printed offset under a day reads back, sign included |
| Timestamps.StampReadsBack | packages/agent/src/calendarTimeIntent.ts:125-132 | a printed timestamp reads back as the instant it was printed for |
| Timestamps.StampLayout | packages/agent/src/calendarTimeIntent.ts:100-104 | a printed timestamp is YYYY-MM-DDTHH:MM:00 and a signed HH:MM, each number in decimal at its place |
| Timestamps.CivilTextInjective | packages/agent/src/calendarTimeIntent.ts:120 | comparing civil texts is comparing civil minutes |
| CivilTime.ResolveCivilMinute | packages/agent/src/calendarTimeIntent.ts:107-126 | the sampling loop computes the specified answer for every zone |
| CivilTime.InstantIsSampled | packages/agent/src/calendarTimeIntent.ts:112-120 | where offsets last six hours, every instant showing the minute is among the candidates |
| CivilTime.ResolveRightIff | packages/agent/src/calendarTimeIntent.ts:117-125 | for every zone whatsoever the answer is right exactly when sampling missed no instant, or found two anyway |
| CivilTime.ResolveByCandidates | packages/agent/src/calendarTimeIntent.ts:112-125 | for every zone: nonexistent, ambiguous or resolved by whether none, several or one of the offsets met in six-hour steps over two days either way makes the clock show the minute |
| CivilTime.ResolveExact | packages/agent/src/calendarTimeIntent.ts:106-126 | where offsets are at most a day and last six hours: nonexistent, ambiguous or resolved exactly as zero, several or one instant show the minute, with the offset in force there |
| CivilTime.ShorterRegimeMissed | packages/agent/src/calendarTimeIntent.ts:112-115 | a zone with a regime one minute shorter for which the answer is wrong |
| CivilTime.AnswersAreRight | packages/agent/src/calendarTimeIntent.ts:192-213 | on steady zones: a range exactly when each requested minute is shown once and the end is 1 to 1440 minutes later, nonexistent or ambiguous exactly when the first offending minute is shown never or repeatedly |
| CivilTime.FieldByField | packages/agent/src/calendarTimeIntent.ts:175-191 | time, day, date and duration are each the one this text states, else the earlier turn's, whatever the other three are; a range ends at a stated end time; no time from either is refused, and no duration and no end is incomplete, and nothing else is |
| CivilTime.KnownIsAnswered | packages/agent/src/calendarTimeIntent.ts:175-213 | with date, time and duration or end each known from either turn, on steady zones: a range, a gap or a fold by how often the minutes of those fields are shown |
| CivilTime.ResolvedRangesAreRight | packages/agent/src/calendarTimeIntent.ts:175-213 | a resolved range starts at an instant showing the requested minute, the only one on a steady zone, ends 1 to 1440 minutes later as the intent says, and carries the offsets in force |
| CivilTime.ResolvedTextsReadBack | packages/agent/src/calendarTimeIntent.ts:192-213 | the two printed texts read back to instants that far apart, the first showing the requested minute |
| CivilTime.TwoTurnsAreOne | packages/agent/src/calendarTimeIntent.ts:168-191 | an incomplete request completed later by a duration is answered as if the duration had been given at first, also on a later day |
| CivilTime.TextWins | packages/agent/src/calendarTimeIntent.ts:175-181 | a day, time and duration read off the text are never overridden by an earlier turn, and the range is on the stated day at the stated time |
| CivilTime.UnreadDateGivesWay | packages/agent/src/calendarTimeIntent.ts:167-178 | a relative date that is mentioned but cannot be read is refused exactly without an earlier turn; else the earlier turn's date is used and the mention has no say |
| HostOperations.Activate | services/voice-box/host_helper.py:145-155 | activation changes two files and the container only, the container only into one running the given image and settings; when it succeeds, that runs |
| HostOperations.SelectedIsLast | services/voice-box/host_helper.py:78-82 | an image is selected exactly when the catalog has one for the device, and it is the last of those |
| HostOperations.SaveReloads | services/voice-box/host_helper.py:28-36 | a helper starts from exactly what the last save that landed wrote, an operation in progress as failed; a save that raises leaves what was there |
| HostOperations.FailureKeepsRecord | services/voice-box/host_helper.py:213-224 | an operation that raises leaves version, settings, verdict and previous version; ready is reported exactly when what ran before runs again |
| HostOperations.SuccessRunsTarget | services/voice-box/host_helper.py:190-212 | a successful operation runs the image and settings that kind of request calls for and remembers what it replaced; an uninstall leaves no container and no version |
| HostOperations.DeathKeepsFile | services/voice-box/host_helper.py:187-229 | dying anywhere leaves the state file as it was, or as the finished operation has it |
| HostOperations.PerformReleasesOnce | services/voice-box/host_helper.py:225-229 | the lock is released exactly once on every path that does not die |
| HostSteps.RequestAcceptedIff | services/voice-box/host_helper.py:157-185 | a request is accepted exactly if it is well-formed, nothing holds the lock, its operation may be asked for in this state with this catalog, and the save and the thread work; memory and file then say working |
| HostSteps.WaitSucceedsIff | services/voice-box/host_helper.py:151-155 | the wait succeeds exactly if one of ninety probes is healthy and all before it were only unhealthy |
| HostSteps.ActivateSucceedsIff | services/voice-box/host_helper.py:145-155 | an activation succeeds exactly if both files are written, the image is pulled where a pull is asked for and the image is not local, the container starts and is healthy in time |
| HostSteps.ActivateStops | services/voice-box/host_helper.py:145-155 | what is left where it stops: a failed pull has changed the two files and not the container |
| HostSteps.OperationSucceedsIff | services/voice-box/host_helper.py:187-212 | an operation succeeds exactly if each step it needs works: checks for an install, a pull to install, update or change the image, the activation; an uninstall needs its container to go |
| HostSteps.NothingToDo | services/voice-box/host_helper.py:192-205 | with nothing to bring about, or checks that fail, an operation does not succeed and has touched nothing |
| HostSteps.RecoverySucceedsIff | services/voice-box/host_helper.py:213-222 | what ran before is brought back exactly if its files are written and its container starts and is healthy: no pull; without one what was started is taken down |
| HostSteps.EndIsSaved | services/voice-box/host_helper.py:223-229 | the end of an operation is on file exactly as in memory if the save works, and the lock is free even if it does not |
| HostRuns.StepKeepsInv | services/voice-box/host_helper.py:157-229 | every request, operation, death and restart, with any catalog, keeps the invariants of state, files, container and lock |
| HostRuns.ExecKeepsInv | services/voice-box/host_helper.py:157-229 | so does every run |
| HostRuns.StateAgreesWithDeployment | services/voice-box/host_helper.py:187-229 | over every run, with another catalog at every start, what the helper reports as ready, and what the next helper would load, is verified and is exactly what the container and the settings file have; absent means no container; a GPU container runs an image some loaded catalog approved for it |
| HostRuns.ApprovedWasListed | services/voice-box/host_helper.py:50-55 | an image counts as approved only if a catalog loaded at some start listed it |
| HostRuns.LockIsBalanced | services/voice-box/host_helper.py:164-185 | one operation at a time, the lock given back once for each; a request during one is refused and changes nothing; an idle helper accepts exactly the requests allowed in its state |
| HostRuns.StuckWorkingIff | services/voice-box/host_helper.py:180-185 | an idle helper is left saying working, with no operation, exactly when an allowed request fails to save the state or to start its thread |
| HostRuns.StuckUntilNextOperation | services/voice-box/host_helper.py:180-185 | it says so until the process ends or a later request gets its thread |
| HostRuns.DeathRollsBack | services/voice-box/host_helper.py:61-66 | a helper that died within an operation restarts, with whatever catalog, with the record from before it, as failed, unless the last save had landed |
| HostRuns.RollbackSwaps | services/voice-box/host_helper.py:202-212 | a rollback exchanges the version in force and the previous one |
| HostRuns.TwoRollbacksRestore | services/voice-box/host_helper.py:202-212 | in every reachable state, two rollbacks that report no error bring back the state's versions and the container, also when the helper was restarted with other catalogs in between |
| HostRuns.RollbackUndoes | services/voice-box/host_helper.py:202-212 | a rollback after an update or new settings that went well brings back the version, settings and container from before, also after restarts with other catalogs |
| HostRuns.NewReleaseAndBack | services/voice-box/host_helper.py:202-212 | a helper restarted with a catalog of new releases moves to the last one for its device by an update, and back to its old image, listed or not, by a rollback |
| HostRuns.OneGoodOperationRecovers | services/voice-box/host_helper.py:66 | from every idle reachable state, also one stuck at working, one restart, or install from the catalog at hand, without a mishap leads to ready |
| HostManager.Manager.constructor | services/voice-box/host_helper.py:56-66 | a new manager loads the file, an interrupted operation as failed |
| HostManager.Manager.AwaitHealth | services/voice-box/host_helper.py:151-155 | at most ninety probes, ended by the first healthy or broken one |
| HostManager.Manager.ActivateImage | services/voice-box/host_helper.py:145-155 | the steps of an activation, each of which may fail or be the last |
| HostManager.Manager.BeginOperation | services/voice-box/host_helper.py:157-185 | the checks in order, the lock and the saved state in each case |
| HostManager.Manager.TryOperation | services/voice-box/host_helper.py:189-212 | the body of the operation, up to its failure |
| HostManager.Manager.RecoverOld | services/voice-box/host_helper.py:215-222 | what ran before is activated again, or the leftovers are taken down, in every case |
| HostManager.Manager.PerformOperation | services/voice-box/host_helper.py:187-229 | the operation, its recovery, the save and the release, in every case |
| Gateway.Last | services/voice-box/gateway.py:108 | the most recent samples, no more than asked for |
| Gateway.SampleBytes | services/voice-box/gateway.py:105 | sample i is its low byte plus 256 times its high byte, less 65536 exactly if the top bit is set |
| Gateway.SamplesOfPcm | services/voice-box/gateway.py:105 | what a client encodes as signed 16-bit little-endian is what is heard, for all samples |
| Gateway.Engine.HearSpeech | services/voice-box/gateway.py:112-122 | session and events after speech was heard, also when the model fails |
| Gateway.Engine.HearFrame | services/voice-box/gateway.py:106-127 | a frame is kept and counted whatever the models do; session and events in each case |
| Gateway.Engine.HandleRequest | services/voice-box/gateway.py:75-129 | every request and refusal over the sessions not expired; a request that finds the lock taken changes nothing |
| GatewayRuns.IdleIffUtterances | services/voice-box/gateway.py:113-119 | the mode followed event by event accepts exactly the sequences of (start partial* final) |
| GatewayRuns.ProperIffNotWrong | services/voice-box/gateway.py:113-119 | and exactly their beginnings |
| GatewayRuns.SessionBounds | services/voice-box/gateway.py:106-127 | partial <= audio <= fifteen seconds; the audio is the most recent part of what was accepted; the sequence number counts accepted frames |
| GatewayRuns.PartialsAreBounded | services/voice-box/gateway.py:117-126 | partial hypotheses times RATE are at most the samples accepted plus RATE for every frame without speech |
| GatewayRuns.EndpointIff | services/voice-box/gateway.py:112-122 | while the models work: a final exactly when the buffer is full or the silence long enough, a partial exactly when a second is uncovered, a start exactly when nobody was speaking; the buffer is never left full |
| GatewayRuns.FrameOutcome | services/voice-box/gateway.py:106-127 | one frame in numbers: session and events after a failed detector, silence and speech, with fifteen seconds kept, one second of pre-roll, and a transcript at the end or when a second is uncovered |
| GatewayRuns.FinalsAreBounded | services/voice-box/gateway.py:116-122 | with a detector that stays within the audio, each final uses up at least the configured silence |
| GatewayRuns.EventGrammarIff | services/voice-box/gateway.py:111-127 | what a client was sent is a beginning of (start partial* final)* exactly when the speech model, once it failed on a frame that began an utterance, gave no later answer |
| GatewayRuns.EventGrammar | services/voice-box/gateway.py:111-127 | if no model fails it always is, and an utterance is open exactly while the session says speaking |
| GatewayRuns.FinalWithoutStart | services/voice-box/gateway.py:113-119 | two frames after which a client has a final and no start |
| GatewayRuns.ServeChanges | services/voice-box/gateway.py:79-127 | a request opens a session, plays it one frame, or leaves it alone |
| GatewayRuns.ReplyIff | services/voice-box/gateway.py:79-104 | which requests are opened, closed and played and which refused with 404, 409, 400 or 429, each exactly when |
| GatewayRuns.ServeKeepsIff | services/voice-box/gateway.py:79-94 | a session is there afterwards exactly when it was opened, or was heard of within a minute and not closed |
| GatewayRuns.ReplaysAreRefused | services/voice-box/gateway.py:79-106 | an accepted frame sent again is refused with 409; a refusal only drops expired sessions |
| GatewayRuns.ExecKeepsInv | services/voice-box/gateway.py:78-127 | over every run each session is what its accepted frames make it |
| GatewayRuns.EngineBounds | services/voice-box/gateway.py:78-127 | over every run at most four sessions, each with the bounds, the inference bound and the event grammar above |
| VoiceCapture.Capture.constructor | apps/web/public/voice-capture.js:4-11 | starts empty |
| VoiceCapture.Capture.Emit | apps/web/public/voice-capture.js:21-28 | a level goes into the frame; a full frame is posted and replaced |
| VoiceCapture.Capture.Take | apps/web/public/voice-capture.js:16-29 | one sample advances the accumulators and the output as specified |
| VoiceCapture.Capture.Process | apps/web/public/voice-capture.js:12-32 | posted frames plus the partial frame are the outputs for everything heard, in any chunks |
| VoiceCapture.StaysOnTime | apps/web/public/voice-capture.js:18-20 | 16000 times the inputs is the rate times the outputs plus the phase, which stays below the rate |
| VoiceCapture.WindowSizes | apps/web/public/voice-capture.js:18-20 | windows hold the rate's samples per output, rounded down or up |
| VoiceCapture.NeverDrifts | apps/web/public/voice-capture.js:12-31 | outputs are exactly the elapsed time at 16 kHz rounded down, each the level of the mean of its own one of consecutive windows; the accumulators hold the rest |
| VoiceCapture.DriftsIff | apps/web/public/voice-capture.js:18-20 | the phase stays below the rate for all inputs exactly at 16 kHz or more |
| VoiceCapture.OutputWithinWindow | apps/web/public/voice-capture.js:21 | an output lies within 16 bits, between the levels of the least and greatest input of its window |
| VoiceCapture.OutputIsNearestMean | apps/web/public/voice-capture.js:21 | each output is the nearest level to 32767 times the plain mean of its window, halves up, full scale beyond 1 |
| VoiceCapture.BoundaryIsTime | apps/web/public/voice-capture.js:18-20 | a window ends with the first input not before its time at 16 kHz |

## Left out

- Contacts: HTTP, SQL text, tokens, capability tables, retry timing, counts, events and timestamps; the provider's answers, the outcome of a capability check and the outcome of a write are inputs.
- Contacts: the hash is taken to be injective, and name, email and phone folding are arbitrary functions.
- Contacts: the reads and writes of one record are one step, with a stop inside an update or a delete treated separately; two runs do not interleave within one record.
- Contacts: loading an origin's cursors and claiming it are one step.
- Contacts: push errors other than a precondition failure are a failed run; duplicate suggestions, pacing and listing of origins only read or stamp.
- ContactCoverage.AdvancedCursorSkipsNothing: the provider is consistent, in that a page cursor is answered with the page after it in every listing that has it; and applied means applied at least once since the tables were empty.
- Contacts: deleting a connection, and with it its origin and links.
- ContactConvergence.Convergence: the provider answers each page cursor with the same page throughout, no cursor expires and nobody edits in between; expiry and edits are covered by the other theorems.
- Folders: network, tokens, scanner, parsers and extraction are an arbitrary verdict for each file; which skip reason is recorded is not modelled.
- Folders: connection, capability and pause checks before the walk, failure categories, scheduling.
- FolderExact.TreeOrderFreeIff: a file's name depends on what it is called and exported as only, as it does in use, and the folder does not list itself as a subfolder.
- FolderQuiet.SecondRunIsQuiet: files stored at another size than listed are the subject of SecondRunRepeatsIff; files without a modification time, which are taken in again by every run, are in neither.
- Sorting.LessIsBefore: strings are sequences of Unicode characters; the original compares UTF-16 code units, which differs only where characters beyond the basic plane meet those from U+E000 on.
- RemoteNames.EffectiveNameSafeIff: lower-casing is that of ASCII letters, and extensions are without dots, as in the export table.
- Civil time: reading day offsets, times and durations out of text; the zone database, which is any function here; locales and message texts.
- Civil time: offsets with seconds, which the original's own parser does not read, and a zone without an offset.
- CivilTime.ResolvedRangesAreRight: dates within the years 1000 to 9998, and existing intents as this function hands them on, not arbitrary objects.
- Gregorian.ShiftComposes: the years must not fall into 0 to 99 on the way, where the original maps them to 1900 and later.
- Civil time: validation of absolute ranges, which is a pattern and a comparison.
- Host: HTTP, tokens, ownership and modes of files, the texts of errors, memory and disk probes beyond their verdict; an operation between two of its steps is seen by others only as working.
- Host: a catalog with an entry that names no immutable image, which keeps the helper from starting.
- Host: a container that stops by itself, and hosts changed by hand.
- Gateway: whether a failed model is answered with 400 or 503, which depends on the kind of its exception; the frame is kept either way.
- Gateway: speech output, warm-up, authorisation and HTTP framing; sample scaling to floating point; a session key is any string, also one in use.
- VoiceCapture.NeverDrifts: samples are exact real numbers, so rounding of the running sum is not modelled.
