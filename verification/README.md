# Verification of the Vast Hub, backup, storage and policy code

This project models the stateful parts of the Vast repository in Dafny and proves what they
promise. `dafny verify dfyconfig.toml` checks all of it. Every lemma turns automatic induction
off, so each proof is the one that is written.

**The Extensions Hub release pipeline** (`semver.dfy`, `hub_*.dfy`). Three tables and an object
store, changed by requests that run as separate steps: one read, one object-store operation or one
batch. Steps of different requests interleave freely and a request keeps the snapshot it read and
the time it took before its batch.
Every batch is modelled statement by statement, with the schema's unique keys and CHECK lists;
`Tables` executes the same statements in place. The
state invariant is kept by every event, and the run theorems follow from it. A second invariant
follows the files of every upload to the package the public gets. `HubOutcomes` says of every batch
when it goes through and which rows it leaves, `HubPipeline` that an undisturbed upload is published
when it may be, and `HubEndings` what the other ends of a request leave. Three assumptions:
a batch commits and reports its changes or fails as a whole; the unique keys of the schema hold;
no review outlives its sixty-minute lease. `HubLease` and `HubLateDelete` show that the last one is
needed, and `HubBeyondLease` what holds without it.

**The backup archive codec** (`words.dfy`, `letters.dfy`, `crc.dfy`, `zip_*.dfy`, `archive_paths.dfy`,
`extraction*.dfy`,
`backup_round_trip.dfy`). The table-driven CRC-32, the two-pass ZIP writer, the limited reader, and the
extraction as a sequence of file operations each of which may fail. Compression, UTF-8 and SHA-256
are function values; the round trip assumes only that decompression undoes compression. Words are
their thirty-two bits, bytes are numbers below 256. The layout of the records and the reader of one
record are passed as function values to the loops, as the general lemmas are stated for any of them;
`WriteZip` and `ZipIsPlaced` name the one layout that is used. `ZipAccepts` and `ExtractionAccepts` say
exactly which buffers and which archives are accepted, in terms of their bytes and of the manifest.

**The profile storage engine** (`storage_*.dfy`). The file, the cache, the last text written and the
main process's download list, every queued task as one step on them, and loads as separate moments:
the test of the cache, the read of the file, and the installation of what was read, with anything in
between. A serialized text stands
for its data, since serializing is injective. The normaliser enters as a function that keeps the
import state and cleans the downloads on their own, which `EnvIsLawful` shows of the real one.
`ProfileStore` holds the same state in fields, keeps it coherent, and is proved equal to the steps.
`StorageOutcomes` says of each task when it succeeds, how it fails and what it leaves, with the
lists described by what a filter keeps (`selections.dfy`).

**Queued execution** (`task_queue.dfy`, `atomic_file.dfy`). The promise chain of the queue and the
per-path chains of atomic writes as transition systems over all arrival orders and failures.

**The profile normaliser** (`profile_*.dfy`). The bounded lists, the references between records, the
split view, the migrations of tabs, snapshots and workspaces with their size as JSON text, the
settings sanitizer, and their composition to the migration of a whole profile, which is the
normaliser of the engine (`ProfileEngine`). What is kept of each list and of each setting is said
record by record and leaf by leaf (`ProfileKept`, `ProfileLeaves`).

**The static policy walker** (`ast_*.dfy`). The recursive visitor over any tree, as a fold over
the nodes it reaches, and each prohibited form in terms of the tree's fields (`AstReports`).

## Findings

- A rejection never commits: it binds the text `reject`, which the CHECK list of the submissions
  table does not contain, so the batch fails, and the catch block puts both rows back to pending.
  The states `rejected` and `withdrawn` are unreachable within the lease.
- Past its lease a review can undo a publication: the decision batch does not re-check the claim. The
  tables stay sound exactly while every such decision finds its claim (`TablesStaySoundIff`). A
  review that was overtaken also deletes the package the other one has published, as both store it
  under one key (`PackageGoneRun`).
- A claim compares only the status of its rows, not the package key that was read before it. When
  the release is sent back, replaced and submitted again between the read and the claim of a review,
  that review builds from the package it read: while the clean-up of the replaced object is still to
  come, those files are published although the release names others (`StaleRun`). The published files
  are the named ones exactly when the claim found the key that was read (`PublishedFilesAreNamedIff`).
- Recovery from a corrupt profile saves while nothing is cached, so it accepts only a backup from
  before the first import (`RecoveryNeedsGenerationZero`). In the same way a save before the first
  load is checked against generation zero.
- The import refuses archives the export can write: an entry above the entry limit or the ratio
  limit, a name that repeats or does not survive UTF-8. `RoundTrip` states the exact condition.
  Extraction refuses in addition every name with two dots in a row
  (`ExportIsExtractable`).
- Two manifest keys may stand for one file, such as `data/a` and `data//a`; the later entry then
  replaces the earlier one. `FilesMatchIff` states when every recorded checksum still matches.
- A plain save compares only the generation, not the import state, so data from before a recorded
  extension result can bring the older bookkeeping back (`StaleSaveForgetsResult`). It keeps every
  final receipt exactly when its pending ids are all still pending (`SaveKeepsFinalsIff`).
- Loads test the cache before they read and install afterwards, outside the queue. When two first
  loads overlap, the second can install what it read before an import: the generation goes back and
  the import is overwritten, by a client's save (`ImportIsOverwritten`) or by the load's own
  (`DefaultOverwritesImport`). The generation never goes back exactly while no load installs an older
  one (`NeverDecreasesIff`, `StepwiseIffTimely`).
- Within one generation such a load still puts older contents into the cache and into the last text
  written. A save of those is then accepted as already written although the file holds others
  (`AcceptedSaveIsLost`). File and cache agree exactly when the last load or write was in tune
  (`CacheAgreesIff`).
- Normalising is idempotent only where kept records have room for what a pass adds
  (`NormalizedTwiceIff`); elsewhere the second pass drops the enlarged record, and the comparison
  after an import write fails although the write has happened (`FullImportIsWrittenButFails`).
- The comment above the onboarding rule says that profiles from before onboarding count as
  completed; the expression does the opposite, and the model follows the expression.

## Model

| member | source | states |
|---|---|---|
| `SemVer.IdentifiersOrder` | extensions-hub/src/index.ts:495 | the comparison of pre-release identifiers answers above, below or equal exactly by the first identifier that differs or by the proper prefix, as item 11.4 of SemVer 2.0.0 says, and is transitive |
| `SemVer.GtIff` | extensions-hub/src/index.ts:495 | the test of upload and approval is item 11 of SemVer 2.0.0 on the fields: the higher major, minor or patch at the first that differs; with an equal core a release above its pre-releases; of two pre-releases the one with the higher identifier at the first that differs, or the longer list: numbers by value, a text above a number, texts by their first differing character or as prefixes |
| `SemVer.GtIsTotal` | extensions-hub/src/index.ts:495 | of two versions exactly one has precedence by item 11, and passes the test, unless they differ in build metadata alone |
| `SemVer.GtIsTransitive` | extensions-hub/src/index.ts:567 | the test is transitive, and what it gives is precedence by item 11, so a chain of publications rises |
| `HubBatches.InsertKeeps` | extensions-hub/src/index.ts:516-520 | a conditional insert of a draft keeps the table invariant, every published row and every claimed row |
| `HubBatches.ReplaceKeeps` | extensions-hub/src/index.ts:509-514 | a re-upload writes exactly the draft row when its guards hold and nothing otherwise; the invariant and all claims survive |
| `HubBatches.WithdrawIsIdle` | extensions-hub/src/index.ts:511 | the withdrawing statement never matches a row on sound tables, so no submission is ever withdrawn |
| `HubBatches.SubmitHits` | extensions-hub/src/index.ts:547-552 | a guarded submission writes release, submission row and listing together, re-using the one row of the release |
| `HubBatches.SubmitMisses` | extensions-hub/src/index.ts:547-553 | a stale submission changes no release and no submission and is reported as failed |
| `HubBatches.SubmitKeeps` | extensions-hub/src/index.ts:547-553 | a submission keeps the invariant, published content and all claims, whether it hits, misses or collides |
| `HubReviews.ClaimAllOrNone` | extensions-hub/src/index.ts:658-662 | a claim succeeds exactly on a pending submission, takes both rows to reviewing or changes nothing |
| `HubReviews.ApproveAllOrNone` | extensions-hub/src/index.ts:620-630 | the three guarded updates of an approval change all their rows exactly when the first guard holds, else none |
| `HubReviews.ApproveKeeps` | extensions-hub/src/index.ts:563-568 | an approval under its version test keeps the invariant and moves the current release to a strictly newer one |
| `HubReviews.RejectNeverCommits` | extensions-hub/migrations/0001_initial.sql:77-82 | a rejection binds a status outside the CHECK list while the claim is held, so its whole batch is rolled back |
| `HubReviews.ChangesKeeps` | extensions-hub/src/index.ts:669-675 | a held request for changes takes both rows to changes and keeps everything else |
| `HubReviews.RollbackKeeps` | extensions-hub/src/index.ts:677-683 | the catch block takes both rows back to pending and keeps everything else |
| `HubReviews.YankKeeps` | extensions-hub/src/index.ts:988-998 | the unguarded yank is safe on a published release that is no longer current |
| `HubReviews.SweepRow` | extensions-hub/src/security.ts:189-190 | row by row: an expired claim and its release become pending, all other rows stay |
| `HubReviews.SweepKeeps` | extensions-hub/src/security.ts:189-190 | the sweep keeps the invariant and takes back exactly the expired claims |
| `HubOutcomes.InsertIff` | extensions-hub/src/index.ts:516-520 | a new draft goes in exactly when the extension is listed with the current release that was seen and neither its id nor its version is taken; the row it then is |
| `HubOutcomes.ReplaceIff` | extensions-hub/src/index.ts:509-514 | a draft is replaced exactly when its row is still open under the key that was read and the current release is the one that was seen; the row it then is |
| `HubOutcomes.SubmitIff` | extensions-hub/src/index.ts:547-553 | a submission goes through exactly when the release is still open under the key that was read, the current release is the one that was seen, and the release has a row or the new id is free |
| `HubOutcomes.SubmitWrites` | extensions-hub/src/index.ts:547-552 | the rows it leaves: the release pending since now, its one submission pending since now, its listing pending if it has no current release |
| `HubOutcomes.ClaimIff` | extensions-hub/src/index.ts:658-662 | a claim of a pair goes through exactly while the submission is pending, and the two rows it leaves |
| `HubOutcomes.ApproveIff` | extensions-hub/src/index.ts:620-630 | an approval goes through exactly when the current release is still the one that was seen and both rows are in review, and the three rows it leaves |
| `HubOutcomes.DecideIs` | extensions-hub/src/index.ts:669-675 | the rows a request for changes of a claimed pair leaves; a rejection of one changes nothing |
| `HubOutcomes.SweepIs` | extensions-hub/src/security.ts:189-190 | a submission and its release go back to pending exactly when it was claimed more than sixty minutes ago, and keep their rows otherwise |
| `HubInvariant.EvolvesTransitive` | extensions-hub/src/index.ts:484-685 | what a batch may change composes: rows stay, published content is frozen, current versions only rise |
| `HubSafety.RequestStable` | extensions-hub/src/index.ts:649-662 | what an in-flight request read and holds stays true across any step of another request that respects its claim |
| `HubSafety.PackageKeyIsPrivate` | extensions-hub/src/index.ts:602-618 | no published release and no other review uses the package key of the review that holds the release |
| `HubSteps.ApplyKeeps` | extensions-hub/src/index.ts:484-685 | every event of every interleaved request keeps the state invariant while no review outlives its lease |
| `HubRuns.ReachableIsSound` | extensions-hub/src/index.ts:484-1012 | the invariant holds in every reachable state of any interleaving |
| `HubRuns.CurrentReleaseIsPublished` | extensions-hub/src/index.ts:620-630 | a current release is a published release of that extension, and an extension is published or suspended exactly when it has one |
| `HubRuns.ReleaseAndSubmissionInStep` | extensions-hub/src/index.ts:547-553 | a submission is pending iff its release is, reviewing iff it is, approved iff it is published or yanked, and never rejected or withdrawn |
| `HubRuns.ReleaseHasOneSubmission` | extensions-hub/migrations/0001_initial.sql:77-84 | a release past the draft stage has exactly one submission row |
| `HubRuns.OneClaimPerSubmission` | extensions-hub/src/index.ts:657-662 | two requests never hold a claim on one submission, and a held claim is still in the tables |
| `HubRuns.CurrentVersionOnlyRises` | extensions-hub/src/index.ts:565-568 | once there is a current release there always is one, and a later one has precedence over it by item 11 of SemVer 2.0.0 |
| `HubRuns.CurrentReleaseNeverReturns` | extensions-hub/src/index.ts:621 | if the current release is the same at two moments it did not move in between, so the IS guards are sound |
| `HubRuns.PublishedContentIsFrozen` | extensions-hub/src/index.ts:621-622 | version, package key, hash and descriptor of a published release never change, and yanked stays yanked |
| `HubPipeline.NewVersionIsPublishedIff` | extensions-hub/src/index.ts:484-637 | from any sound state: a new version that is uploaded, submitted and approved without a disturbance becomes the current release, with a stored package of exactly the uploaded files, exactly when there is no current release or the version has precedence over it by item 11; otherwise tables and store stay as they were |
| `HubEndings.ChangesAreRequested` | extensions-hub/src/index.ts:639-677 | an undisturbed request for changes sends release and submission back and leaves everything else |
| `HubEndings.RejectionIsUndone` | extensions-hub/src/index.ts:669-684 | an undisturbed rejection comes to nothing: release, listing and status are as before |
| `HubEndings.YankIff` | extensions-hub/src/index.ts:988-997 | an undisturbed yank retires exactly a published release that is not the current one |
| `HubEndings.PlansReplacement` | extensions-hub/src/index.ts:496-497 | an upload of a version that already has a row goes on, to replace it, exactly when the row is a draft, sent back or rejected, and ends otherwise |
| `HubEndings.SubmitOpensIff` | extensions-hub/src/index.ts:534-536 | a submission begins exactly on a release that has a package and is a draft, sent back or rejected, holding what it read |
| `HubEndings.ReviewOpensIff` | extensions-hub/src/index.ts:648-649 | a review begins exactly on a pending submission whose release is pending, holding what it read |
| `HubEndings.ThrownUploadIsCleaned` | extensions-hub/src/index.ts:522-525 | an upload whose batch throws leaves tables and store as they were, once its clean-up works |
| `HubEndings.UploadIsCleaned` | extensions-hub/src/index.ts:514-526 | an upload whose batch is refused has its own package to remove, one that replaces a draft the package it replaced, and any other nothing |
| `HubEndings.ThrownReviewIsCleaned` | extensions-hub/src/index.ts:631-634 | a review that throws after it has stored its package removes that package, if the removal works, before it takes the claim back |
| `HubEndings.ThrownEarly` | extensions-hub/src/index.ts:678-684 | a review that throws before it has stored a package goes straight to taking its claim back |
| `HubEndings.DeadClaimIsSwept` | extensions-hub/src/security.ts:189-190 | the claim of a review that died is taken back by a sweep more than an hour after the claim, in both rows |
| `HubTrailSteps.ApplyKeepsTrail` | extensions-hub/src/index.ts:484-685 | every event keeps the trail: a staging key is written at most once and what stands under it is what was written, rows and snapshots name packages of their extension and version, and built, stored and published packages hold the files written under the key their review read |
| `HubFiles.PublishedPackageIsStored` | extensions-hub/src/index.ts:602-635 | the package a published or yanked release names is in the object store, was built for its extension and version, has the recorded hash, and holds the files written under the key its review read |
| `HubFiles.PublishedFilesAreNamedIff` | extensions-hub/src/index.ts:650-662 | the published files are those written under the key the release names, which is the one it named at the claim, exactly when the review that claimed it had read that key |
| `HubFiles.OpenReleaseIsStaged` | extensions-hub/src/index.ts:503-526 | while nothing expires, the package of every release that is not published is in the object store under its row's key, with the files written there, whatever clean-ups run beside it |
| `HubFiles.ApprovalBuildsIff` | extensions-hub/src/index.ts:569-576 | an approval builds a package exactly when the object it read about is still stored, and the package then holds the files written there |
| `HubFiles.ApprovalFindsItsPackage` | extensions-hub/src/index.ts:569-576 | while nothing expires, an approval whose claim found the key that was read never fails for want of its package and builds the files the release names; a claim that found another key never builds those |
| `HubStaleRun.StaleFilesArePublished` | extensions-hub/src/index.ts:650-662 | from every reachable state with a pending release above the current one and its package stored, the run can go on so that the package of now is published while the release names another one with any files given |
| `HubStaleRun.StaleRun` | extensions-hub/src/index.ts:526 | for any two uploads there is a run from the empty tables in which the first is published while the release names the second, because the clean-up of the replaced object is still to come |
| `HubUploads.CommittedUploadIsNewer` | extensions-hub/src/index.ts:494-521 | an upload batch commits only a version with precedence by item 11 over the release that is current at that moment, on a draft of the uploaded extension and version, although read, version test and batch are three moments |
| `HubClaims.ExactlyOneHolder` | extensions-hub/src/index.ts:657-684 | while no request dies, every submission under review is held by exactly one in-flight request |
| `HubLease.DecisionKeepsTablesIff` | extensions-hub/src/index.ts:670-671 | the unguarded decision keeps sound tables sound exactly when the claim still stands or it repeats a request for changes |
| `HubLease.YankKeepsTablesIff` | extensions-hub/src/index.ts:994 | the unguarded yank of a published release keeps sound tables sound exactly when it is not the current one |
| `HubLease.LateDecisionUndoesPublication` | extensions-hub/src/security.ts:189 | past its lease a first review can still undo a publication approved by a second one: the lease assumption is needed |
| `HubBeyondLease.TablesStaySoundIff` | extensions-hub/src/index.ts:669-675 | over every run, leased or not, the tables are sound in all states exactly when every rejection and every request for changes finds its claim standing or repeats a request for changes |
| `HubBeyondLease.FittingRunEvolves` | extensions-hub/src/index.ts:484-685 | over such a run published content is frozen and the current version only rises, with or without the lease |
| `HubLateDelete.LateReviewDeletesPackage` | extensions-hub/src/index.ts:631-634 | from every reachable state with a pending release above the current one and its package stored, the run can go on past the lease so that the release is published and its package deleted by the review that was overtaken |
| `HubLateDelete.PackageGoneRun` | extensions-hub/src/index.ts:631-634 | such a run from the empty tables |
| `HubTables.Tables.ClaimSubmission` | extensions-hub/src/index.ts:658-662 | in place, on sound tables: succeeds exactly on a pending submission, both rows are then reviewing since the given time, else nothing changes; every other claim and all published content stay |
| `HubTables.Tables.ApproveSubmission` | extensions-hub/src/index.ts:620-630 | in place: all three rows or none; with an artifact of the release and an older current release the tables stay sound and the current version rises |
| `HubTables.Tables.DecideSubmission` | extensions-hub/src/index.ts:669-675 | in place: a held request for changes takes both rows to changes, a held rejection changes nothing, and the tables stay sound exactly when the claim still stands or a request for changes is repeated |
| `HubTables.Tables.RollbackReview` | extensions-hub/src/index.ts:678-681 | in place, on sound tables: a claim goes back to pending in both rows, without a claim nothing changes; sound tables stay sound and other claims untouched |
| `HubTables.Tables.Replace` | extensions-hub/src/index.ts:509-514 | in place, on sound tables and under a key the release does not name yet: a draft with the new key, or nothing; no submission is withdrawn, no published row and no claim changes |
| `HubTables.Tables.InsertDraft` | extensions-hub/src/index.ts:516-520 | in place, on sound tables: a new draft that is the only row of its extension and version, or nothing; nothing published or claimed changes |
| `HubTables.Tables.SubmitRelease` | extensions-hub/src/index.ts:547-553 | in place, with the search for the row of the upsert: a pending release with a pending submission, or releases and submissions as before; sound tables stay sound |
| `HubTables.Tables.YankRelease` | extensions-hub/src/index.ts:993-996 | in place: for a published release the tables stay sound exactly when it is not the current one |
| `HubTables.Tables.SuspendListing` | extensions-hub/src/index.ts:1008-1009 | in place, on sound tables: a published listing is suspended with its current release kept, any other is left alone; no current release changes |
| `HubTables.Tables.SweepClaims` | extensions-hub/src/security.ts:189-190 | in place, on sound tables: exactly the expired claims become pending, every other submission and its release keep their rows |
| `Crc.ShiftsAreLinear` | src/main/vast-backup.ts:202-207 | the bit-by-bit register is linear over exclusive or |
| `Crc.PolynomialIs` | src/main/vast-backup.ts:205 | the generator of section 8 of RFC 1952, bit-reversed, is the constant 0xedb88320 |
| `Crc.TableStep` | src/main/vast-backup.ts:211 | eight shifts are eight shifts of the low byte combined with the remaining bytes |
| `Crc.BuildTable` | src/main/vast-backup.ts:202-207 | the filled table holds eight shifts of every byte value |
| `Crc.TableCrc32` | src/main/vast-backup.ts:209-213 | the table-driven CRC equals the bit-by-bit CRC-32 of section 8 of RFC 1952 on every byte string |
| `ZipBytes.NumberOfLittle` | src/main/vast-backup.ts:215-225 | a number that fits its field reads back from its little-endian bytes |
| `ZipWriter.HeadersAgree` | src/main/vast-backup.ts:248-297 | version, flags, method, times, checksum, sizes and lengths of an entry are the same bytes in its local and in its central record (sections 4.3.7 and 4.3.12 of APPNOTE.TXT) |
| `ZipWriter.LocalBytes` | src/main/vast-backup.ts:252-268 | a local record is, byte by byte, the signature, version 2.0, the UTF-8 flag, method 8, no time, the checksum, the two sizes, the length of the name, no extra field, the name and the data (section 4.3.7 of APPNOTE.TXT) |
| `ZipWriter.CentralBytes` | src/main/vast-backup.ts:275-294 | a central record is the signature, the writer's version, the shared fields, blanks for comment, disk and attributes, the offset and the name (section 4.3.12) |
| `ZipWriter.EndBytes` | src/main/vast-backup.ts:302-311 | the end record names one disk, the number of entries twice, the size and the offset of the directory and no comment (section 4.3.16) |
| `ZipWriter.WriteZip` | src/main/vast-backup.ts:231-312 | in the ZIP layout the two-pass writer yields the specified archive, or fails exactly when a name or the count overflows its 16-bit field |
| `ZipWriter.WritableIff` | src/main/vast-backup.ts:215-219 | the archive can be written exactly when its count and the length of every name can be read back from a field of sixteen bits |
| `ZipWriter.ZipIsPlaced` | src/main/vast-backup.ts:231-312 | every local record of the archive stands at the offset its central record names, the central records follow each other from the directory start, and the end record, which names that start, closes the archive |
| `ZipReader.FindEnd` | src/main/vast-backup.ts:314-320 | the scan finds the last end signature of the window, or there is none |
| `ZipReader.ParseRecords` | src/main/vast-backup.ts:337-394 | the cursor loop over any buffer yields the checked walk, every read inside the buffer |
| `ZipSafety.ParserIsSafe` | src/main/vast-backup.ts:337-394 | every accepted buffer has the counted entries, distinct names, slices before the directory and sizes within the total limit |
| `ZipSafety.SuspiciousIff` | src/main/vast-backup.ts:368-375 | a large entry fails the ratio test exactly when its sizes stand in a ratio above 250 and its name is of no volatile directory |
| `ZipAccepts.ReadRecordIff` | src/main/vast-backup.ts:350-391 | one step of the walk accepts exactly an unencrypted, named entry whose central and local records stand where they must, within the limits of size, ratio and total, under a name not seen before; each field of what it reads is the one at its offset |
| `ZipAccepts.ReadRecordFails` | src/main/vast-backup.ts:347-382 | a refused entry is refused for its first fault in the order of the checks, each fault said of the bytes |
| `ZipAccepts.AcceptsIff` | src/main/vast-backup.ts:337-394 | a buffer is read as a list of records exactly when it has at most 512 MiB and behind its last end record in the window there are as many accepted entries in a row as it counts, at most ten thousand, with distinct names and at most two gibibytes together |
| `ZipAccepts.InflateIff` | src/main/vast-backup.ts:396-406 | an entry decompresses to exactly the data its method gives (8 inflates, up to one byte more than declared; 0 is the bytes), when that has the recorded size and CRC-32 |
| `ZipAccepts.InflateFails` | src/main/vast-backup.ts:396-406 | and otherwise fails for its method, its size, its checksum or its compressed bytes, in this order |
| `ZipAccepts.InflateAllIff` | src/main/vast-backup.ts:408-410 | the contents of an archive are exactly the intact data of every entry in order |
| `ZipAccepts.UnpackedIsIntact` | src/main/vast-backup.ts:337-410 | whatever decompression answers, what is unpacked from any buffer stays within the total limit and has, file by file, the path, the size and the CRC-32 that a record of its central directory names |
| `ZipRoundTrip.CentralReadsBack` | src/main/vast-backup.ts:350-361 | the fields of a written central record are the fields that are read |
| `ZipRoundTrip.LocalReadsBack` | src/main/vast-backup.ts:376-382 | the compressed bytes behind a written local record are the bytes that are read |
| `ZipRoundTrip.ArchiveReads` | src/main/vast-backup.ts:337-394 | reading a written archive succeeds exactly when it has entries and each passes the field checks in order |
| `ZipRoundTrip.RoundTrip` | src/main/vast-backup.ts:231-410 | an exported list is restored, names and bytes in order, exactly when it is non-empty, with distinct non-empty names that survive UTF-8, and every entry meets the size and ratio limits |
| `ArchivePaths.SafeTargetsStayInside` | src/main/vast-backup.ts:797-807 | a safe entry name stands for a file strictly below the root |
| `ArchivePaths.SafeIff` | src/main/vast-backup.ts:797-807 | a name is safe exactly when it does not start with a separator or a drive letter, has no two dots in a row, and has some character besides dots and separators |
| `ArchivePaths.SegmentsSplit` | src/main/vast-backup.ts:802-806 | the file a name stands for, segment by segment: empty ones and single dots are skipped |
| `ArchivePaths.SafeNamesMayAlias` | src/main/vast-backup.ts:797-807 | two different safe names can stand for one file |
| `ExtractionPlan.AcceptedArchive` | src/main/vast-backup.ts:820-836 | before the first write: all names safe and permitted, every checksum key present, the manifest and the profile data among them |
| `ExtractionPlan.CountedEntries` | src/main/vast-backup.ts:690-694 | the file count of an accepted manifest is the number of data entries of the archive |
| `ExtractionPlan.DataFilesAreTheManifests` | src/main/vast-backup.ts:841-860 | the data files extracted are exactly the manifest's checksum keys minus the retired files |
| `ExtractionPlan.FilesMatchIff` | src/main/vast-backup.ts:846-859 | every kept file has its recorded size and digest exactly when no two kept keys stand for one file with different checksums |
| `ExtractionPlan.ProfileDataIsObject` | src/main/vast-backup.ts:853-856 | the profile data that is unpacked is an object |
| `ExtractionAccepts.PlanIff` | src/main/vast-backup.ts:820-861 | an archive is planned exactly when its manifest entry is intact, parses and is in order field by field, every name is safe and expected, every recorded file is there, and every entry is intact with the recorded size and digest, in any case of its letters, the profile data an object |
| `ExtractionAccepts.PlannedIsIntact` | src/main/vast-backup.ts:841-851 | every entry of a planned archive, the manifest and the readme among them, has its size and CRC-32 |
| `ExtractionAccepts.ManifestFails` | src/main/vast-backup.ts:822-826 | a manifest is refused for being missing, not intact, unreadable or not in order, in this order |
| `ExtractionAccepts.NamesFail` | src/main/vast-backup.ts:830-833 | the first entry whose name is not allowed decides: unsafe, or else unexpected |
| `ExtractionAccepts.AcceptFails` | src/main/vast-backup.ts:829-836 | with a manifest in order an archive is refused for a name before it is for a missing file |
| `ExtractionAccepts.UnpackFails` | src/main/vast-backup.ts:844-851 | an entry is refused for what the reader says of it, then for its size, then for its digest |
| `ExtractionAccepts.RetiredIff` | src/main/vast-backup.ts:187-190 | exactly the six names of retired products, in any case of their letters, are checked but not written |
| `ExtractionAccepts.TreeIs` | src/main/vast-backup.ts:841-861 | a file holds what the last kept entry for it unpacks to, and there is no file without one |
| `Extraction.StageEntries` | src/main/vast-backup.ts:841-861 | the staging loop builds the planned tree and touches nothing else |
| `Extraction.Activate` | src/main/vast-backup.ts:863-870 | the swap leaves one of three states: untouched, old tree aside, or new tree in place |
| `Extraction.Recover` | src/main/vast-backup.ts:872-879 | the handler brings the old tree back when nothing stands in its place |
| `Extraction.Extract` | src/main/vast-backup.ts:814-880 | after any failure the destination holds its complete old tree or the complete new one, unless the move back failed, when the old tree is still aside; after success it is the planned tree; when every file operation works it succeeds exactly when the plan does, and otherwise leaves everything as it was; an error is the plan's or a file operation's |
| `ExtractionPlan.NamesCheckedIff` | src/main/vast-backup.ts:829-833 | the name checks pass exactly when every entry name is safe and expected by the manifest |
| `BackupRoundTrip.ExportManifestValidIff` | src/main/vast-backup.ts:682-743 | the manifest an export writes is valid exactly when the profile data is among the collected files |
| `BackupRoundTrip.ExportIsExtractable` | src/main/vast-backup.ts:710-861 | an export within the import's limits is read back, and can be extracted exactly when every file name is safe: not absolute, no two dots in a row, no drive; the tree then holds every kept file with its bytes, if no two names stand for one file |
| `StorageSteps.WriteAgreesIff` | src/main/storage.ts:739-769 | after a write, file and cache agree exactly when the written normal form is a fixed point of the normaliser |
| `StorageSteps.WriteInstalls` | src/main/storage.ts:739-769 | a successful or skipped write caches the data's import state and the main process's downloads |
| `StorageSteps.RecoveryNeedsGenerationZero` | src/main/storage.ts:650-651 | recovery, which saves while nothing is cached, accepts a backup exactly when its generation is zero |
| `StorageSteps.RunGeneration` | src/main/storage.ts:731-736 | ordinary tasks keep the generation; an import or a replacement raises it by exactly one or leaves the cache alone |
| `StorageSteps.RunReceipt` | src/main/storage.ts:778-822 | while the generation stays, so does the receipt |
| `StorageWrites.TaskShape` | src/main/storage.ts:711-919 | from whatever state, each of the seven tasks leaves file, cache and last text as they were, or all three with the normal form of the profile it asked to write, whose downloads are the main list |
| `StorageOutcomes.SaveRendererIff` | src/main/storage.ts:715-725 | a renderer save is done exactly when it carries the cached import state and its data with the main list, or the cached one before there is a main list, has a normal form that is the text last written or can be written; that form is then cached and in the file; every failure by its cause; when the list is initialised |
| `StorageOutcomes.SaveIff` | src/main/storage.ts:731-776 | a plain save is done exactly when it carries the cached generation and its data with the main list can be written; every failure by its cause |
| `StorageOutcomes.UpsertIff` | src/main/storage.ts:863-872 | an upsert is done exactly when the profile with the new list can be written; the list is the download, the others in their order, the last falling out at two hundred, whether the write works or not |
| `StorageOutcomes.ClearIff` | src/main/storage.ts:874-882 | a clear likewise; the list is the unfinished downloads in their order |
| `StorageOutcomes.ReplaceIff` | src/main/storage.ts:884-899 | a replacement is done exactly when the safety copy works and its data, one generation later and without an import, can be written; nothing at all changes otherwise |
| `StorageOutcomes.RecordIff` | src/main/storage.ts:824-854 | a new result of a selected extension is recorded exactly when its import state can be written and the file is read and normalised again; what that import state is |
| `StorageOutcomes.RecordRefuses` | src/main/storage.ts:825-834 | a result is refused for its fields, a foreign operation or an id that was not selected, and answered by a final one recorded before, with nothing changed |
| `StorageOutcomes.CommitIff` | src/main/storage.ts:796-821 | a new import whose merge is in order is written one generation later with its receipt and ids, and committed exactly when the normal form is read back as itself |
| `StorageOutcomes.CommitRefuses` | src/main/storage.ts:796-803 | a new import is refused for its merge, its receipt or a forged generation, with nothing changed |
| `StorageOutcomes.CommitRepeats` | src/main/storage.ts:786-795 | the operation of the profile's import is never merged again, and answers exactly when the file, normalised, has its receipt and generation |
| `StorageOutcomes.LoadIff` | src/main/storage.ts:665-693 | a first load of a missing or usable file: what is cached, what is saved, and every failure by its cause |
| `StorageOutcomes.RecoverIff` | src/main/storage.ts:641-662 | a first load of an unusable file recovers exactly when the copy works and the backup, or the default, is of generation zero and can be written |
| `StorageAgreement.CacheAgreesIff` | src/main/storage.ts:665-770 | in every state of every run, loads interleaved at will: file and cache agree exactly when the last step that set the cache was a write of a fixed point of the normaliser, or the end of a load that installed what the file normalises to by then |
| `StorageAgreement.RunAgreesIff` | src/main/storage.ts:665-770 | file and cache agree in all states of a run exactly when every step that sets the cache does so in one of these two ways; refused, failed and skipped writes never matter |
| `StorageAgreement.AcceptedSaveIsInFile` | src/main/storage.ts:739-776 | over such a run an accepted save, written or skipped as the last text written, is what the file normalises to |
| `StorageRuns.NeverDecreasesIff` | src/main/storage.ts:665-736 | over every run the stored generation never decreases exactly when no load installs contents of an older generation over a cache |
| `StorageRuns.NoLostImport` | src/main/storage.ts:715-738 | while no load installs an older generation, data read before an import can no longer be saved after it, by either kind of save |
| `StorageRuns.StepwiseIffTimely` | src/main/storage.ts:665-690 | over any run with overlapping loads the generation only stays or is raised by one by an import exactly when every load that installs over a cache installs contents of the cached generation; such an install, and no other, keeps the generation |
| `StorageRuns.UnwrittenIsTimely` | src/main/storage.ts:676-690 | if nothing was written since the read, the install keeps the generation |
| `StorageLateLoads.ImportIsOverwritten` | src/main/storage.ts:665-690 | a run in which a load that read before an import installs after it: the generation goes back, and the next save writes over the committed import |
| `StorageLateLoads.DefaultOverwritesImport` | src/main/storage.ts:668-673 | a run on a missing file in which the second load's own save of the default profile overwrites a committed import |
| `StorageLateLoads.AcceptedSaveIsLost` | src/main/storage.ts:739-742 | a run in which every load is in time, yet an accepted save is not in the file: a load installs what it read before an earlier save, and the save of that is skipped |
| `StorageReceipts.InstallKeepsReceipt` | src/main/storage.ts:676-690 | a load that installs the cached generation installs the cached receipt |
| `StorageAgreement.CurrentIsTimely` | src/main/storage.ts:676-690 | a load that installs what the file still holds installs the cached generation and what the file normalises to |
| `StorageReceipts.ReceiptIsFunctionOfGeneration` | src/main/storage.ts:806-812 | over a run with such loads whose saves carry import states the run had, equal generations mean equal receipts |
| `StorageReceipts.CommitIsExactlyOnce` | src/main/storage.ts:778-822 | over such a run, while an import is the latest one, repeating its operation never merges, changes nothing, and answers with the stored receipt and generation exactly when the file can be read and is normalised once more |
| `StorageCommits.CommitsIff` | src/main/storage.ts:796-821 | a new import commits exactly when its merge is in order, write and read work, and the normal form it writes is a fixed point of the normaliser |
| `StorageCommits.ReplacementForgetsImport` | src/main/storage.ts:884-919 | a replacement starts a generation without an import: an operation that committed before it runs its merge again |
| `StorageImports.RecordKeepsBook` | src/main/storage.ts:832-846 | recording a result keeps pending and final ids apart and together equal to the selected ones, one receipt per id, completion exactly when nothing is pending, and every final receipt |
| `StorageImports.CandidateStartsBook` | src/main/storage.ts:806-812 | a committed import starts its bookkeeping with exactly the ids its merge selected and without results |
| `StorageBookkeeping.BookHoldsOverRun` | src/main/storage.ts:778-854 | in every state between a committed import and the next, with loads, saves of data clients once had, recorded results and downloads in any order: pending and final ids are apart and together the selected ones |
| `StorageBookkeeping.FinalsKeptIff` | src/main/storage.ts:774-854 | no final receipt is ever lost between an import and the next exactly when no step makes an id pending again |
| `StorageBookkeeping.OtherStepsShrink` | src/main/storage.ts:824-854 | only plain saves and loads can: every other step makes no id pending again |
| `StorageImports.GoingBackKeepsFinalsIff` | src/main/storage.ts:832-846 | going back to an earlier import state keeps every final receipt exactly when what is pending there is still pending |
| `StorageImports.SaveKeepsFinalsIff` | src/main/storage.ts:774-776 | an accepted plain save that carries an earlier import state keeps every final receipt exactly when its pending ids are all still pending |
| `StorageImports.StaleSaveForgetsResult` | src/main/storage.ts:774-776 | an input: a plain save of data from before a recorded result, in the same generation, is accepted and loses the result |
| `StorageDownloads.UpsertIs` | src/main/storage.ts:863-872 | an upsert puts the download first, drops older entries of its id, keeps the others in their order and at most two hundred, the last falling out |
| `StorageDownloads.ListIsFolded` | src/main/storage.ts:711-738 | over any run with loads interleaved the main list is the fold of upserts, clears and replacements in queue order, whatever the saves carry |
| `StorageDownloads.StoredDownloadsAreFolded` | src/main/storage.ts:711-822 | after every write, of a save, an import commit, a recorded result, a download operation, a replacement or a load, the stored downloads are the cleaned fold |
| `StorageDownloads.DoneHasFoldedDownloads` | src/main/storage.ts:739-742 | a task that is done without a write finds the cleaned fold in the file, while file and cache agree |
| `StorageStore.ProfileStore.WriteData` | src/main/storage.ts:731-770 | keeps file and cache coherent; on failure nothing changes; on success the generation is the old one or one more as asked, the cache has the data's import state and the cleaned main downloads, and the file carries it; what was last written needs no file |
| `StorageStore.ProfileStore.SaveRendererData` | src/main/storage.ts:715-725 | done exactly when the data carries the cached import state and, with the main list, can be written or was last written; the file then holds its normal form; keeps the import state and the main process's downloads whatever the renderer's data holds; on failure file and cache stay |
| `StorageStore.ProfileStore.SaveData` | src/main/storage.ts:774-776 | done exactly when the generation is the cached one and the data can be written; keeps the generation; on failure nothing changes, on success the cached import state is the data's |
| `StorageStore.ProfileStore.CommitImportData` | src/main/storage.ts:778-822 | one generation more with the operation's receipt, or nothing at all; what an import in order writes and when it commits; a repeated operation changes nothing and answers with the stored receipt; nothing changes on a failure before the read-back |
| `StorageStore.ProfileStore.RecordImportExtensionResult` | src/main/storage.ts:824-854 | keeps generation and receipt; a final result recorded before is the answer and nothing changes, any other of a selected extension is recorded exactly when it can be written and read back |
| `StorageStore.ProfileStore.UpsertDownload` | src/main/storage.ts:863-872 | the download is first in the main list, the others follow in their order, the last falling out at two hundred, even when the write fails; done exactly when the write works; the import state stays |
| `StorageStore.ProfileStore.ClearCompletedDownloads` | src/main/storage.ts:874-882 | the main list keeps exactly the unfinished downloads in their order, even when the write fails; done exactly when the write works; the import state stays |
| `StorageStore.ProfileStore.ReplaceData` | src/main/storage.ts:884-919 | done exactly when the copy works and the data can be written: one generation more, without an import and with the data's own downloads; else nothing at all, the download list given back |
| `StorageStore.ProfileStore.LoadData` | src/main/storage.ts:641-693 | an uninterrupted load keeps file and cache coherent, changes nothing when something is cached, and otherwise ends with a cached profile and a file of its schema |
| `StorageStore.ProfileStore.InstallRead` | src/main/storage.ts:668-690 | the end of a read caches what was read if it is usable, leaves the file alone, names what is still to be saved, and keeps file and cache coherent when the file still holds what was read |
| `TaskQueue.SerializedTaskQueue.Run` | src/main/serialized-task-queue.ts:5-9 | keeps the chain in order; the answered promise runs the task of the next number after everything requested before, which is left untouched, and what ran so far is serial |
| `TaskQueue.TasksRunSerially` | src/main/serialized-task-queue.ts:2-10 | for every arrival order and every pattern of failures queued work runs one at a time, in order, each exactly once |
| `TaskQueue.FailureReachesItsCaller` | src/main/serialized-task-queue.ts:6-7 | the promise of a request is rejected only by its own failure and fulfilled only by its own success |
| `TaskQueue.NothingIsDropped` | src/main/serialized-task-queue.ts:1-8 | as long as a promise is open some event can settle or start one: no failure blocks the chain |
| `TaskQueue.RequestedTaskRuns` | src/main/serialized-task-queue.ts:5-9 | on a drained queue a requested task runs, its promise settles as the task does, and the new tail is fulfilled either way |
| `AtomicFile.ChainMapIsExact` | src/main/atomic-file.ts:28-39 | the map holds a path exactly while some write to it is outstanding |
| `AtomicFile.WritesToOnePathAreSerial` | src/main/atomic-file.ts:29-33 | writes to one path run one at a time in the order of the requests |
| `AtomicFile.FileHoldsLastSuccess` | src/main/atomic-file.ts:11-26 | a file holds the contents of the latest write to it that succeeded |
| `AtomicFile.NoWriteIsStuck` | src/main/atomic-file.ts:30-31 | the first unfinished write of a path can always go on |
| `AtomicFile.WriteReachesFile` | src/main/atomic-file.ts:9-38 | a write to a path with no outstanding write puts its contents into the file exactly when it works; the path leaves the map, other files stay |
| `AtomicFile.WriteChains.AtomicWriteFile` | src/main/atomic-file.ts:29-33 | keeps the chain invariant; the new write waits for the latest outstanding write to its path and is that from now on; no other path, write or file is touched |
| `AtomicFile.WriteChains.Finally` | src/main/atomic-file.ts:36-38 | keeps the chain invariant; a cleaned write's path is out of the map exactly when no write to it is outstanding; no file and no other write is touched |
| `ProfileLists.BoundedArray` | src/main/storage.ts:197-216 | the loop keeps exactly the items among the first that pass their guard and whose text is short enough |
| `ProfileLists.PassTwice` | src/main/storage.ts:548-583 | a second pass changes nothing exactly when every kept item still passes after its migration |
| `ProfileItems.RenamedIsNew` | src/shared/legacy-internal-url-migration.ts:6-10 | a renamed title is seven characters longer and is not renamed again |
| `ProfileItems.MigratedPageOk` | src/shared/legacy-internal-url-migration.ts:16-22 | a migrated page passes its guard again exactly when the longer title fits |
| `ProfileItems.TabPassesAgain` | src/shared/legacy-internal-url-migration.ts:16-22 | a migrated tab passes again exactly when the tab has room for its new title and address |
| `ProfileItems.SnapshotPassesAgain` | src/shared/legacy-internal-url-migration.ts:30-38 | a migrated session snapshot passes again exactly when all its tabs together have room |
| `ProfileItems.WorkspacePassesAgain` | src/main/storage.ts:548-557 | a workspace with an added identity passes again exactly when it had room for it |
| `JsonText.JsonIsLawful` | src/main/storage.ts:209-210 | the length of JSON text grows by seven when a title is renamed, as the size tests assume |
| `JsonText.TextSizeIs` | src/main/storage.ts:209-210 | the size used for a text is the length of its JSON text, with every escape written out |
| `ProfileNormal.NormalizedIsClosed` | src/main/storage.ts:544-611 | for every input: tabs, groups and closed tabs refer to existing workspaces and groups, the active workspace exists, an enabled split view shows two different tabs of it with a ratio from 28 to 72 |
| `ProfileKept.NormalizedKeeps` | src/main/storage.ts:544-611 | every list of a normalised profile, record by record: exactly the good records among the first, in their order, each with its migration; the active workspace, and which two tabs the split view shows, if any |
| `ProfileIdempotent.IdempotentIff` | src/main/storage.ts:544-611 | for the lists, the references between records and the split view: normalising twice is normalising once exactly when every kept record has room for what the pass adds to it |
| `ProfileIdempotent.FullWorkspaceIsLost` | src/main/storage.ts:548-558 | an input on which the second pass differs: a workspace at its limit without an identity |
| `ProfileNormaliser.NormalizedTwiceIff` | src/main/storage.ts:482-612 | a whole profile, settings and onboarding included, is normalised to itself again, at any later time, exactly when every kept record has room |
| `ProfileNormaliser.EnvIsLawful` | src/main/storage.ts:482-612 | the normaliser is as the engine expects it: import state and schema as given, downloads cleaned on their own |
| `ProfileAccepts.NormalizesIff` | src/main/storage.ts:455-480 | a profile is accepted exactly when no list is more than twice as long as what is kept of it and its import state may be stored |
| `ProfileAccepts.MigrateIs` | src/main/storage.ts:482-612 | what a whole profile is migrated to, part by part, from its stored fields |
| `ProfileEngine.ImportCommitsIff` | src/main/storage.ts:796-821 | with the real normaliser a new import commits exactly when its merge is in order, write and read work, the merged profile has the stored shape and every kept record of it has room |
| `ProfileEngine.WrittenAgreesIff` | src/main/storage.ts:739-769 | after a write the normalised file is the cache exactly when what was written has room |
| `ProfileEngine.CacheAgreesIffRoom` | src/main/storage.ts:665-770 | with the real normaliser, in every state of every run: file and cache agree exactly when the last step that set the cache wrote a profile every kept record of which has room, or installed what the file normalises to by then |
| `ProfileEngine.RepeatedImportAnswersIff` | src/main/storage.ts:778-822 | with the real normaliser a repeated import answers with the stored receipt and generation exactly when the file can be read |
| `ProfileEngine.FullImportIsWrittenButFails` | src/main/storage.ts:812-821 | an import that merges a workspace at its limit without an identity is written, yet its read-back fails |
| `ProfileMigrate.MigrateData` | src/main/storage.ts:482-612 | the field-by-field migration of a whole profile, settings, onboarding, lists and downloads, is the specified normal form, and part by part what `ProfileAccepts.MigrateIs` says of the stored fields |
| `ProfileSettings.SanitizeTwice` | src/main/storage.ts:380-398 | sanitizing against any tree of defaults twice is sanitizing once; `ProfileLeaves.EveryLeaf` says what once is |
| `ProfileLeaves.EveryLeaf` | src/main/storage.ts:380-398 | along every path of the default tree the result is the stored value when that is a flag, a number within a million, a permitted text of at most 65536 characters or a list of at most a hundred texts of at most 1024, as the default there is; and the default otherwise |
| `ProfileLeaves.WholeTreeIsKept` | src/main/storage.ts:380-398 | stored settings with the keys of the defaults and such a value at every leaf come back unchanged |
| `ProfileLeaves.SettingsAre` | src/main/storage.ts:400-453 | every part of sanitized settings: the tree, the features an existing profile keeps off, the memory limit with its older forms, layout, sizes, background and permissions |
| `ProfileSettings.SettingsTwice` | src/main/storage.ts:400-453 | sanitizing settings again, as an existing profile or not and at any time, changes nothing |
| `ProfileSettings.MigrateSettingsTwice` | src/shared/existing-profile-defaults.ts:3-14 | settings and onboarding together are stable under a second migration |
| `ProfileSettings.OldProfileIsOnboardedAgain` | src/main/storage.ts:510-517 | a profile without an onboarding record keeps the old feature defaults, yet still has to be onboarded exactly when its schema is older than nine |
| `AstPolicy.Scanner.Visit` | extensions-hub/src/validation.ts:118-158 | the recursive visitor that adds to two sets is the fold of the node checks over the nodes in visiting order |
| `AstPolicy.ScanPolicy` | extensions-hub/src/validation.ts:109-161 | the scan reports the violations of that fold |
| `AstPolicy.WalkReachesEveryNode` | extensions-hub/src/validation.ts:153-157 | the walk examines exactly the nodes reachable through fields other than parent and one level of arrays |
| `AstFragments.RemoteIff` | extensions-hub/src/validation.ts:124 | a text is remote exactly when it is an address whose scheme is http or https in any case of its letters |
| `AstReports.FindingsIff` | extensions-hub/src/validation.ts:119-152 | a node is found to commit a violation exactly when it is of one of the prohibited forms, each said of the tree's own fields |
| `AstReports.ReportedIff` | extensions-hub/src/validation.ts:109-161 | a scan reports a violation exactly when some node of the walk is of such a form, given the script variables that the nodes up to it make |
| `AstReports.ImportIsReported` | extensions-hub/src/validation.ts:124 | a dynamic import of a literal address, wherever it stands |
| `AstReports.ModuleSourceIsReported` | extensions-hub/src/validation.ts:125 | an import or export declaration from a literal address, wherever it stands |
| `AstReports.WorkerIsReported` | extensions-hub/src/validation.ts:134-135 | a literal address imported into a worker or given to a new worker or shared worker, wherever it stands |
| `AstReports.ServiceWorkerIsReported` | extensions-hub/src/validation.ts:136 | a service worker registered from a literal address, wherever it stands |
| `AstReports.ScriptSourceIsReported` | extensions-hub/src/validation.ts:143-152 | a literal address assigned to src or href of a variable that an earlier node made a script element |
| `AstReports.ScriptAttributeIsReported` | extensions-hub/src/validation.ts:141 | a literal address set as src or href, in any case of its letters, of such a variable |
| `AstPolicy.ScanIsMonotone` | extensions-hub/src/validation.ts:109-161 | every violation of a fragment scanned alone is reported wherever the fragment occurs, whatever was collected before |
| `AstFragments.ShownIsReported` | extensions-hub/src/validation.ts:109-161 | what a node shows on its own is reported wherever the node stands, whatever was collected before |
| `AstFragments.NamedCallShows` | extensions-hub/src/validation.ts:126-140 | a call or construction by a plain name shows exactly: dynamic code for eval and Function, a timer for a literal first argument, remote worker scripts and imports for a literal http or https address in any spelling of the scheme, nothing else |
| `AstFragments.NamedCallIsReported` | extensions-hub/src/validation.ts:126-140 | such a call, also as the last part of a sequence, is reported wherever it stands |
| `AstFragments.GlobalCallIsReported` | extensions-hub/src/validation.ts:131-133 | eval, Function and text timers by way of globalThis, window or self are reported wherever they stand |

## Left out

- HTTP routing, sessions, rate limits, HTML, audit-log rows and the limit of ten drafts in the Hub: around the protocol, and the draft limit is a read followed by a write that concurrent uploads can pass together.
- Deletion of extensions and the other tables of the Hub: no step of the pipeline reads them.
- Object-store listing with cursors in the expiry sweep: modelled as staging objects that may disappear at any moment.
- HubRuns.PublishedContentIsFrozen: says nothing of the manifest summary, the permissions and the validation text, because no batch reads them.
- HubFiles.PublishedFilesAreNamedIff: the direction from equal files to equal keys is for uploads with different files.
- The time an upload's batch would store in withdrawn submissions: taken at the batch, as no submission is ever withdrawn.
- A batch that is committed although its caller sees an error: a batch that throws changes nothing.
- HubBeyondLease.TablesStaySoundIff: past the lease nothing is said of the object store beyond the run of HubLateDelete.
- HubClaims.ExactlyOneHolder: for runs in which no request dies; the claim of a dead one is taken back by the sweep, as SweepKeeps says.
- SHA-256, signatures, compression, UTF-8, JSON and the script parser: function values or given trees with the laws stated in the lemmas that use them.
- Retries and delays of file operations: an operation succeeds or fails as a whole.
- Extraction.Extract: returns the extracted names in archive order, where the program sorts them; a clash of a file with a directory of the same name is one of the failures any write may have; trailing dots, spaces and letter case of other platforms' paths are not modelled.
- ExtractionPlan.AcceptedArchive: which of several invalid checksum entries is reported first is not modelled.
- Staging and collecting the files of a profile for an export: directory walking with skips, no protocol.
- The rolling, manual and pre-import copies of the profile file: only whether making the copy fails.
- An install while a write is under way: the write's own end follows it, so only its failing changes anything beyond an install before the write; a succeeding one is the event OverwriteLoad.
- ProfileNormaliser.EnvIsLawful: the dates stored in site permissions are one value per run.
- The validation of operation ids, receipts and extension results by field: predicates of the engine's environment.
- Texts that exceed the size limit of the profile file: one of the failures a write may have.
- ProfileNormal.NormalizedIsClosed: for lists of records only; a stored list that holds null makes the program throw before the references are looked at.
- The guards of single fields of stored records: abstract, except the title length, the address and the ids that the proofs need.
- The side panel choice, the boolean view flags and the migration of single legacy settings beyond the ones named in ProfileSettings: one reading settles them.
- JsonText.JsonIsLawful: characters are Unicode scalar values, so an unpaired surrogate, which JSON text escapes, does not occur.
- AstReports.ReportedIff: the violations are an enumeration; the program prefixes each with the path of the file.
- The fallback scan by regular expression for scripts that do not parse, and the checks of manifests and HTML.
- Electron windows, permissions, updater, Video & Audio service, notices and feature gates.
