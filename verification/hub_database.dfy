/** The three release tables of the Extensions Hub and every batch of conditional
    statements a request runs on them, statement by statement.  A batch is one atomic
    step; `ok` is the handler's own test of the reported change counts. */
module HubDatabase {
  import opened Options
  import opened SemVer

  type ExtensionId = string
  type ReleaseId = string
  type SubmissionId = string

  /** Object-store keys.  The path template separates its parts with '/', which none of
      the parts may contain, so a key determines its parts. */
  datatype ObjectKey =
    | StagingKey(extension: ExtensionId, release: ReleaseId, nonce: nat)
    | PackageKey(extension: ExtensionId, version: Version, sha256: string)

  datatype ListingStatus = ListingDraft | ListingPending | ListingPublished | ListingSuspended

  datatype Listing = Listing(status: ListingStatus, current: Option<ReleaseId>)

  datatype ReleaseStatus = Draft | Pending | Reviewing | Published | Rejected | Changes | Yanked

  datatype Descriptor = Descriptor(extension: ExtensionId, version: Version, packageUrl: ObjectKey, sha256: string, publishedAt: nat)

  datatype Artifact = Artifact(packageKey: ObjectKey, sha256: string, descriptor: Descriptor)

  datatype Release = Release(extension: ExtensionId, version: Version, stagingKey: Option<ObjectKey>,
                             artifact: Option<Artifact>, status: ReleaseStatus, submittedAt: Option<nat>)

  /** The stored status texts.  `RejectText` is the text 'reject', which the table's
      CHECK list ('pending','reviewing','approved','rejected','changes','withdrawn')
      does not contain. */
  datatype SubmissionStatus = SubPending | SubReviewing | SubApproved | SubRejected | SubChanges | SubWithdrawn | RejectText

  predicate PassesCheck(status: SubmissionStatus) {
    !status.RejectText?
  }

  datatype Submission = Submission(release: ReleaseId, status: SubmissionStatus, submittedAt: nat, resolvedAt: Option<nat>)

  datatype Database = Database(listings: map<ExtensionId, Listing>, releases: map<ReleaseId, Release>,
                               submissions: map<SubmissionId, Submission>)

  /** The tables after a batch, and whether the handler accepts the change counts.
      A batch that violates a constraint is rolled back: unchanged tables, not ok. */
  datatype Batch = Batch(db: Database, ok: bool)

  const EMPTY := Database(map[], map[], map[])

  predicate Resubmittable(status: ReleaseStatus) {
    status == Draft || status == Changes || status == Rejected
  }

  function CurrentOf(db: Database, extension: ExtensionId): Option<ReleaseId> {
    if extension in db.listings then db.listings[extension].current else None
  }

  function SetListing(db: Database, id: ExtensionId, row: Listing): Database {
    db.(listings := db.listings[id := row])
  }

  function SetRelease(db: Database, id: ReleaseId, row: Release): Database {
    db.(releases := db.releases[id := row])
  }

  function SetSubmission(db: Database, id: SubmissionId, row: Submission): Database {
    db.(submissions := db.submissions[id := row])
  }

  /** `CASE WHEN current_release_id IS NULL THEN status ELSE <unchanged> END`. */
  function SetUnpublishedStatus(db: Database, extension: ExtensionId, status: ListingStatus): Database {
    if extension in db.listings && db.listings[extension].current.None?
    then SetListing(db, extension, db.listings[extension].(status := status))
    else db
  }

  function CreateListing(db: Database, extension: ExtensionId): Batch {
    if extension in db.listings then Batch(db, false)
    else Batch(SetListing(db, extension, Listing(ListingDraft, None)), true)
  }

  // ---- Upload ----

  predicate VersionTaken(db: Database, extension: ExtensionId, version: Version) {
    exists r :: r in db.releases && db.releases[r].extension == extension && db.releases[r].version == version
  }

  /** INSERT of a new draft, conditional on the current release seen by the request. */
  function InsertRelease(db: Database, release: ReleaseId, extension: ExtensionId, version: Version,
                         key: ObjectKey, seenCurrent: Option<ReleaseId>): Batch {
    if extension !in db.listings || db.listings[extension].current != seenCurrent then Batch(db, false)
    else if release in db.releases || VersionTaken(db, extension, version) then Batch(db, false)
    else Batch(SetRelease(db, release, Release(extension, version, Some(key), None, Draft, None)), true)
  }

  /** Pending submissions of a release become withdrawn. */
  function Withdraw(db: Database, release: ReleaseId, now: nat): Database {
    db.(submissions := map s | s in db.submissions ::
      if db.submissions[s].release == release && db.submissions[s].status == SubPending
      then db.submissions[s].(status := SubWithdrawn, resolvedAt := Some(now))
      else db.submissions[s])
  }

  predicate ReplaceGuard(db: Database, release: ReleaseId, seenKey: Option<ObjectKey>, seenCurrent: Option<ReleaseId>) {
    && release in db.releases
    && db.releases[release].stagingKey == seenKey
    && Resubmittable(db.releases[release].status)
    && db.releases[release].extension in db.listings
    && db.listings[db.releases[release].extension].current == seenCurrent
  }

  /** Re-upload of an existing draft. */
  function ReplaceRelease(db: Database, release: ReleaseId, key: ObjectKey, seenKey: Option<ObjectKey>,
                          seenCurrent: Option<ReleaseId>, now: nat): Batch {
    var hit := ReplaceGuard(db, release, seenKey, seenCurrent);
    var db1 := if hit
               then SetRelease(db, release, db.releases[release].(stagingKey := Some(key), status := Draft, submittedAt := None))
               else db;
    var db2 := if release in db1.releases && db1.releases[release].stagingKey == Some(key) then Withdraw(db1, release, now) else db1;
    Batch(db2, hit)
  }

  // ---- Submit ----

  predicate SubmitGuard(db: Database, release: ReleaseId, seenKey: ObjectKey, seenCurrent: Option<ReleaseId>) {
    && release in db.releases
    && db.releases[release].stagingKey == Some(seenKey)
    && Resubmittable(db.releases[release].status)
    && CurrentOf(db, db.releases[release].extension) == seenCurrent
  }

  predicate SubmissionFor(db: Database, submission: SubmissionId, release: ReleaseId) {
    submission in db.submissions && db.submissions[submission].release == release
  }

  predicate PendingAt(db: Database, release: ReleaseId, now: nat) {
    release in db.releases && db.releases[release].status == Pending && db.releases[release].submittedAt == Some(now)
  }

  predicate HasPendingSubmission(db: Database, release: ReleaseId) {
    exists s :: s in db.submissions && db.submissions[s].release == release && db.submissions[s].status == SubPending
  }

  /** The upsert on the submissions table: the row of the release if there is one, a
      new row otherwise.  None when the new id belongs to another release's row. */
  ghost function Upsert(db: Database, newId: SubmissionId, release: ReleaseId, now: nat): Option<Database> {
    if exists s :: SubmissionFor(db, s, release) then
      var s :| SubmissionFor(db, s, release);
      Some(SetSubmission(db, s, Submission(release, SubPending, now, None)))
    else if newId in db.submissions then None
    else Some(SetSubmission(db, newId, Submission(release, SubPending, now, None)))
  }

  ghost function Submit(db: Database, release: ReleaseId, extension: ExtensionId, seenKey: ObjectKey,
                        seenCurrent: Option<ReleaseId>, newId: SubmissionId, now: nat): Batch {
    var hit := SubmitGuard(db, release, seenKey, seenCurrent);
    var db1 := if hit
               then SetRelease(db, release, db.releases[release].(status := Pending, submittedAt := Some(now)))
               else db;
    var inserts := PendingAt(db1, release, now) && !HasPendingSubmission(db1, release);
    var upserted := if inserts then Upsert(db1, newId, release, now) else Some(db1);
    if upserted.None? then Batch(db, false)
    else
      var db2 := upserted.value;
      var db3 := if PendingAt(db2, release, now) then SetUnpublishedStatus(db2, extension, ListingPending) else db2;
      Batch(db3, hit && inserts)
  }

  // ---- Review ----

  predicate SubmissionIs(db: Database, submission: SubmissionId, status: SubmissionStatus) {
    submission in db.submissions && db.submissions[submission].status == status
  }

  predicate ReleaseIs(db: Database, release: ReleaseId, status: ReleaseStatus) {
    release in db.releases && db.releases[release].status == status
  }

  function SetReleaseStatus(db: Database, release: ReleaseId, status: ReleaseStatus): Database {
    if release in db.releases then SetRelease(db, release, db.releases[release].(status := status)) else db
  }

  function Claim(db: Database, submission: SubmissionId, release: ReleaseId, now: nat): Batch {
    var hit1 := SubmissionIs(db, submission, SubPending) && ReleaseIs(db, release, Pending);
    var db1 := if hit1
               then SetSubmission(db, submission, db.submissions[submission].(status := SubReviewing, resolvedAt := Some(now)))
               else db;
    var hit2 := ReleaseIs(db1, release, Pending) && SubmissionIs(db1, submission, SubReviewing)
                && db1.submissions[submission].resolvedAt == Some(now);
    var db2 := if hit2 then SetReleaseStatus(db1, release, Reviewing) else db1;
    Batch(db2, hit1 && hit2)
  }

  predicate ApproveGuard(db: Database, submission: SubmissionId, release: ReleaseId, extension: ExtensionId,
                         seenCurrent: Option<ReleaseId>) {
    && extension in db.listings && db.listings[extension].current == seenCurrent
    && ReleaseIs(db, release, Reviewing) && db.releases[release].extension == extension
    && SubmissionIs(db, submission, SubReviewing) && db.submissions[submission].release == release
  }

  /** The three guarded updates of an approval, in order. */
  function Approve(db: Database, submission: SubmissionId, release: ReleaseId, extension: ExtensionId,
                   seenCurrent: Option<ReleaseId>, artifact: Artifact, now: nat): Batch {
    var hit1 := ApproveGuard(db, submission, release, extension, seenCurrent);
    var db1 := if hit1 then SetListing(db, extension, Listing(ListingPublished, Some(release))) else db;
    var hit2 := ReleaseIs(db1, release, Reviewing) && CurrentOf(db1, extension) == Some(release);
    var db2 := if hit2
               then SetRelease(db1, release, db1.releases[release].(artifact := Some(artifact), status := Published))
               else db1;
    var hit3 := SubmissionIs(db2, submission, SubReviewing) && ReleaseIs(db2, release, Published);
    var db3 := if hit3
               then SetSubmission(db2, submission, db2.submissions[submission].(status := SubApproved, resolvedAt := Some(now)))
               else db2;
    Batch(db3, hit1 && hit2 && hit3)
  }

  /** Reject or request changes.  The release update is not guarded; the submission
      update binds the action text, so 'reject' violates the CHECK list whenever it
      matches a row, and the whole batch is rolled back. */
  function Decide(db: Database, reject: bool, submission: SubmissionId, release: ReleaseId,
                  extension: ExtensionId, now: nat): Batch {
    var db1 := SetReleaseStatus(db, release, if reject then Rejected else Changes);
    var text := if reject then RejectText else SubChanges;
    var hit := SubmissionIs(db1, submission, SubReviewing);
    if hit && !PassesCheck(text) then Batch(db, false)
    else
      var db2 := if hit
                 then SetSubmission(db1, submission, db1.submissions[submission].(status := text, resolvedAt := Some(now)))
                 else db1;
      Batch(SetUnpublishedStatus(db2, extension, ListingDraft), true)
  }

  /** The catch block of a review. */
  function Rollback(db: Database, submission: SubmissionId, release: ReleaseId): Database {
    var db1 := if SubmissionIs(db, submission, SubReviewing)
               then SetSubmission(db, submission, db.submissions[submission].(status := SubPending, resolvedAt := None))
               else db;
    if ReleaseIs(db1, release, Reviewing) then SetReleaseStatus(db1, release, Pending) else db1
  }

  // ---- Yank, suspend, sweep ----

  /** The yank update is not guarded. */
  function Yank(db: Database, release: ReleaseId): Database {
    SetReleaseStatus(db, release, Yanked)
  }

  function Suspend(db: Database, extension: ExtensionId): Batch {
    if extension in db.listings && db.listings[extension].status == ListingPublished
    then Batch(SetListing(db, extension, db.listings[extension].(status := ListingSuspended)), true)
    else Batch(db, false)
  }

  /** Minutes in the model's clock; a claim older than this is taken back. */
  const LEASE: nat := 60

  predicate LeaseExpired(row: Submission, now: nat) {
    row.status == SubReviewing && row.resolvedAt.Some? && row.resolvedAt.value + LEASE < now
  }

  function Sweep(db: Database, now: nat): Database {
    var db1 := db.(submissions := map s | s in db.submissions ::
      if LeaseExpired(db.submissions[s], now)
      then db.submissions[s].(status := SubPending, resolvedAt := None)
      else db.submissions[s]);
    db1.(releases := map r | r in db1.releases ::
      if db1.releases[r].status == Reviewing && HasPendingSubmission(db1, r)
      then db1.releases[r].(status := Pending)
      else db1.releases[r])
  }
}
