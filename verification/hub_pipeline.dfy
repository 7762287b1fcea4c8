/** That the pipeline does publish: an undisturbed upload, submission and approval of a version, from any sound
    state, ends with the version current exactly when it has precedence over the current release. */
module HubPipeline {
  import opened Options
  import opened SemVer
  import opened HubDatabase
  import opened HubInvariant
  import opened HubProtocol
  import opened HubSafety
  import opened HubBatches
  import opened HubReviews
  import opened HubOutcomes

  /** The version may follow the extension's current release, if there is one. */
  ghost predicate MayFollow(db: Database, e: ExtensionId, version: Version) {
    CurrentOf(db, e).Some? ==> CurrentOf(db, e).value in db.releases && HasPrecedence(version, db.releases[CurrentOf(db, e).value].version)
  }

  /** Nothing in the state has the ids and the version that a new release is about to use. */
  ghost predicate IsNew(s: State, e: ExtensionId, version: Version, release: ReleaseId, submission: SubmissionId) {
    && e in s.db.listings && release !in s.db.releases && submission !in s.db.submissions
    && forall r | r in s.db.releases :: !(s.db.releases[r].extension == e && s.db.releases[r].version == version)
  }

  // ---- Upload ----

  function UploadOf(s: State, e: ExtensionId, version: Version, files: string): Upload {
    Upload(e, version, files, CurrentOf(s.db, e))
  }

  lemma {:induction false} StartsUpload(sha: Blob -> string, s: State, e: ExtensionId, version: Version, files: string)
    requires e in s.db.listings
    ensures Apply(sha, s, StartUpload(e, version, files)) == Start(s, UploadStarted(UploadOf(s, e, version, files)))
  {
  }

  /** The version test of an upload. */
  lemma {:induction false} MayUploadIff(db: Database, upload: Upload)
    requires TablesOk(db)
    ensures MayUpload(db, upload) <==> MayFollow(db, upload.extension, upload.version)
  {
    var current := CurrentOf(db, upload.extension);
    if current.Some? {
      assert ListingOk(db, upload.extension);
      GtIff(upload.version, db.releases[current.value].version);
    }
  }

  lemma {:induction false} ChecksUpload(sha: Blob -> string, s: State, id: RequestId, upload: Upload)
    requires TablesOk(s.db) && id in s.requests && s.requests[id] == UploadStarted(upload)
    ensures Apply(sha, s, CheckUploadVersion(id))
         == if MayFollow(s.db, upload.extension, upload.version) then Go(s, id, UploadChecked(upload)) else Done(s, id)
  {
    MayUploadIff(s.db, upload);
    assert Apply(sha, s, CheckUploadVersion(id)) == CheckUploadStep(s, id, s.requests[id]);
  }

  lemma {:induction false} PlansUpload(sha: Blob -> string, s: State, id: RequestId, upload: Upload, release: ReleaseId)
    requires id in s.requests && s.requests[id] == UploadChecked(upload)
    requires forall r | r in s.db.releases :: !(s.db.releases[r].extension == upload.extension && s.db.releases[r].version == upload.version)
    ensures Apply(sha, s, ReadExisting(id, release)) == Go(s, id, UploadPlanned(upload, Insert(release)))
  {
  }

  lemma {:induction false} PutsUpload(sha: Blob -> string, s: State, id: RequestId, upload: Upload, release: ReleaseId)
    requires id in s.requests && s.requests[id] == UploadPlanned(upload, Insert(release))
    ensures Apply(sha, s, PutStaging(id))
         == Go(s.(store := s.store[StagingKey(upload.extension, release, id) := Staged(upload.extension, upload.version, upload.files)]),
               id, UploadStored(upload, Insert(release)))
  {
  }

  lemma {:induction false} CommitsUpload(sha: Blob -> string, s: State, id: RequestId, upload: Upload,
                                         release: ReleaseId)
    requires id in s.requests && s.requests[id] == UploadStored(upload, Insert(release))
    requires upload.extension in s.db.listings && upload.seenCurrent == CurrentOf(s.db, upload.extension) && release !in s.db.releases
    requires forall r | r in s.db.releases :: !(s.db.releases[r].extension == upload.extension && s.db.releases[r].version == upload.version)
    ensures Apply(sha, s, CommitUpload(id))
         == Done(s.(db := s.db.(releases := s.db.releases[release :=
              Release(upload.extension, upload.version, Some(StagingKey(upload.extension, release, id)), None, Draft, None)])), id)
  {
    InsertIff(s.db, release, upload.extension, upload.version, StagingKey(upload.extension, release, id), upload.seenCurrent);
  }

  /** An upload without a disturbance. */
  ghost function Uploaded(sha: Blob -> string, s: State, e: ExtensionId, version: Version, files: string, release: ReleaseId): State {
    var s1 := Apply(sha, s, StartUpload(e, version, files));
    var s2 := Apply(sha, s1, CheckUploadVersion(s.next));
    var s3 := Apply(sha, s2, ReadExisting(s.next, release));
    Apply(sha, Apply(sha, s3, PutStaging(s.next)), CommitUpload(s.next))
  }

  /** The state with the draft, or just without the request when the version may not follow. */
  ghost function WithDraft(s: State, e: ExtensionId, version: Version, files: string, release: ReleaseId): State {
    if MayFollow(s.db, e, version) then
      var key := StagingKey(e, release, s.next);
      s.(db := s.db.(releases := s.db.releases[release := Release(e, version, Some(key), None, Draft, None)]),
         store := s.store[key := Staged(e, version, files)], next := s.next + 1)
    else s.(next := s.next + 1)
  }

  lemma {:induction false} GoesBy(requests: map<RequestId, Request>, id: RequestId, a: Request, b: Request)
    requires id !in requests
    ensures requests[id := a][id := b] == requests[id := b] && requests[id := a] - {id} == requests
  {
  }

  lemma {:induction false} NoRequestNoStep(sha: Blob -> string, s: State, e: Event)
    requires IsRequestStep(e) && e.id !in s.requests
    ensures Apply(sha, s, e) == s
  {
  }

  lemma {:induction false} UploadIsDropped(sha: Blob -> string, s: State, e: ExtensionId, version: Version,
                                           files: string, release: ReleaseId)
    requires TablesOk(s.db) && s.next !in s.requests && e in s.db.listings && !MayFollow(s.db, e, version)
    ensures Uploaded(sha, s, e, version, files, release) == s.(next := s.next + 1)
  {
    var upload := UploadOf(s, e, version, files);
    StartsUpload(sha, s, e, version, files);
    var s1 := Start(s, UploadStarted(upload));
    ChecksUpload(sha, s1, s.next, upload);
    GoesBy(s.requests, s.next, UploadStarted(upload), UploadStarted(upload));
    var s2 := Done(s1, s.next);
    NoRequestNoStep(sha, s2, ReadExisting(s.next, release));
    NoRequestNoStep(sha, s2, PutStaging(s.next));
    NoRequestNoStep(sha, s2, CommitUpload(s.next));
  }

  /** The request `id` is the only thing the upload has added so far. */
  function WithRequest(s: State, request: Request): State {
    s.(requests := s.requests[s.next := request], next := s.next + 1)
  }

  lemma {:induction false} UploadIsPlanned(sha: Blob -> string, s: State, e: ExtensionId, version: Version,
                                           files: string, release: ReleaseId,
                                           submission: SubmissionId)
    requires TablesOk(s.db) && s.next !in s.requests && IsNew(s, e, version, release, submission) && MayFollow(s.db, e, version)
    ensures Apply(sha, Apply(sha, Apply(sha, s, StartUpload(e, version, files)), CheckUploadVersion(s.next)), ReadExisting(s.next, release))
         == WithRequest(s, UploadPlanned(UploadOf(s, e, version, files), Insert(release)))
  {
    var upload, id := UploadOf(s, e, version, files), s.next;
    StartsUpload(sha, s, e, version, files);
    ChecksUpload(sha, Start(s, UploadStarted(upload)), id, upload);
    GoesBy(s.requests, id, UploadStarted(upload), UploadChecked(upload));
    PlansUpload(sha, WithRequest(s, UploadChecked(upload)), id, upload, release);
    GoesBy(s.requests, id, UploadChecked(upload), UploadPlanned(upload, Insert(release)));
  }

  lemma {:induction false} PlannedIsStored(sha: Blob -> string, s: State, upload: Upload, release: ReleaseId)
    requires s.next !in s.requests && upload.extension in s.db.listings && upload.seenCurrent == CurrentOf(s.db, upload.extension)
    requires release !in s.db.releases
    requires forall r | r in s.db.releases :: !(s.db.releases[r].extension == upload.extension && s.db.releases[r].version == upload.version)
    ensures var key := StagingKey(upload.extension, release, s.next);
      Apply(sha, Apply(sha, WithRequest(s, UploadPlanned(upload, Insert(release))), PutStaging(s.next)), CommitUpload(s.next))
      == s.(db := s.db.(releases := s.db.releases[release := Release(upload.extension, upload.version, Some(key), None, Draft, None)]),
            store := s.store[key := Staged(upload.extension, upload.version, upload.files)], next := s.next + 1)
  {
    var planned, stored := UploadPlanned(upload, Insert(release)), UploadStored(upload, Insert(release));
    PutsUpload(sha, WithRequest(s, planned), s.next, upload, release);
    GoesBy(s.requests, s.next, planned, stored);
    GoesBy(s.requests, s.next, stored, stored);
    var key := StagingKey(upload.extension, release, s.next);
    CommitsUpload(sha, WithRequest(s.(store := s.store[key := Staged(upload.extension, upload.version, upload.files)]), stored), s.next, upload, release);
  }

  lemma {:induction false} UploadIsStored(sha: Blob -> string, s: State, e: ExtensionId, version: Version,
                                          files: string, release: ReleaseId,
                                          submission: SubmissionId)
    requires TablesOk(s.db) && s.next !in s.requests && IsNew(s, e, version, release, submission) && MayFollow(s.db, e, version)
    ensures Uploaded(sha, s, e, version, files, release) == WithDraft(s, e, version, files, release)
  {
    UploadIsPlanned(sha, s, e, version, files, release, submission);
    PlannedIsStored(sha, s, UploadOf(s, e, version, files), release);
  }

  /** An upload leaves the draft and its package exactly when the version may follow. */
  lemma {:induction false} UploadLeaves(sha: Blob -> string, s: State, e: ExtensionId, version: Version,
                                        files: string, release: ReleaseId,
                                        submission: SubmissionId)
    requires StateOk(sha, s) && IsNew(s, e, version, release, submission)
    ensures Uploaded(sha, s, e, version, files, release) == WithDraft(s, e, version, files, release)
  {
    assert s.next !in s.requests;
    if MayFollow(s.db, e, version) {
      UploadIsStored(sha, s, e, version, files, release, submission);
    } else {
      UploadIsDropped(sha, s, e, version, files, release);
    }
  }

  // ---- Submission ----

  ghost function SubmittedBy(sha: Blob -> string, s: State, release: ReleaseId, submission: SubmissionId): State {
    Apply(sha, Apply(sha, s, StartSubmit(release)), CommitSubmit(s.next, submission, s.clock))
  }

  /** An open release without a submission yet, under the key, of a listed extension. */
  ghost predicate IsOpen(db: Database, release: ReleaseId, key: ObjectKey, submission: SubmissionId) {
    && release in db.releases && db.releases[release].stagingKey == Some(key) && db.releases[release].status == Draft
    && submission !in db.submissions && forall t | t in db.submissions :: db.submissions[t].release != release
  }

  lemma {:induction false} StartsSubmit(sha: Blob -> string, s: State, release: ReleaseId, key: ObjectKey,
                                        submission: SubmissionId)
    requires IsOpen(s.db, release, key, submission)
    ensures Apply(sha, s, StartSubmit(release))
         == WithRequest(s, SubmitRead(release, s.db.releases[release].extension, key, CurrentOf(s.db, s.db.releases[release].extension)))
  {
  }

  lemma {:induction false} CommitsSubmit(sha: Blob -> string, s: State, id: RequestId, request: Request,
                                         submission: SubmissionId)
    requires id in s.requests && s.requests[id] == request && request.SubmitRead?
    ensures Apply(sha, s, CommitSubmit(id, submission, s.clock))
         == Done(s.(db := Submit(s.db, request.release, request.extension, request.seenKey, request.seenCurrent, submission, s.clock).db), id)
  {
  }

  /** The submission leaves the pair pending and the rest as it was. */
  lemma {:induction false} SubmitLeaves(sha: Blob -> string, s: State, release: ReleaseId, key: ObjectKey,
                                        submission: SubmissionId)
    requires TablesOk(s.db) && s.next !in s.requests && IsOpen(s.db, release, key, submission)
    ensures var t := SubmittedBy(sha, s, release, submission);
      && t.store == s.store && t.requests == s.requests && t.next == s.next + 1 && t.clock == s.clock
      && t.db.releases == s.db.releases[release := s.db.releases[release].(status := Pending, submittedAt := Some(s.clock))]
      && t.db.submissions == s.db.submissions[submission := Submission(release, SubPending, s.clock, None)]
      && ListingFollows(s.db, t.db, s.db.releases[release].extension, ListingPending)
      && TablesOk(t.db)
  {
    var e := s.db.releases[release].extension;
    SubmitKeeps(s.db, release, e, key, CurrentOf(s.db, e), submission, s.clock);
    var request := SubmitRead(release, e, key, CurrentOf(s.db, e));
    StartsSubmit(sha, s, release, key, submission);
    CommitsSubmit(sha, WithRequest(s, request), s.next, request, submission);
    GoesBy(s.requests, s.next, request, request);
    SubmitIff(s.db, release, e, key, CurrentOf(s.db, e), submission, s.clock);
    var row := SubmitWrites(s.db, release, e, key, CurrentOf(s.db, e), submission, s.clock);
    assert row == submission;
  }

  // ---- Review ----

  ghost function ReviewedBy(sha: Blob -> string, s: State, submission: SubmissionId, signature: string): State {
    var claimed := Apply(sha, Apply(sha, s, StartReview(submission, Approval)), CommitClaim(s.next, s.clock));
    var built := Apply(sha, Apply(sha, claimed, CheckApproval(s.next)), BuildPackage(s.next, signature));
    Apply(sha, Apply(sha, built, PutPackage(s.next)), CommitApproval(s.next))
  }

  /** A pending pair whose package is stored. */
  ghost predicate IsWaiting(s: State, submission: SubmissionId, release: ReleaseId, key: ObjectKey, files: string) {
    && submission in s.db.submissions && s.db.submissions[submission].release == release && s.db.submissions[submission].status == SubPending
    && release in s.db.releases && s.db.releases[release].status == Pending && s.db.releases[release].stagingKey == Some(key)
    && key in s.store && s.store[key] == Staged(s.db.releases[release].extension, s.db.releases[release].version, files)
  }

  function SnapOf(db: Database, submission: SubmissionId, release: ReleaseId): Snapshot
    requires release in db.releases
  {
    var row := db.releases[release];
    Snapshot(submission, release, row.extension, row.version, row.stagingKey, CurrentOf(db, row.extension))
  }

  /** The tables with the pair claimed. */
  function WithClaim(db: Database, submission: SubmissionId, release: ReleaseId, at: nat): Database
    requires submission in db.submissions && release in db.releases
  {
    db.(submissions := db.submissions[submission := db.submissions[submission].(status := SubReviewing, resolvedAt := Some(at))],
        releases := db.releases[release := db.releases[release].(status := Reviewing)])
  }

  /** A submission that waits for review. */
  predicate IsPending(db: Database, submission: SubmissionId, release: ReleaseId) {
    submission in db.submissions && db.submissions[submission].release == release && db.submissions[submission].status == SubPending
  }

  lemma {:induction false} ReadsPending(sha: Blob -> string, s: State, submission: SubmissionId, release: ReleaseId,
                                        decision: Decision)
    requires TablesOk(s.db) && IsPending(s.db, submission, release)
    ensures release in s.db.releases
    ensures Apply(sha, s, StartReview(submission, decision)) == WithRequest(s, ReviewRead(SnapOf(s.db, submission, release), decision))
  {
    OnlySubmission(s.db, submission, release);
  }

  lemma {:induction false} ClaimIsHeld(sha: Blob -> string, s: State, snap: Snapshot, decision: Decision, batch: Batch)
    requires s.next !in s.requests && batch == Claim(s.db, snap.submission, snap.release, s.clock) && batch.ok
    ensures Apply(sha, WithRequest(s, ReviewRead(snap, decision)), CommitClaim(s.next, s.clock))
         == WithRequest(s.(db := batch.db), Claimed(snap, s.clock, decision))
  {
    GoesBy(s.requests, s.next, ReviewRead(snap, decision), Claimed(snap, s.clock, decision));
  }

  lemma {:induction false} ReviewIsHeld(sha: Blob -> string, s: State, submission: SubmissionId, release: ReleaseId,
                                        decision: Decision)
    requires TablesOk(s.db) && s.next !in s.requests && IsPending(s.db, submission, release)
    ensures release in s.db.releases
    ensures Apply(sha, Apply(sha, s, StartReview(submission, decision)), CommitClaim(s.next, s.clock))
         == WithRequest(s.(db := WithClaim(s.db, submission, release, s.clock)), Claimed(SnapOf(s.db, submission, release), s.clock, decision))
  {
    ReadsPending(sha, s, submission, release, decision);
    ClaimIff(s.db, submission, release, s.clock);
    ClaimIsHeld(sha, s, SnapOf(s.db, submission, release), decision, Claim(s.db, submission, release, s.clock));
  }

  lemma {:induction false} ChecksApproval(sha: Blob -> string, s: State, id: RequestId, snap: Snapshot, at: nat)
    requires id in s.requests && s.requests[id] == Claimed(snap, at, Approval)
    ensures Apply(sha, s, CheckApproval(id)) == Go(s, id,
      if snap.current.Some? ==>
           && snap.current.value in s.db.releases && s.db.releases[snap.current.value].status == Published
           && HasPrecedence(snap.version, s.db.releases[snap.current.value].version)
      then VersionChecked(snap, at) else ReviewFailed(snap, at))
  {
    if snap.current.Some? && snap.current.value in s.db.releases {
      GtIff(snap.version, s.db.releases[snap.current.value].version);
    }
  }

  lemma {:induction false} BuildsPackage(sha: Blob -> string, s: State, id: RequestId, snap: Snapshot, at: nat,
                                         signature: string)
    requires id in s.requests && s.requests[id] == VersionChecked(snap, at)
    ensures Apply(sha, s, BuildPackage(id, signature)) == Go(s, id,
      if snap.stagingKey.Some? && snap.stagingKey.value in s.store
         && s.store[snap.stagingKey.value].Staged?
         && s.store[snap.stagingKey.value] == Staged(snap.extension, snap.version, s.store[snap.stagingKey.value].files)
      then Built(snap, at, Official(snap.extension, snap.version, s.store[snap.stagingKey.value].files, signature), s.clock)
      else ReviewFailed(snap, at))
  {
  }

  lemma {:induction false} PutsPackage(sha: Blob -> string, s: State, id: RequestId, snap: Snapshot, at: nat,
                                       official: Blob, published: nat)
    requires id in s.requests && s.requests[id] == Built(snap, at, official, published)
    ensures Apply(sha, s, PutPackage(id))
         == Go(s.(store := s.store[PackageKey(snap.extension, snap.version, sha(official)) := official]), id, Stored(snap, at, official, published))
  {
  }

  /** What an approved release names: its package, by extension, version and hash, and a descriptor of just that. */
  function ArtifactOfPackage(sha: Blob -> string, e: ExtensionId, version: Version, official: Blob, published: nat): Artifact {
    var key := PackageKey(e, version, sha(official));
    Artifact(key, sha(official), Descriptor(e, version, key, sha(official), published))
  }

  /** The tables with the release approved. */
  function WithApproval(db: Database, submission: SubmissionId, release: ReleaseId, artifact: Artifact, at: nat): Database
    requires submission in db.submissions && release in db.releases
  {
    Database(db.listings[db.releases[release].extension := Listing(ListingPublished, Some(release))],
             db.releases[release := db.releases[release].(artifact := Some(artifact), status := Published)],
             db.submissions[submission := db.submissions[submission].(status := SubApproved, resolvedAt := Some(at))])
  }

  lemma {:induction false} ApprovalIsBatch(sha: Blob -> string, s: State, id: RequestId, request: Request, batch: Batch)
    requires id in s.requests && s.requests[id] == request && request.Stored?
    requires var snap := request.snap;
      batch == Approve(s.db, snap.submission, snap.release, snap.extension, snap.current,
                       ArtifactOfPackage(sha, snap.extension, snap.version, request.official, request.publishedAt), request.publishedAt)
    ensures Apply(sha, s, CommitApproval(id)) == AfterApproval(s, id, request, batch)
  {
  }

  lemma {:induction false} AfterApproved(s: State, id: RequestId, request: Request, batch: Batch)
    requires request.Stored? && request.snap.stagingKey.Some? && batch.ok
    ensures AfterApproval(s, id, request, batch) == Go(s.(db := batch.db), id, StagingCleanup(request.snap.stagingKey.value))
  {
  }

  lemma {:induction false} CommitsApproval(sha: Blob -> string, s: State, id: RequestId, snap: Snapshot, at: nat,
                                           official: Blob, published: nat)
    requires TablesOk(s.db) && id in s.requests && s.requests[id] == Stored(snap, at, official, published) && snap.stagingKey.Some?
    requires snap.submission in s.db.submissions && s.db.submissions[snap.submission] == Submission(snap.release, SubReviewing, s.db.submissions[snap.submission].submittedAt, Some(at))
    requires snap.release in s.db.releases && s.db.releases[snap.release].status == Reviewing && s.db.releases[snap.release].extension == snap.extension
    requires CurrentOf(s.db, snap.extension) == snap.current
    ensures Apply(sha, s, CommitApproval(id))
         == Go(s.(db := WithApproval(s.db, snap.submission, snap.release, ArtifactOfPackage(sha, snap.extension, snap.version, official, published), published)),
               id, StagingCleanup(snap.stagingKey.value))
  {
    var artifact := ArtifactOfPackage(sha, snap.extension, snap.version, official, published);
    var batch := Approve(s.db, snap.submission, snap.release, snap.extension, snap.current, artifact, published);
    ApprovalIsBatch(sha, s, id, Stored(snap, at, official, published), batch);
    ApproveIff(s.db, snap.submission, snap.release, snap.extension, snap.current, artifact, published);
    AfterApproved(s, id, Stored(snap, at, official, published), batch);
  }

  lemma {:induction false} ClaimedIsBuilt(sha: Blob -> string, s: State, snap: Snapshot, at: nat, files: string,
                                          signature: string)
    requires s.next !in s.requests
    requires snap.current.Some? ==>
      && snap.current.value in s.db.releases && s.db.releases[snap.current.value].status == Published
      && HasPrecedence(snap.version, s.db.releases[snap.current.value].version)
    requires snap.stagingKey.Some? && snap.stagingKey.value in s.store && s.store[snap.stagingKey.value] == Staged(snap.extension, snap.version, files)
    ensures Apply(sha, Apply(sha, WithRequest(s, Claimed(snap, at, Approval)), CheckApproval(s.next)), BuildPackage(s.next, signature))
         == WithRequest(s, Built(snap, at, Official(snap.extension, snap.version, files, signature), s.clock))
  {
    ChecksApproval(sha, WithRequest(s, Claimed(snap, at, Approval)), s.next, snap, at);
    GoesBy(s.requests, s.next, Claimed(snap, at, Approval), VersionChecked(snap, at));
    BuildsPackage(sha, WithRequest(s, VersionChecked(snap, at)), s.next, snap, at, signature);
    GoesBy(s.requests, s.next, VersionChecked(snap, at), Built(snap, at, Official(snap.extension, snap.version, files, signature), s.clock));
  }

  lemma {:induction false} BuiltIsPut(sha: Blob -> string, s: State, snap: Snapshot, at: nat, official: Blob)
    requires s.next !in s.requests
    ensures Apply(sha, WithRequest(s, Built(snap, at, official, s.clock)), PutPackage(s.next))
         == WithRequest(s.(store := s.store[PackageKey(snap.extension, snap.version, sha(official)) := official]), Stored(snap, at, official, s.clock))
  {
    var built, stored := Built(snap, at, official, s.clock), Stored(snap, at, official, s.clock);
    PutsPackage(sha, WithRequest(s, built), s.next, snap, at, official, s.clock);
    GoesBy(s.requests, s.next, built, stored);
  }

  /** The review holds its claim, and the extension's current release is the one it read. */
  predicate StillClaimed(db: Database, snap: Snapshot, at: nat) {
    && snap.stagingKey.Some?
    && snap.submission in db.submissions && db.submissions[snap.submission] == Submission(snap.release, SubReviewing, db.submissions[snap.submission].submittedAt, Some(at))
    && snap.release in db.releases && db.releases[snap.release].status == Reviewing && db.releases[snap.release].extension == snap.extension
    && CurrentOf(db, snap.extension) == snap.current
  }

  lemma {:induction false} PutIsApproved(sha: Blob -> string, s: State, snap: Snapshot, at: nat, official: Blob,
                                         published: nat)
    requires TablesOk(s.db) && s.next !in s.requests && StillClaimed(s.db, snap, at)
    ensures Apply(sha, WithRequest(s, Stored(snap, at, official, published)), CommitApproval(s.next))
         == WithRequest(s.(db := WithApproval(s.db, snap.submission, snap.release, ArtifactOfPackage(sha, snap.extension, snap.version, official, published), published)),
                        StagingCleanup(snap.stagingKey.value))
  {
    var stored := Stored(snap, at, official, published);
    CommitsApproval(sha, WithRequest(s, stored), s.next, snap, at, official, published);
    GoesBy(s.requests, s.next, stored, StagingCleanup(snap.stagingKey.value));
  }

  lemma {:induction false} BuiltIsApproved(sha: Blob -> string, s: State, snap: Snapshot, at: nat, official: Blob)
    requires TablesOk(s.db) && s.next !in s.requests && StillClaimed(s.db, snap, at)
    ensures Apply(sha, Apply(sha, WithRequest(s, Built(snap, at, official, s.clock)), PutPackage(s.next)), CommitApproval(s.next))
         == WithRequest(s.(db := WithApproval(s.db, snap.submission, snap.release, ArtifactOfPackage(sha, snap.extension, snap.version, official, s.clock), s.clock),
                           store := s.store[PackageKey(snap.extension, snap.version, sha(official)) := official]),
                        StagingCleanup(snap.stagingKey.value))
  {
    BuiltIsPut(sha, s, snap, at, official);
    PutIsApproved(sha, s.(store := s.store[PackageKey(snap.extension, snap.version, sha(official)) := official]), snap, at, official, s.clock);
  }

  /** The tables keep their invariant through a claim. */
  lemma {:induction false} ClaimIsSound(db: Database, submission: SubmissionId, release: ReleaseId, at: nat)
    requires TablesOk(db) && submission in db.submissions && db.submissions[submission].release == release && db.submissions[submission].status == SubPending
    ensures release in db.releases && TablesOk(WithClaim(db, submission, release, at))
  {
    ClaimAllOrNone(db, submission, release, at);
    ClaimIff(db, submission, release, at);
  }

  /** An approval of a waiting pair that may follow publishes it: it is the current release, and its package holds the files. */
  lemma {:induction false} ReviewLeaves(sha: Blob -> string, s: State, submission: SubmissionId, release: ReleaseId,
                                        key: ObjectKey, files: string,
                                        signature: string)
    requires TablesOk(s.db) && s.next !in s.requests && IsWaiting(s, submission, release, key, files)
    requires MayFollow(s.db, s.db.releases[release].extension, s.db.releases[release].version)
    ensures var row := s.db.releases[release];
      var official := Official(row.extension, row.version, files, signature);
      ReviewedBy(sha, s, submission, signature)
      == WithRequest(s.(db := WithApproval(WithClaim(s.db, submission, release, s.clock), submission, release,
                                           ArtifactOfPackage(sha, row.extension, row.version, official, s.clock), s.clock),
                        store := s.store[PackageKey(row.extension, row.version, sha(official)) := official]),
                     StagingCleanup(key))
  {
    var row := s.db.releases[release];
    var snap := SnapOf(s.db, submission, release);
    var claimed := s.(db := WithClaim(s.db, submission, release, s.clock));
    assert ReleaseOk(s.db, release);
    assert ListingOk(s.db, row.extension);
    ReviewIsHeld(sha, s, submission, release, Approval);
    ClaimIsSound(s.db, submission, release, s.clock);
    ClaimedIsBuilt(sha, claimed, snap, s.clock, files, signature);
    BuiltIsApproved(sha, claimed, snap, s.clock, Official(row.extension, row.version, files, signature));
  }

  // ---- From the upload to the publication ----

  ghost function Undisturbed(sha: Blob -> string, s: State, e: ExtensionId, version: Version, files: string, release: ReleaseId,
                            submission: SubmissionId, signature: string): State {
    ReviewedBy(sha, SubmittedBy(sha, Uploaded(sha, s, e, version, files, release), release, submission), submission, signature)
  }

  lemma {:induction false} DraftIsOpen(sha: Blob -> string, s: State, e: ExtensionId, version: Version,
                                       files: string, release: ReleaseId,
                                       submission: SubmissionId)
    requires StateOk(sha, s) && IsNew(s, e, version, release, submission) && MayFollow(s.db, e, version)
    ensures var u := WithDraft(s, e, version, files, release);
      TablesOk(u.db) && u.next !in u.requests && IsOpen(u.db, release, StagingKey(e, release, s.next), submission)
  {
    var key := StagingKey(e, release, s.next);
    InsertIff(s.db, release, e, version, key, CurrentOf(s.db, e));
    InsertKeeps(s.db, release, e, version, key, CurrentOf(s.db, e));
    forall t | t in s.db.submissions ensures s.db.submissions[t].release != release {
      assert SubmissionOk(s.db, t);
    }
  }

  lemma {:induction false} CurrentIsKept(db: Database, db': Database, f: ExtensionId, e: ExtensionId,
                                         status: ListingStatus)
    requires ListingFollows(db, db', f, status)
    ensures CurrentOf(db', e) == CurrentOf(db, e)
  {
  }

  /** What is in the tables and in the store of a published release. */
  ghost predicate IsPublished(sha: Blob -> string, t: State, e: ExtensionId, version: Version, release: ReleaseId, official: Blob) {
    && CurrentOf(t.db, e) == Some(release)
    && release in t.db.releases
    && var row := t.db.releases[release];
       && row.extension == e && row.version == version && row.status == Published
       && row.artifact.Some? && row.artifact.value.packageKey == PackageKey(e, version, sha(official)) && row.artifact.value.sha256 == sha(official)
       && row.artifact.value.packageKey in t.store && t.store[row.artifact.value.packageKey] == official
  }

  lemma {:induction false} ReviewPublishes(sha: Blob -> string, s: State, submission: SubmissionId,
                                           release: ReleaseId, key: ObjectKey, files: string,
                                           signature: string)
    requires TablesOk(s.db) && s.next !in s.requests && IsWaiting(s, submission, release, key, files)
    requires MayFollow(s.db, s.db.releases[release].extension, s.db.releases[release].version)
    ensures var row := s.db.releases[release];
      IsPublished(sha, ReviewedBy(sha, s, submission, signature), row.extension, row.version, release,
                  Official(row.extension, row.version, files, signature))
  {
    ReviewLeaves(sha, s, submission, release, key, files, signature);
  }

  lemma {:induction false} DraftIsPublished(sha: Blob -> string, s: State, e: ExtensionId, version: Version,
                                            release: ReleaseId, key: ObjectKey,
                                            files: string, submission: SubmissionId, signature: string)
    requires TablesOk(s.db) && s.next !in s.requests && s.next + 1 !in s.requests && IsOpen(s.db, release, key, submission)
    requires s.db.releases[release].extension == e && s.db.releases[release].version == version
    requires key in s.store && s.store[key] == Staged(e, version, files) && MayFollow(s.db, e, version)
    ensures IsPublished(sha, ReviewedBy(sha, SubmittedBy(sha, s, release, submission), submission, signature), e, version, release,
                        Official(e, version, files, signature))
  {
    var t := SubmittedBy(sha, s, release, submission);
    SubmitLeaves(sha, s, release, key, submission);
    CurrentIsKept(s.db, t.db, e, e, ListingPending);
    assert IsWaiting(t, submission, release, key, files);
    ReviewPublishes(sha, t, submission, release, key, files, signature);
  }

  lemma {:induction false} NothingFollows(sha: Blob -> string, s: State, release: ReleaseId,
                                          submission: SubmissionId, signature: string)
    requires s.next !in s.requests && release !in s.db.releases && submission !in s.db.submissions
    ensures ReviewedBy(sha, SubmittedBy(sha, s, release, submission), submission, signature) == s
  {
    assert Apply(sha, s, StartSubmit(release)) == s;
    NoRequestNoStep(sha, s, CommitSubmit(s.next, submission, s.clock));
    assert Apply(sha, s, StartReview(submission, Approval)) == s;
    NoRequestNoStep(sha, s, CommitClaim(s.next, s.clock));
    NoRequestNoStep(sha, s, CheckApproval(s.next));
    NoRequestNoStep(sha, s, BuildPackage(s.next, signature));
    NoRequestNoStep(sha, s, PutPackage(s.next));
    NoRequestNoStep(sha, s, CommitApproval(s.next));
  }

  lemma {:induction false} UploadIsPublished(sha: Blob -> string, s: State, e: ExtensionId, version: Version,
                                             files: string,
                                             release: ReleaseId, submission: SubmissionId, signature: string)
    requires StateOk(sha, s) && IsNew(s, e, version, release, submission) && MayFollow(s.db, e, version)
    ensures IsPublished(sha, Undisturbed(sha, s, e, version, files, release, submission, signature), e, version, release,
                        Official(e, version, files, signature))
  {
    UploadLeaves(sha, s, e, version, files, release, submission);
    DraftIsOpen(sha, s, e, version, files, release, submission);
    var u := WithDraft(s, e, version, files, release);
    CurrentIsOther(s, e, version, files, release);
    DraftIsPublished(sha, u, e, version, release, StagingKey(e, release, s.next), files, submission, signature);
  }

  lemma {:induction false} CurrentIsOther(s: State, e: ExtensionId, version: Version, files: string, release: ReleaseId)
    requires release !in s.db.releases && MayFollow(s.db, e, version)
    ensures MayFollow(WithDraft(s, e, version, files, release).db, e, version)
  {
  }

  /** From any sound state: a new version of a listed extension that is uploaded, submitted and approved without a disturbance
      is published, with the files that were uploaded, exactly when there is no current release or the version has precedence
      over it; otherwise nothing changes. */
  lemma {:induction false} NewVersionIsPublishedIff(sha: Blob -> string, s: State, e: ExtensionId, version: Version,
                                                    files: string,
                                                    release: ReleaseId, submission: SubmissionId, signature: string)
    requires StateOk(sha, s) && IsNew(s, e, version, release, submission)
    ensures var t := Undisturbed(sha, s, e, version, files, release, submission, signature);
      if CurrentOf(s.db, e).None? || HasPrecedence(version, s.db.releases[CurrentOf(s.db, e).value].version)
      then IsPublished(sha, t, e, version, release, Official(e, version, files, signature))
      else t.db == s.db && t.store == s.store && CurrentOf(t.db, e) != Some(release)
  {
    assert ListingOk(s.db, e);
    if MayFollow(s.db, e, version) {
      UploadIsPublished(sha, s, e, version, files, release, submission, signature);
    } else {
      UploadLeaves(sha, s, e, version, files, release, submission);
      NothingFollows(sha, WithDraft(s, e, version, files, release), release, submission, signature);
    }
  }
}
