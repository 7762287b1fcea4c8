/** Every event keeps the state invariant. */
module HubSteps {
  import opened Options
  import opened SemVer
  import opened HubDatabase
  import opened HubInvariant
  import opened HubBatches
  import opened HubReviews
  import opened HubProtocol
  import opened HubSafety

  // ---- Batches ----

  /** What the tables part of a batch step of request `id` guarantees. */
  ghost predicate TablesStep(sha: Blob -> string, s: State, db': Database, id: RequestId, own: Option<SubmissionId>) {
    && Keeps(s.db, db', own) && NoncesKept(s.db, db', id) && KeysIssued(db', s.next) && StoreOk(sha, db', s.store)
  }

  lemma {:induction false} BatchStep(sha: Blob -> string, s: State, s': State, id: RequestId, own: Option<SubmissionId>)
    requires StateOk(sha, s) && TablesStep(sha, s, s'.db, id, own)
    requires s'.store == s.store && s'.next == s.next
    requires own.Some? ==> OthersDiffer(s, id, own.value)
    requires OneRequestMoves(sha, s, s', id)
    ensures Sound(sha, s, s')
  {
    StepKeeps(sha, s, s', id, own);
  }

  /** Releases are only written in place, and none of them becomes final. */
  ghost predicate InPlace(db: Database, db': Database) {
    forall r :: r in db'.releases ==> StaysPut(db, db', r)
  }

  predicate StaysPut(db: Database, db': Database, r: ReleaseId)
    requires r in db'.releases
  {
    && r in db.releases && db'.releases[r].stagingKey == db.releases[r].stagingKey
    && (Final(db'.releases[r].status) ==> Final(db.releases[r].status))
  }

  lemma {:induction false} InPlaceStep(sha: Blob -> string, s: State, db': Database, id: RequestId,
                                       own: Option<SubmissionId>)
    requires StoreOk(sha, s.db, s.store) && KeysIssued(s.db, s.next)
    requires Keeps(s.db, db', own) && InPlace(s.db, db')
    ensures TablesStep(sha, s, db', id, own)
  {
    forall r | r in db'.releases ensures NonceKept(s.db, db', r, id) && KeyIssued(db'.releases[r], s.next) {
      assert StaysPut(s.db, db', r) && KeyIssued(s.db.releases[r], s.next);
    }
    assert forall r :: r in db'.releases ==> StaysPut(s.db, db', r);
    FinalPackagesStable(sha, s.db, db', s.store, s.store);
  }

  // ---- Upload ----

  /** A plan goes on with the same upload, or the request ends. */
  lemma {:induction false} PlanUploadShape(s: State, id: RequestId, upload: Upload, newRelease: ReleaseId)
    ensures var s' := PlanUpload(s, id, upload, newRelease);
      s' == Done(s, id) || exists plan :: s' == Go(s, id, UploadPlanned(upload, plan))
  {
  }

  lemma {:induction false} PlanUploadKeeps(sha: Blob -> string, s: State, id: RequestId, newRelease: ReleaseId)
    requires StateOk(sha, s) && id in s.requests && s.requests[id].UploadChecked?
    ensures Sound(sha, s, PlanUpload(s, id, s.requests[id].upload, newRelease))
  {
    var upload := s.requests[id].upload;
    PlanUploadShape(s, id, upload, newRelease);
    var s' := PlanUpload(s, id, upload, newRelease);
    if s' == Done(s, id) {
      AbandonKeeps(sha, s, id);
    } else {
      var plan :| s' == Go(s, id, UploadPlanned(upload, plan));
      PlannedKeeps(sha, s, id, plan);
    }
  }

  lemma {:induction false} PlannedKeeps(sha: Blob -> string, s: State, id: RequestId, plan: Plan)
    requires StateOk(sha, s) && id in s.requests && s.requests[id].UploadChecked?
    ensures Sound(sha, s, Go(s, id, UploadPlanned(s.requests[id].upload, plan)))
  {
    MoveOnly(sha, s, Go(s, id, UploadPlanned(s.requests[id].upload, plan)), id);
  }

  lemma {:induction false} InsertTables(sha: Blob -> string, s: State, id: RequestId)
    requires StateOk(sha, s) && id in s.requests && s.requests[id].UploadStored? && s.requests[id].plan.Insert?
    ensures TablesStep(sha, s, UploadBatch(s, id, s.requests[id]).db, id, None)
  {
    var request := s.requests[id];
    var upload := request.upload;
    InsertKeeps(s.db, request.plan.newRelease, upload.extension, upload.version, StagingKeyOf(id, request), upload.seenCurrent);
    FinalPackagesStable(sha, s.db, UploadBatch(s, id, request).db, s.store, s.store);
  }

  lemma {:induction false} ReplaceTables(sha: Blob -> string, s: State, id: RequestId)
    requires StateOk(sha, s) && id in s.requests && s.requests[id].UploadStored? && s.requests[id].plan.Replace?
    ensures TablesStep(sha, s, UploadBatch(s, id, s.requests[id]).db, id, None)
  {
    var request := s.requests[id];
    var existing := request.plan.existing;
    assert NonceUnused(s.db, id);
    ReplaceKeeps(s.db, existing.release, StagingKeyOf(id, request), existing.stagingKey, request.upload.seenCurrent, s.clock);
    FinalPackagesStable(sha, s.db, UploadBatch(s, id, request).db, s.store, s.store);
  }

  lemma {:induction false} UploadTables(sha: Blob -> string, s: State, id: RequestId)
    requires StateOk(sha, s) && id in s.requests && s.requests[id].UploadStored?
    ensures TablesStep(sha, s, UploadBatch(s, id, s.requests[id]).db, id, None)
  {
    if s.requests[id].plan.Insert? {
      InsertTables(sha, s, id);
    } else {
      ReplaceTables(sha, s, id);
    }
  }

  /** After an upload batch the replaced staging object, or the request's own, is left to delete. */
  lemma {:induction false} AfterUploadKeeps(sha: Blob -> string, s: State, id: RequestId, b: Batch)
    requires StateOk(sha, s) && id in s.requests && s.requests[id].UploadStored?
    requires TablesStep(sha, s, b.db, id, None)
    requires s.requests[id].plan.Replace? && s.requests[id].plan.existing.stagingKey.Some? && b.ok
         ==> s.requests[id].plan.existing.stagingKey.value.StagingKey?
    ensures Sound(sha, s, AfterUpload(s, id, s.requests[id], b))
  {
    var s' := AfterUpload(s, id, s.requests[id], b);
    assert id in s'.requests ==> s'.requests[id].StagingCleanup? && s'.requests[id].key.StagingKey?;
    BatchStep(sha, s, s', id, None);
  }

  lemma {:induction false} ReplacedKeyIsStaging(s: State, id: RequestId)
    requires KeysIssued(s.db, s.next) && id in s.requests && s.requests[id].UploadStored?
    ensures s.requests[id].plan.Replace? && s.requests[id].plan.existing.stagingKey.Some? && UploadBatch(s, id, s.requests[id]).ok
        ==> s.requests[id].plan.existing.stagingKey.value.StagingKey?
  {
    var request := s.requests[id];
    if request.plan.Replace? && UploadBatch(s, id, request).ok {
      assert KeyIssued(s.db.releases[request.plan.existing.release], s.next);
    }
  }

  lemma {:induction false} CommitUploadKeeps(sha: Blob -> string, s: State, id: RequestId)
    requires StateOk(sha, s) && id in s.requests && s.requests[id].UploadStored?
    ensures Sound(sha, s, CommitUploadStep(s, id, s.requests[id]))
  {
    UploadTables(sha, s, id);
    ReplacedKeyIsStaging(s, id);
    AfterUploadKeeps(sha, s, id, UploadBatch(s, id, s.requests[id]));
  }

  lemma {:induction false} UploadThrowsKeeps(sha: Blob -> string, s: State, id: RequestId)
    requires StateOk(sha, s) && id in s.requests && s.requests[id].UploadStored?
    ensures Sound(sha, s, UploadThrowsStep(s, id, s.requests[id]))
  {
    NothingChanges(s.db, None);
    NothingMoves(s.db);
    InPlaceStep(sha, s, s.db, id, None);
    AfterUploadKeeps(sha, s, id, Batch(s.db, false));
  }

  // ---- Submit, yank, suspend, create ----

  /** A batch after which the request is over. */
  lemma {:induction false} LastBatch(sha: Blob -> string, s: State, db': Database, id: RequestId,
                                     own: Option<SubmissionId>)
    requires StateOk(sha, s) && Keeps(s.db, db', own) && InPlace(s.db, db')
    requires own.Some? ==> OthersDiffer(s, id, own.value)
    ensures Sound(sha, s, Done(s.(db := db'), id))
  {
    InPlaceStep(sha, s, db', id, own);
    BatchStep(sha, s, Done(s.(db := db'), id), id, own);
  }

  lemma {:induction false} SubmitInPlace(db: Database, release: ReleaseId, extension: ExtensionId, seenKey: ObjectKey,
                      seenCurrent: Option<ReleaseId>, newId: SubmissionId, now: nat)
    ensures InPlace(db, Submit(db, release, extension, seenKey, seenCurrent, newId, now).db)
  {
  }

  lemma {:induction false} SubmitStepKeeps(sha: Blob -> string, s: State, id: RequestId, newSubmission: SubmissionId,
                                           at: nat)
    requires StateOk(sha, s) && id in s.requests && s.requests[id].SubmitRead?
    ensures Sound(sha, s, SubmitStep(s, id, s.requests[id], newSubmission, at))
  {
    var q := s.requests[id];
    SubmitKeeps(s.db, q.release, q.extension, q.seenKey, q.seenCurrent, newSubmission, at);
    SubmitInPlace(s.db, q.release, q.extension, q.seenKey, q.seenCurrent, newSubmission, at);
    LastBatch(sha, s, Submit(s.db, q.release, q.extension, q.seenKey, q.seenCurrent, newSubmission, at).db, id, None);
  }

  lemma {:induction false} YankStepKeeps(sha: Blob -> string, s: State, id: RequestId)
    requires StateOk(sha, s) && id in s.requests && s.requests[id].YankRead?
    ensures Sound(sha, s, YankStep(s, id, s.requests[id]))
  {
    assert Retired(s.db, s.requests[id].release);
    YankKeeps(s.db, s.requests[id].release);
    LastBatch(sha, s, Yank(s.db, s.requests[id].release), id, None);
  }

  /** A change of the tables by no request of the table. */
  lemma {:induction false} OutsideBatch(sha: Blob -> string, s: State, db': Database)
    requires StateOk(sha, s) && Keeps(s.db, db', None) && InPlace(s.db, db')
    ensures Sound(sha, s, s.(db := db'))
  {
    assert s.next !in s.requests;
    assert s.requests - {s.next} == s.requests;
    LastBatch(sha, s, db', s.next, None);
  }

  lemma {:induction false} ListingEventKeeps(sha: Blob -> string, s: State, e: Event)
    requires StateOk(sha, s) && (e.CreateExtension? || e.SuspendExtension?)
    ensures Sound(sha, s, Apply(sha, s, e))
  {
    if e.CreateExtension? {
      CreateKeeps(s.db, e.extension);
      OutsideBatch(sha, s, CreateListing(s.db, e.extension).db);
    } else {
      SuspendKeeps(s.db, e.extension);
      OutsideBatch(sha, s, Suspend(s.db, e.extension).db);
    }
  }

  // ---- Review ----

  /** The review batches write one submission and its release in place. */
  ghost predicate ReviewFacts(db: Database, db': Database, own: Option<SubmissionId>) {
    Keeps(db, db', own) && InPlace(db, db')
  }

  lemma {:induction false} WritePairInPlace(db: Database, s: SubmissionId, submission: Submission, r: ReleaseId,
                                            release: Release)
    requires r in db.releases && release.stagingKey == db.releases[r].stagingKey && !Final(release.status)
    ensures InPlace(db, WritePair(db, s, submission, r, release))
  {
    forall q | q in WritePair(db, s, submission, r, release).releases ensures StaysPut(db, WritePair(db, s, submission, r, release), q) {
    }
  }

  lemma {:induction false} NothingMoves(db: Database)
    ensures InPlace(db, db)
  {
    forall r | r in db.releases ensures StaysPut(db, db, r) {
    }
  }

  lemma {:induction false} NobodyHoldsPending(sha: Blob -> string, s: State, id: RequestId, submission: SubmissionId)
    requires RequestsOk(sha, s) && SubmissionIs(s.db, submission, SubPending)
    ensures OthersDiffer(s, id, submission)
  {
    forall j | j in s.requests && j != id && s.requests[j].Holds() ensures s.requests[j].snap.submission != submission {
      assert RequestOk(sha, s.db, s.store, j, s.requests[j]);
    }
  }

  lemma {:induction false} ClaimFacts(db: Database, snap: Snapshot, now: nat)
    requires TablesOk(db) && SnapOk(db, snap)
    ensures var b := Claim(db, snap.submission, snap.release, now);
      if b.ok then ReviewFacts(db, b.db, Some(snap.submission)) && SubmissionIs(db, snap.submission, SubPending) && HoldOk(b.db, snap, now)
      else b.db == db
  {
    ClaimAllOrNone(db, snap.submission, snap.release, now);
    if SubmissionIs(db, snap.submission, SubPending) {
      WritePairInPlace(db, snap.submission, db.submissions[snap.submission].(status := SubReviewing, resolvedAt := Some(now)),
        snap.release, db.releases[snap.release].(status := Reviewing));
    }
  }

  /** The request after a successful claim. */
  function ClaimedState(s: State, id: RequestId, at: nat, db': Database): State
    requires id in s.requests && s.requests[id].ReviewRead?
  {
    Go(s.(db := db'), id, Claimed(s.requests[id].snap, at, s.requests[id].decision))
  }

  lemma {:induction false} ClaimedMoves(sha: Blob -> string, s: State, id: RequestId, at: nat, db': Database)
    requires RequestsOk(sha, s) && id in s.requests && s.requests[id].ReviewRead?
    requires OthersDiffer(s, id, s.requests[id].snap.submission) && HoldOk(db', s.requests[id].snap, at)
    ensures OneRequestMoves(sha, s, ClaimedState(s, id, at, db'), id)
  {
    assert RequestOk(sha, s.db, s.store, id, s.requests[id]);
  }

  lemma {:induction false} ClaimedKeeps(sha: Blob -> string, s: State, id: RequestId, at: nat, db': Database)
    requires StateOk(sha, s) && id in s.requests && s.requests[id].ReviewRead?
    requires ReviewFacts(s.db, db', Some(s.requests[id].snap.submission))
    requires SubmissionIs(s.db, s.requests[id].snap.submission, SubPending) && HoldOk(db', s.requests[id].snap, at)
    ensures Sound(sha, s, ClaimedState(s, id, at, db'))
  {
    var submission := s.requests[id].snap.submission;
    InPlaceStep(sha, s, db', id, Some(submission));
    NobodyHoldsPending(sha, s, id, submission);
    ClaimedMoves(sha, s, id, at, db');
    BatchStep(sha, s, ClaimedState(s, id, at, db'), id, Some(submission));
  }

  lemma {:induction false} ClaimStepKeeps(sha: Blob -> string, s: State, id: RequestId, at: nat)
    requires StateOk(sha, s) && id in s.requests && s.requests[id].ReviewRead?
    ensures Sound(sha, s, ClaimStep(s, id, s.requests[id], at))
  {
    var snap := s.requests[id].snap;
    assert SnapOk(s.db, snap);
    ClaimFacts(s.db, snap, at);
    var b := Claim(s.db, snap.submission, snap.release, at);
    if b.ok {
      ClaimedKeeps(sha, s, id, at, b.db);
    } else {
      AbandonKeeps(sha, s, id);
    }
  }

  lemma {:induction false} CheckApprovalKeeps(sha: Blob -> string, s: State, id: RequestId)
    requires StateOk(sha, s) && id in s.requests && s.requests[id].Claimed? && s.requests[id].decision.Approval?
    ensures Sound(sha, s, CheckApprovalStep(s, id, s.requests[id]))
  {
    ClaimIsExclusive(s, id);
    MoveOnly(sha, s, CheckApprovalStep(s, id, s.requests[id]), id);
  }

  lemma {:induction false} BuildKeeps(sha: Blob -> string, s: State, id: RequestId, signature: string)
    requires StateOk(sha, s) && id in s.requests && s.requests[id].VersionChecked?
    ensures Sound(sha, s, BuildStep(s, id, s.requests[id], signature))
  {
    ClaimIsExclusive(s, id);
    MoveOnly(sha, s, BuildStep(s, id, s.requests[id], signature), id);
  }

  lemma {:induction false} PutPackageKeeps(sha: Blob -> string, s: State, id: RequestId)
    requires StateOk(sha, s) && id in s.requests && s.requests[id].Built?
    ensures Sound(sha, s, PutPackageStep(sha, s, id, s.requests[id]))
  {
    ClaimIsExclusive(s, id);
    PackageStep(sha, s, PutPackageStep(sha, s, id, s.requests[id]), id,
                PackageKeyOf(sha, s.requests[id].snap, s.requests[id].official));
  }

  lemma {:induction false} DeletePackageKeeps(sha: Blob -> string, s: State, id: RequestId, works: bool)
    requires StateOk(sha, s) && id in s.requests && s.requests[id].PublishFailed?
    ensures Sound(sha, s, DeletePackageStep(sha, s, id, s.requests[id], works))
  {
    ClaimIsExclusive(s, id);
    PackageStep(sha, s, DeletePackageStep(sha, s, id, s.requests[id], works), id,
                PackageKeyOf(sha, s.requests[id].snap, s.requests[id].official));
  }

  lemma {:induction false} ThrowKeeps(sha: Blob -> string, s: State, id: RequestId)
    requires StateOk(sha, s) && id in s.requests && s.requests[id].Holds()
    ensures Sound(sha, s, ThrowStep(s, id, s.requests[id]))
  {
    ClaimIsExclusive(s, id);
    MoveOnly(sha, s, ThrowStep(s, id, s.requests[id]), id);
  }

  lemma {:induction false} ApprovalTables(sha: Blob -> string, s: State, id: RequestId)
    requires StateOk(sha, s) && id in s.requests && s.requests[id].Stored?
    ensures var b := ApprovalBatch(sha, s, s.requests[id]);
            && TablesStep(sha, s, b.db, id, Some(s.requests[id].snap.submission))
            && (!b.ok ==> b.db == s.db)
  {
    var q := s.requests[id];
    var snap := q.snap;
    var artifact := ArtifactFor(sha, snap, q.official, q.publishedAt);
    var db' := ApprovalBatch(sha, s, q).db;
    assert RequestOk(sha, s.db, s.store, id, q);
    ApproveAllOrNone(s.db, snap.submission, snap.release, snap.extension, snap.current, artifact, q.publishedAt);
    if ApprovalBatch(sha, s, q).ok {
      ApproveKeeps(s.db, snap.submission, snap.release, snap.extension, snap.current, artifact, q.publishedAt);
    } else {
      NothingChanges(s.db, Some(snap.submission));
    }
    PublishedPackages(sha, s, id);
    ApprovalKeys(s.db, db', snap.release, s.next, id);
  }

  lemma {:induction false} PublishedPackages(sha: Blob -> string, s: State, id: RequestId)
    requires StateOk(sha, s) && id in s.requests && s.requests[id].Stored?
    ensures StoreOk(sha, ApprovalBatch(sha, s, s.requests[id]).db, s.store)
  {
    var q := s.requests[id];
    var db' := ApprovalBatch(sha, s, q).db;
    ApproveAllOrNone(s.db, q.snap.submission, q.snap.release, q.snap.extension, q.snap.current,
                     ArtifactFor(sha, q.snap, q.official, q.publishedAt), q.publishedAt);
    forall r | r in db'.releases && Final(db'.releases[r].status) ensures PackageStored(sha, s.store, db'.releases[r]) {
      assert db'.releases[r] == s.db.releases[r] ==> PackageStored(sha, s.store, s.db.releases[r]);
    }
  }

  lemma {:induction false} ApprovalKeys(db: Database, db': Database, r: ReleaseId, next: RequestId, id: RequestId)
    requires KeysIssued(db, next) && r in db.releases && r in db'.releases
    requires db'.releases == db.releases[r := db'.releases[r]] && db'.releases[r].stagingKey == db.releases[r].stagingKey
    ensures NoncesKept(db, db', id) && KeysIssued(db', next)
  {
    forall q | q in db'.releases ensures NonceKept(db, db', q, id) && KeyIssued(db'.releases[q], next) {
      assert KeyIssued(db.releases[q], next);
    }
  }

  lemma {:induction false} AfterApprovalMoves(sha: Blob -> string, s: State, id: RequestId, b: Batch)
    requires RequestsOk(sha, s) && id in s.requests && s.requests[id].Stored?
    requires OthersDiffer(s, id, s.requests[id].snap.submission)
    requires !b.ok ==> b.db == s.db
    ensures OneRequestMoves(sha, s, AfterApproval(s, id, s.requests[id], b), id)
  {
    assert RequestOk(sha, s.db, s.store, id, s.requests[id]);
  }

  lemma {:induction false} AfterApprovalKeeps(sha: Blob -> string, s: State, id: RequestId, b: Batch)
    requires StateOk(sha, s) && id in s.requests && s.requests[id].Stored?
    requires TablesStep(sha, s, b.db, id, Some(s.requests[id].snap.submission)) && (!b.ok ==> b.db == s.db)
    ensures Sound(sha, s, AfterApproval(s, id, s.requests[id], b))
  {
    ClaimIsExclusive(s, id);
    AfterApprovalMoves(sha, s, id, b);
    BatchStep(sha, s, AfterApproval(s, id, s.requests[id], b), id, Some(s.requests[id].snap.submission));
  }

  lemma {:induction false} CommitApprovalKeeps(sha: Blob -> string, s: State, id: RequestId)
    requires StateOk(sha, s) && id in s.requests && s.requests[id].Stored?
    ensures Sound(sha, s, CommitApprovalStep(sha, s, id, s.requests[id]))
  {
    ApprovalTables(sha, s, id);
    AfterApprovalKeeps(sha, s, id, ApprovalBatch(sha, s, s.requests[id]));
  }

  lemma {:induction false} RejectionFacts(db: Database, snap: Snapshot, claimedAt: nat, now: nat)
    requires TablesOk(db) && HoldOk(db, snap, claimedAt)
    ensures var b := Decide(db, true, snap.submission, snap.release, snap.extension, now);
      ReviewFacts(db, b.db, Some(snap.submission)) && b == Batch(db, false)
  {
    RejectNeverCommits(db, snap.submission, snap.release, snap.extension, now);
    NothingChanges(db, Some(snap.submission));
    NothingMoves(db);
  }

  lemma {:induction false} ChangesInPlace(db: Database, s: SubmissionId, r: ReleaseId, e: ExtensionId, now: nat)
    requires SubmissionIs(db, s, SubReviewing) && r in db.releases
    ensures InPlace(db, Decide(db, false, s, r, e, now).db)
  {
    WritePairInPlace(db, s, db.submissions[s].(status := SubChanges, resolvedAt := Some(now)), r, db.releases[r].(status := Changes));
    assert Decide(db, false, s, r, e, now).db.releases == db.releases[r := db.releases[r].(status := Changes)];
  }

  lemma {:induction false} ChangesFacts(db: Database, snap: Snapshot, claimedAt: nat, now: nat)
    requires TablesOk(db) && HoldOk(db, snap, claimedAt)
    ensures var b := Decide(db, false, snap.submission, snap.release, snap.extension, now);
      ReviewFacts(db, b.db, Some(snap.submission)) && b.ok
  {
    ChangesKeeps(db, snap.submission, snap.release, snap.extension, now);
    ChangesInPlace(db, snap.submission, snap.release, snap.extension, now);
  }

  lemma {:induction false} DecisionFacts(db: Database, snap: Snapshot, reject: bool, claimedAt: nat, now: nat)
    requires TablesOk(db) && HoldOk(db, snap, claimedAt)
    ensures var b := Decide(db, reject, snap.submission, snap.release, snap.extension, now);
      ReviewFacts(db, b.db, Some(snap.submission)) && (!b.ok ==> b.db == db)
  {
    if reject {
      RejectionFacts(db, snap, claimedAt, now);
    } else {
      ChangesFacts(db, snap, claimedAt, now);
    }
  }

  lemma {:induction false} AfterDecisionMoves(sha: Blob -> string, s: State, id: RequestId, b: Batch)
    requires RequestsOk(sha, s) && id in s.requests && s.requests[id].Claimed?
    requires OthersDiffer(s, id, s.requests[id].snap.submission) && (!b.ok ==> b.db == s.db)
    ensures OneRequestMoves(sha, s, AfterDecision(s, id, s.requests[id], b), id)
  {
    assert RequestOk(sha, s.db, s.store, id, s.requests[id]);
  }

  lemma {:induction false} AfterDecisionKeeps(sha: Blob -> string, s: State, id: RequestId, b: Batch)
    requires StateOk(sha, s) && id in s.requests && s.requests[id].Claimed?
    requires ReviewFacts(s.db, b.db, Some(s.requests[id].snap.submission)) && (!b.ok ==> b.db == s.db)
    ensures Sound(sha, s, AfterDecision(s, id, s.requests[id], b))
  {
    ClaimIsExclusive(s, id);
    InPlaceStep(sha, s, b.db, id, Some(s.requests[id].snap.submission));
    AfterDecisionMoves(sha, s, id, b);
    BatchStep(sha, s, AfterDecision(s, id, s.requests[id], b), id, Some(s.requests[id].snap.submission));
  }

  lemma {:induction false} CommitDecisionKeeps(sha: Blob -> string, s: State, id: RequestId, at: nat)
    requires StateOk(sha, s) && id in s.requests && s.requests[id].Claimed?
    ensures Sound(sha, s, CommitDecisionStep(s, id, s.requests[id], at))
  {
    var q := s.requests[id];
    assert HoldOk(s.db, q.snap, q.claimedAt);
    DecisionFacts(s.db, q.snap, q.decision.Rejection?, q.claimedAt, at);
    AfterDecisionKeeps(sha, s, id, Decide(s.db, q.decision.Rejection?, q.snap.submission, q.snap.release, q.snap.extension, at));
  }

  lemma {:induction false} RollbackFacts(db: Database, snap: Snapshot, claimedAt: nat)
    requires TablesOk(db) && HoldOk(db, snap, claimedAt)
    ensures ReviewFacts(db, Rollback(db, snap.submission, snap.release), Some(snap.submission))
  {
    OnlySubmission(db, snap.submission, snap.release);
    RollbackKeeps(db, snap.submission, snap.release);
    var back := db.releases[snap.release].(status := Pending);
    WritePairInPlace(db, snap.submission, db.submissions[snap.submission].(status := SubPending, resolvedAt := None), snap.release, back);
    assert Rollback(db, snap.submission, snap.release).releases == db.releases[snap.release := back];
  }

  /** A review batch after which the request is over. */
  lemma {:induction false} LastReviewBatch(sha: Blob -> string, s: State, id: RequestId, db': Database)
    requires StateOk(sha, s) && id in s.requests && s.requests[id].Holds()
    requires ReviewFacts(s.db, db', Some(s.requests[id].snap.submission))
    ensures Sound(sha, s, Done(s.(db := db'), id))
  {
    ClaimIsExclusive(s, id);
    LastBatch(sha, s, db', id, Some(s.requests[id].snap.submission));
  }

  lemma {:induction false} RollbackStepKeeps(sha: Blob -> string, s: State, id: RequestId)
    requires StateOk(sha, s) && id in s.requests && s.requests[id].ReviewFailed?
    ensures Sound(sha, s, RollbackStep(s, id, s.requests[id]))
  {
    var snap := s.requests[id].snap;
    assert HoldOk(s.db, snap, s.requests[id].claimedAt);
    RollbackFacts(s.db, snap, s.requests[id].claimedAt);
    LastReviewBatch(sha, s, id, Rollback(s.db, snap.submission, snap.release));
  }

  // ---- Sweep ----

  lemma {:induction false} SweepInPlace(db: Database, db': Database, next: RequestId)
    requires SweepShape(db, db') && KeysIssued(db, next)
    ensures InPlace(db, db') && NoncesKept(db, db', next) && KeysIssued(db', next)
  {
    forall r | r in db'.releases
      ensures StaysPut(db, db', r) && NonceKept(db, db', r, next) && KeyIssued(db'.releases[r], next)
    {
      assert SweptRelease(db, db', r) && KeyIssued(db.releases[r], next);
    }
  }

  lemma {:induction false} SweepTables(sha: Blob -> string, s: State, at: nat)
    requires StateOk(sha, s)
    ensures var db' := Sweep(s.db, at);
            TablesOk(db') && Evolves(s.db, db') && NoncesKept(s.db, db', s.next) && KeysIssued(db', s.next) && StoreOk(sha, db', s.store)
  {
    SweepKeeps(s.db, at);
    SweepHasShape(s.db, at);
    SweepTablesFrom(sha, s, Sweep(s.db, at));
  }

  lemma {:induction false} SweepTablesFrom(sha: Blob -> string, s: State, db': Database)
    requires StateOk(sha, s) && Evolves(s.db, db') && SweepShape(s.db, db')
    ensures NoncesKept(s.db, db', s.next) && KeysIssued(db', s.next) && StoreOk(sha, db', s.store)
  {
    SweepInPlace(s.db, db', s.next);
    assert forall r :: r in db'.releases ==> StaysPut(s.db, db', r);
    FinalPackagesStable(sha, s.db, db', s.store, s.store);
  }

  lemma {:induction false} SweepRequests(sha: Blob -> string, s: State, at: nat, j: RequestId)
    requires StateOk(sha, s) && WithinLease(s) && at <= s.clock && j in s.requests
    ensures RequestOk(sha, Sweep(s.db, at), s.store, j, s.requests[j])
  {
    var request := s.requests[j];
    SweepTables(sha, s, at);
    if request.Holds() {
      assert RequestOk(sha, s.db, s.store, j, request);
      SweepSubmission(s.db, request.snap.submission, at);
    }
    RequestStable(sha, s.db, Sweep(s.db, at), s.store, s.store, j, request, s.next);
  }

  /** Within the lease the sweep takes back no claim that a request still holds. */
  lemma {:induction false} SweepStepKeeps(sha: Blob -> string, s: State, at: nat)
    requires StateOk(sha, s) && WithinLease(s) && at <= s.clock
    ensures Sound(sha, s, s.(db := Sweep(s.db, at)))
  {
    SweepTables(sha, s, at);
    forall j | j in s.requests ensures RequestOk(sha, Sweep(s.db, at), s.store, j, s.requests[j]) {
      SweepRequests(sha, s, at, j);
    }
  }

  lemma {:induction false} SweepEventKeeps(sha: Blob -> string, s: State, at: nat)
    requires StateOk(sha, s) && WithinLease(s)
    ensures Sound(sha, s, Apply(sha, s, RunSweep(at)))
  {
    if at <= s.clock {
      SweepStepKeeps(sha, s, at);
    } else {
      NothingChanges(s.db, None);
    }
  }

  // ---- All events ----

  /** The request an opening read starts is sound, under an id that nothing uses yet. */
  lemma {:induction false} OpenedIsOk(sha: Blob -> string, s: State, e: Event)
    requires StateOk(sha, s) && Opened(s.db, e).Some?
    ensures RequestOk(sha, s.db, s.store, s.next, Opened(s.db, e).value) && !Opened(s.db, e).value.Holds()
  {
    assert forall r :: r in s.db.releases && KeyIssued(s.db.releases[r], s.next) ==> !UsesNonce(s.db.releases[r], s.next);
    if e.StartReview? {
      assert KeyIssued(s.db.releases[Opened(s.db, e).value.snap.release], s.next);
    }
  }

  lemma {:induction false} StartKeeps(sha: Blob -> string, s: State, request: Request)
    requires StateOk(sha, s) && RequestOk(sha, s.db, s.store, s.next, request) && !request.Holds()
    ensures Sound(sha, s, Start(s, request))
  {
    MoveOnly(sha, s, Start(s, request), s.next);
  }

  lemma {:induction false} OpenKeeps(sha: Blob -> string, s: State, e: Event)
    requires StateOk(sha, s) && !IsRequestStep(e) && Opened(s.db, e).Some?
    ensures Sound(sha, s, Start(s, Opened(s.db, e).value))
  {
    OpenedIsOk(sha, s, e);
    StartKeeps(sha, s, Opened(s.db, e).value);
  }

  lemma {:induction false} CheckUploadKeeps(sha: Blob -> string, s: State, id: RequestId)
    requires StateOk(sha, s) && id in s.requests && s.requests[id].UploadStarted?
    ensures Sound(sha, s, CheckUploadStep(s, id, s.requests[id]))
  {
    MoveOnly(sha, s, CheckUploadStep(s, id, s.requests[id]), id);
  }

  lemma {:induction false} PutStagingKeeps(sha: Blob -> string, s: State, id: RequestId)
    requires StateOk(sha, s) && id in s.requests && s.requests[id].UploadPlanned?
    ensures Sound(sha, s, PutStagingStep(s, id, s.requests[id]))
  {
    StagingStep(sha, s, PutStagingStep(s, id, s.requests[id]), id);
  }

  lemma {:induction false} DeleteStagingKeeps(sha: Blob -> string, s: State, id: RequestId, works: bool)
    requires StateOk(sha, s) && id in s.requests && s.requests[id].StagingCleanup?
    ensures Sound(sha, s, DeleteStagingStep(s, id, s.requests[id], works))
  {
    assert RequestOk(sha, s.db, s.store, id, s.requests[id]);
    StagingStep(sha, s, DeleteStagingStep(s, id, s.requests[id], works), id);
  }

  lemma {:induction false} AbandonKeeps(sha: Blob -> string, s: State, id: RequestId)
    requires StateOk(sha, s)
    ensures Sound(sha, s, Done(s, id))
  {
    MoveOnly(sha, s, Done(s, id), id);
  }

  lemma {:induction false} PublisherStepKeeps(sha: Blob -> string, s: State, e: Event)
    requires StateOk(sha, s) && IsRequestStep(e) && e.id in s.requests
    ensures Sound(sha, s, StepPublisher(s, e, e.id, s.requests[e.id]))
  {
    var id := e.id;
    var request := s.requests[id];
    NothingChanges(s.db, None);
    match e
    case CheckUploadVersion(_) => if request.UploadStarted? { CheckUploadKeeps(sha, s, id); }
    case ReadExisting(_, newRelease) => if request.UploadChecked? { PlanUploadKeeps(sha, s, id, newRelease); }
    case PutStaging(_) => if request.UploadPlanned? { PutStagingKeeps(sha, s, id); }
    case CommitUpload(_) => if request.UploadStored? { CommitUploadKeeps(sha, s, id); }
    case UploadThrows(_) => if request.UploadStored? { UploadThrowsKeeps(sha, s, id); }
    case DeleteStaging(_, works) => if request.StagingCleanup? { DeleteStagingKeeps(sha, s, id, works); }
    case CommitSubmit(_, newSubmission, at) => if request.SubmitRead? { SubmitStepKeeps(sha, s, id, newSubmission, at); }
    case CommitYank(_) => if request.YankRead? { YankStepKeeps(sha, s, id); }
    case Abandon(_) => AbandonKeeps(sha, s, id);
    case _ =>
  }

  lemma {:induction false} ReviewStepKeeps(sha: Blob -> string, s: State, e: Event)
    requires StateOk(sha, s) && IsReviewStep(e) && e.id in s.requests
    ensures Sound(sha, s, StepReview(sha, s, e, e.id, s.requests[e.id]))
  {
    NothingChanges(s.db, None);
    if IsReviewCommit(e) {
      ReviewBatchKeeps(sha, s, e);
    } else {
      BetweenBatchesKeeps(sha, s, e);
    }
  }

  lemma {:induction false} BetweenBatchesKeeps(sha: Blob -> string, s: State, e: Event)
    requires StateOk(sha, s) && Evolves(s.db, s.db) && IsReviewStep(e) && !IsReviewCommit(e) && e.id in s.requests
    ensures Sound(sha, s, StepReview(sha, s, e, e.id, s.requests[e.id]))
  {
    var id := e.id;
    var request := s.requests[id];
    match e
    case CheckApproval(_) => if request.Claimed? && request.decision.Approval? { CheckApprovalKeeps(sha, s, id); }
    case BuildPackage(_, signature) => if request.VersionChecked? { BuildKeeps(sha, s, id, signature); }
    case PutPackage(_) => if request.Built? { PutPackageKeeps(sha, s, id); }
    case ReviewThrows(_) => if request.Holds() { ThrowKeeps(sha, s, id); }
    case DeletePackage(_, works) => if request.PublishFailed? { DeletePackageKeeps(sha, s, id, works); }
    case _ =>
  }

  lemma {:induction false} ClaimEventKeeps(sha: Blob -> string, s: State, id: RequestId, at: nat)
    requires StateOk(sha, s) && Evolves(s.db, s.db) && id in s.requests
    ensures Sound(sha, s, StepReview(sha, s, CommitClaim(id, at), id, s.requests[id]))
  {
    ClaimEventIs(sha, s, id, at, s.requests[id]);
    if s.requests[id].ReviewRead? && at <= s.clock {
      ClaimStepKeeps(sha, s, id, at);
    } else {
      StayingKeeps(sha, s);
    }
  }

  lemma {:induction false} ApprovalEventKeeps(sha: Blob -> string, s: State, id: RequestId)
    requires StateOk(sha, s) && Evolves(s.db, s.db) && id in s.requests
    ensures Sound(sha, s, StepReview(sha, s, CommitApproval(id), id, s.requests[id]))
  {
    ApprovalEventIs(sha, s, id, s.requests[id]);
    if s.requests[id].Stored? {
      CommitApprovalKeeps(sha, s, id);
    } else {
      StayingKeeps(sha, s);
    }
  }

  lemma {:induction false} DecisionEventKeeps(sha: Blob -> string, s: State, id: RequestId, at: nat)
    requires StateOk(sha, s) && Evolves(s.db, s.db) && id in s.requests
    ensures Sound(sha, s, StepReview(sha, s, CommitDecision(id, at), id, s.requests[id]))
  {
    DecisionEventIs(sha, s, id, at, s.requests[id]);
    if s.requests[id].Claimed? && !s.requests[id].decision.Approval? && at <= s.clock {
      CommitDecisionKeeps(sha, s, id, at);
    } else {
      StayingKeeps(sha, s);
    }
  }

  lemma {:induction false} ClaimEventIs(sha: Blob -> string, s: State, id: RequestId, at: nat, request: Request)
    ensures StepReview(sha, s, CommitClaim(id, at), id, request)
         == if request.ReviewRead? && at <= s.clock then ClaimStep(s, id, request, at) else s
  {
  }

  lemma {:induction false} ApprovalEventIs(sha: Blob -> string, s: State, id: RequestId, request: Request)
    ensures StepReview(sha, s, CommitApproval(id), id, request) == if request.Stored? then CommitApprovalStep(sha, s, id, request) else s
  {
  }

  lemma {:induction false} RollbackEventIs(sha: Blob -> string, s: State, id: RequestId, request: Request)
    ensures StepReview(sha, s, CommitRollback(id), id, request) == if request.ReviewFailed? then RollbackStep(s, id, request) else s
  {
  }

  lemma {:induction false} DecisionEventIs(sha: Blob -> string, s: State, id: RequestId, at: nat, request: Request)
    ensures StepReview(sha, s, CommitDecision(id, at), id, request)
         == if request.Claimed? && !request.decision.Approval? && at <= s.clock then CommitDecisionStep(s, id, request, at) else s
  {
  }

  lemma {:induction false} StayingKeeps(sha: Blob -> string, s: State)
    requires StateOk(sha, s) && Evolves(s.db, s.db)
    ensures Sound(sha, s, s)
  {
  }

  lemma {:induction false} RollbackEventKeeps(sha: Blob -> string, s: State, id: RequestId)
    requires StateOk(sha, s) && Evolves(s.db, s.db) && id in s.requests
    ensures Sound(sha, s, StepReview(sha, s, CommitRollback(id), id, s.requests[id]))
  {
    RollbackEventIs(sha, s, id, s.requests[id]);
    if s.requests[id].ReviewFailed? {
      RollbackStepKeeps(sha, s, id);
    } else {
      StayingKeeps(sha, s);
    }
  }

  lemma {:induction false} ReviewBatchKeeps(sha: Blob -> string, s: State, e: Event)
    requires StateOk(sha, s) && Evolves(s.db, s.db) && IsReviewCommit(e) && e.id in s.requests
    ensures Sound(sha, s, StepReview(sha, s, e, e.id, s.requests[e.id]))
  {
    match e
    case CommitClaim(id, at) => ClaimEventKeeps(sha, s, id, at);
    case CommitApproval(id) => ApprovalEventKeeps(sha, s, id);
    case CommitDecision(id, at) => DecisionEventKeeps(sha, s, id, at);
    case CommitRollback(id) => RollbackEventKeeps(sha, s, id);
    case _ =>
  }

  lemma {:induction false} RequestEventKeeps(sha: Blob -> string, s: State, e: Event)
    requires StateOk(sha, s) && IsRequestStep(e)
    ensures Sound(sha, s, Apply(sha, s, e))
  {
    if e.id !in s.requests {
      NothingChanges(s.db, None);
    } else if IsReviewStep(e) {
      ReviewStepKeeps(sha, s, e);
    } else {
      PublisherStepKeeps(sha, s, e);
    }
  }

  lemma {:induction false} QuietEventKeeps(sha: Blob -> string, s: State, e: Event)
    requires StateOk(sha, s) && (e.ExpireStaging? || e.Tick?)
    ensures Sound(sha, s, Apply(sha, s, e))
  {
    StagingStep(sha, s, Apply(sha, s, e), s.next);
  }

  lemma {:induction false} OpeningEventKeeps(sha: Blob -> string, s: State, e: Event)
    requires StateOk(sha, s) && (e.StartUpload? || e.StartSubmit? || e.StartReview? || e.StartYank?)
    ensures Sound(sha, s, Apply(sha, s, e))
  {
    if Opened(s.db, e).Some? {
      OpenKeeps(sha, s, e);
    } else {
      NothingChanges(s.db, None);
    }
  }

  /** Every event of every request keeps the invariant, as long as the lease holds. */
  lemma {:induction false} ApplyKeeps(sha: Blob -> string, s: State, e: Event)
    requires StateOk(sha, s) && WithinLease(s)
    ensures Sound(sha, s, Apply(sha, s, e))
  {
    if IsRequestStep(e) {
      RequestEventKeeps(sha, s, e);
    } else if e.CreateExtension? || e.SuspendExtension? {
      ListingEventKeeps(sha, s, e);
    } else if e.RunSweep? {
      SweepEventKeeps(sha, s, e.at);
    } else if e.ExpireStaging? || e.Tick? {
      QuietEventKeeps(sha, s, e);
    } else {
      OpeningEventKeeps(sha, s, e);
    }
  }
}
