/** Every event keeps the trail's invariant. */
module HubTrailSteps {
  import opened Options
  import opened HubDatabase
  import opened HubInvariant
  import opened HubBatches
  import opened HubReviews
  import opened HubProtocol
  import opened HubSafety
  import opened HubSteps
  import opened HubRuns
  import opened HubUploads
  import opened HubStaging
  import opened HubTrail

  // ---- Uploads ----

  lemma {:induction false} CommittedRowsTraced(s: State, id: RequestId, t: Trail)
    requires RowsTraced(s.db, t.written) && id in s.requests && s.requests[id].UploadStored?
    requires RequestTraced(s.db, t, id, s.requests[id]) && UploadOk(s.db, s.requests[id]) && UploadBatch(s, id, s.requests[id]).ok
    ensures RowsTraced(UploadBatch(s, id, s.requests[id]).db, t.written)
  {
    CommittedRows(s, id);
    var q := s.requests[id];
    var db' := UploadBatch(s, id, q).db;
    forall r | r in db'.releases ensures RowTraced(t.written, db'.releases[r]) {
      assert r != PlannedRelease(q.plan) ==> RowTraced(t.written, s.db.releases[r]);
    }
  }

  /** A request that holds a claim keeps its row across a step that leaves claimed rows alone. */
  lemma {:induction false} HeldStaysTraced(db: Database, db': Database, t: Trail, id: RequestId, request: Request)
    requires RequestTraced(db, t, id, request) && HoldsKept(db, db', None)
    requires request.Holds() ==> SubmissionFor(db, request.snap.submission, request.snap.release)
                                 && SubmissionIs(db, request.snap.submission, SubReviewing)
    ensures RequestTraced(db', t, id, request)
  {
    if request.Holds() {
      assert HoldKept(db, db', request.snap.submission);
    }
  }

  lemma {:induction false} HolderStands(sha: Blob -> string, s: State, id: RequestId)
    requires RequestsOk(sha, s) && id in s.requests && s.requests[id].Holds()
    ensures var snap := s.requests[id].snap;
      && SubmissionFor(s.db, snap.submission, snap.release) && SubmissionIs(s.db, snap.submission, SubReviewing)
      && snap.release in s.db.releases
      && s.db.releases[snap.release].extension == snap.extension && s.db.releases[snap.release].version == snap.version
  {
    assert RequestOk(sha, s.db, s.store, id, s.requests[id]);
  }

  lemma {:induction false} OthersAcrossUpload(sha: Blob -> string, s: State, s': State, id: RequestId, t: Trail)
    requires RequestsOk(sha, s) && RequestsTraced(s, t) && HoldsKept(s.db, s'.db, None) && OthersTraced(s, s', id)
    requires id in s'.requests ==> s'.requests[id].StagingCleanup?
    ensures RequestsTraced(s', t)
  {
    forall j | j in s'.requests ensures RequestTraced(s'.db, t, j, s'.requests[j]) {
      if j != id {
        if s.requests[j].Holds() {
          HolderStands(sha, s, j);
        }
        HeldStaysTraced(s.db, s'.db, t, j, s.requests[j]);
      }
    }
  }

  /** An upload writes no published release. */
  lemma {:induction false} FinalsAcrossUpload(s: State, id: RequestId, t: Trail)
    requires FinalsTraced(s.db, s.store, t) && id in s.requests && s.requests[id].UploadStored? && UploadBatch(s, id, s.requests[id]).ok
    ensures FinalsTraced(UploadBatch(s, id, s.requests[id]).db, s.store, t)
  {
    CommittedRows(s, id);
    var db' := UploadBatch(s, id, s.requests[id]).db;
    forall r | r in db'.releases && Final(db'.releases[r].status) ensures FinalTraced(s.store, t, r, db'.releases[r]) {
      assert FinalTraced(s.store, t, r, s.db.releases[r]);
    }
  }

  lemma {:induction false} UploadCommitsTraced(sha: Blob -> string, s: State, id: RequestId, t: Trail)
    requires StateOk(sha, s) && UploadsOk(s) && TrailOk(s, t)
    requires id in s.requests && s.requests[id].UploadStored? && UploadBatch(s, id, s.requests[id]).ok
    ensures TrailOk(CommitUploadStep(s, id, s.requests[id]), t)
  {
    var s' := CommitUploadStep(s, id, s.requests[id]);
    UploadTables(sha, s, id);
    CommittedRowsTraced(s, id, t);
    FinalsAcrossUpload(s, id, t);
    TakenStays(s, s', id, t.written);
    OthersAcrossUpload(sha, s, s', id, t);
  }

  /** After a batch that did not write its release. */
  lemma {:induction false} NothingCommittedTraced(s: State, id: RequestId, b: Batch, t: Trail)
    requires TrailOk(s, t) && id in s.requests && s.requests[id].UploadStored?
    requires !b.ok && b.db.releases == s.db.releases && Evolves(s.db, b.db)
    ensures TrailOk(AfterUpload(s, id, s.requests[id], b), t)
  {
    forall r | r in b.db.releases ensures StaysPut(s.db, b.db, r) {
    }
    BatchTrail(s, AfterUpload(s, id, s.requests[id], b), id, t);
  }

  lemma {:induction false} UploadStepTraced(sha: Blob -> string, s: State, id: RequestId, t: Trail)
    requires StateOk(sha, s) && UploadsOk(s) && TrailOk(s, t) && id in s.requests && s.requests[id].UploadStored?
    ensures TrailOk(CommitUploadStep(s, id, s.requests[id]), t)
    ensures TrailOk(UploadThrowsStep(s, id, s.requests[id]), t)
  {
    if UploadBatch(s, id, s.requests[id]).ok {
      UploadCommitsTraced(sha, s, id, t);
    } else {
      RefusedRows(s, id);
      UploadEvolves(sha, s, id);
      NothingCommittedTraced(s, id, UploadBatch(s, id, s.requests[id]), t);
    }
    NothingChanges(s.db, None);
    NothingCommittedTraced(s, id, Batch(s.db, false), t);
  }

  lemma {:induction false} CleanupTraced(sha: Blob -> string, s: State, id: RequestId, works: bool, t: Trail)
    requires StateOk(sha, s) && TrailOk(s, t) && id in s.requests && s.requests[id].StagingCleanup?
    ensures TrailOk(DeleteStagingStep(s, id, s.requests[id], works), t)
  {
    assert RequestOk(sha, s.db, s.store, id, s.requests[id]);
    PackagesStay(s, s.requests[id].key);
    QuietTablesTrail(s, DeleteStagingStep(s, id, s.requests[id], works), id, t);
  }

  /** Packages of published releases do not stand under staging keys. */
  lemma {:induction false} PackagesStay(s: State, key: ObjectKey)
    requires TablesOk(s.db) && key.StagingKey?
    ensures FinalsKept(s.db, s.store, s.store - {key}) && FinalsKept(s.db, s.store, s.store)
  {
    forall r | r in s.db.releases && Final(s.db.releases[r].status) && s.db.releases[r].artifact.Some?
      ensures ObjectKept(s.store, s.store - {key}, s.db.releases[r].artifact.value.packageKey)
    {
      assert ReleaseOk(s.db, r);
    }
  }

  lemma {:induction false} CheckOrPlanTraced(s: State, id: RequestId, newRelease: ReleaseId, t: Trail)
    requires TablesOk(s.db) && TrailOk(s, t) && id in s.requests
    ensures s.requests[id].UploadStarted? ==> TrailOk(CheckUploadStep(s, id, s.requests[id]), t)
    ensures s.requests[id].UploadChecked? ==> TrailOk(PlanUpload(s, id, s.requests[id].upload, newRelease), t)
  {
    if s.requests[id].UploadStarted? {
      QuietTablesTrail(s, CheckUploadStep(s, id, s.requests[id]), id, t);
    }
    if s.requests[id].UploadChecked? {
      PlanUploadShape(s, id, s.requests[id].upload, newRelease);
      QuietTablesTrail(s, PlanUpload(s, id, s.requests[id].upload, newRelease), id, t);
    }
  }

  lemma {:induction false} UploadEventTraced(sha: Blob -> string, s: State, e: Event, id: RequestId, t: Trail)
    requires StateOk(sha, s) && UploadsOk(s) && TrailOk(s, t) && id in s.requests && IsUploadStep(e) && !e.PutStaging?
    ensures TrailOk(StepPublisher(s, e, id, s.requests[id]), t)
  {
    var q := s.requests[id];
    if e.CheckUploadVersion? {
      CheckOrPlanTraced(s, id, "", t);
    } else if e.ReadExisting? {
      CheckOrPlanTraced(s, id, e.newRelease, t);
    } else if e.CommitUpload? || e.UploadThrows? {
      if q.UploadStored? { UploadStepTraced(sha, s, id, t); }
    } else if q.StagingCleanup? {
      CleanupTraced(sha, s, id, e.works, t);
    }
  }

  // ---- Submit, yank, death ----

  lemma {:induction false} EndTraced(s: State, id: RequestId, db': Database, t: Trail)
    requires TrailOk(s, t) && Evolves(s.db, db') && InPlace(s.db, db')
    ensures TrailOk(Done(s.(db := db'), id), t)
  {
    BatchTrail(s, Done(s.(db := db'), id), id, t);
  }

  lemma {:induction false} SubmitTraced(sha: Blob -> string, s: State, id: RequestId, newSubmission: SubmissionId,
                                        at: nat, t: Trail)
    requires StateOk(sha, s) && TrailOk(s, t) && id in s.requests && s.requests[id].SubmitRead?
    ensures TrailOk(SubmitStep(s, id, s.requests[id], newSubmission, at), t)
  {
    var q := s.requests[id];
    SubmitKeeps(s.db, q.release, q.extension, q.seenKey, q.seenCurrent, newSubmission, at);
    SubmitInPlace(s.db, q.release, q.extension, q.seenKey, q.seenCurrent, newSubmission, at);
    EndTraced(s, id, Submit(s.db, q.release, q.extension, q.seenKey, q.seenCurrent, newSubmission, at).db, t);
  }

  lemma {:induction false} YankTraced(sha: Blob -> string, s: State, id: RequestId, t: Trail)
    requires StateOk(sha, s) && TrailOk(s, t) && id in s.requests && s.requests[id].YankRead?
    ensures TrailOk(YankStep(s, id, s.requests[id]), t)
  {
    assert RequestOk(sha, s.db, s.store, id, s.requests[id]);
    YankKeeps(s.db, s.requests[id].release);
    EndTraced(s, id, Yank(s.db, s.requests[id].release), t);
  }

  lemma {:induction false} PublisherTraced(sha: Blob -> string, s: State, e: Event, id: RequestId, t: Trail)
    requires StateOk(sha, s) && UploadsOk(s) && TrailOk(s, t) && id in s.requests && !e.PutStaging?
    ensures TrailOk(StepPublisher(s, e, id, s.requests[id]), t)
  {
    if IsUploadStep(e) {
      UploadEventTraced(sha, s, e, id, t);
    } else if e.CommitSubmit? {
      if s.requests[id].SubmitRead? { SubmitTraced(sha, s, id, e.newSubmission, e.at, t); }
    } else if e.CommitYank? {
      if s.requests[id].YankRead? { YankTraced(sha, s, id, t); }
    } else if e.Abandon? {
      NothingChanges(s.db, None);
      NothingMoves(s.db);
      EndTraced(s, id, s.db, t);
    }
  }

  // ---- Reviews ----

  /** A review goes on with the same snapshot. */
  lemma {:induction false} GoesOnTraced(s: State, s': State, id: RequestId, t: Trail)
    requires TablesOk(s.db) && TrailOk(s, t) && SameReview(s, s', id) && s.requests[id].Holds() && s'.db == s.db
    requires StagingLeft(s.store, s'.store) && FinalsKept(s.db, s.store, s'.store)
    requires id in s'.requests && (s'.requests[id].Built? || s'.requests[id].Stored? ==>
               HoldsFilesOf(t.written, s.requests[id].snap.stagingKey, s'.requests[id].official))
    ensures TrailOk(s', t)
  {
    assert RequestTraced(s.db, t, id, s.requests[id]);
    QuietTablesTrail(s, s', id, t);
  }

  /** What is built is what was written under the key that was read. */
  lemma {:induction false} BuildTraced(s: State, id: RequestId, signature: string, t: Trail)
    requires TablesOk(s.db) && TrailOk(s, t) && id in s.requests && s.requests[id].VersionChecked?
    requires s.requests[id].snap.stagingKey.Some? ==> s.requests[id].snap.stagingKey.value.StagingKey?
    ensures TrailOk(BuildStep(s, id, s.requests[id], signature), t)
  {
    GoesOnTraced(s, BuildStep(s, id, s.requests[id], signature), id, t);
  }

  /** The package objects of a version are written and deleted by the review that holds it alone. */
  lemma {:induction false} PackageTraced(sha: Blob -> string, s: State, s': State, id: RequestId, official: Blob,
                                         t: Trail)
    requires StateOk(sha, s) && TrailOk(s, t) && SameReview(s, s', id) && s.requests[id].Holds() && s'.db == s.db
    requires id in s'.requests && (s'.requests[id].Built? || s'.requests[id].Stored? ==>
               HoldsFilesOf(t.written, s.requests[id].snap.stagingKey, s'.requests[id].official))
    requires var key := PackageKeyOf(sha, s.requests[id].snap, official);
             s'.store == s.store[key := official] || s'.store == s.store - {key} || s'.store == s.store
    ensures TrailOk(s', t)
  {
    PackageKeyIsPrivate(sha, s, id, PackageKeyOf(sha, s.requests[id].snap, official));
    GoesOnTraced(s, s', id, t);
  }

  lemma {:induction false} PutTraced(sha: Blob -> string, s: State, id: RequestId, t: Trail)
    requires StateOk(sha, s) && TrailOk(s, t) && id in s.requests && s.requests[id].Built?
    ensures TrailOk(PutPackageStep(sha, s, id, s.requests[id]), t)
  {
    assert RequestTraced(s.db, t, id, s.requests[id]);
    PackageTraced(sha, s, PutPackageStep(sha, s, id, s.requests[id]), id, s.requests[id].official, t);
  }

  lemma {:induction false} DeleteTraced(sha: Blob -> string, s: State, id: RequestId, works: bool, t: Trail)
    requires StateOk(sha, s) && TrailOk(s, t) && id in s.requests && s.requests[id].PublishFailed?
    ensures TrailOk(DeletePackageStep(sha, s, id, s.requests[id], works), t)
  {
    PackageTraced(sha, s, DeletePackageStep(sha, s, id, s.requests[id], works), id, s.requests[id].official, t);
  }

  lemma {:induction false} CheckOrThrowTraced(s: State, id: RequestId, t: Trail)
    requires TablesOk(s.db) && TrailOk(s, t) && id in s.requests && s.requests[id].Holds()
    ensures s.requests[id].Claimed? ==> TrailOk(CheckApprovalStep(s, id, s.requests[id]), t)
    ensures TrailOk(ThrowStep(s, id, s.requests[id]), t)
  {
    if s.requests[id].Claimed? {
      GoesOnTraced(s, CheckApprovalStep(s, id, s.requests[id]), id, t);
    }
    GoesOnTraced(s, ThrowStep(s, id, s.requests[id]), id, t);
  }

  lemma {:induction false} ReadKeyIsStaging(sha: Blob -> string, s: State, id: RequestId)
    requires RequestsOk(sha, s) && id in s.requests && s.requests[id].VersionChecked?
    ensures s.requests[id].snap.stagingKey.Some? ==> s.requests[id].snap.stagingKey.value.StagingKey?
  {
    assert RequestOk(sha, s.db, s.store, id, s.requests[id]);
  }

  lemma {:induction false} BetweenTraced(sha: Blob -> string, s: State, e: Event, id: RequestId, t: Trail)
    requires StateOk(sha, s) && TrailOk(s, t) && id in s.requests && IsReviewStep(e) && !IsReviewCommit(e)
    ensures TrailOk(StepReview(sha, s, e, id, s.requests[id]), t)
  {
    var q := s.requests[id];
    if e.CheckApproval? || e.ReviewThrows? {
      if q.Holds() { CheckOrThrowTraced(s, id, t); }
    } else if e.BuildPackage? {
      if q.VersionChecked? {
        ReadKeyIsStaging(sha, s, id);
        BuildTraced(s, id, e.signature, t);
      }
    } else if e.PutPackage? {
      if q.Built? { PutTraced(sha, s, id, t); }
    } else if q.PublishFailed? {
      DeleteTraced(sha, s, id, e.works, t);
    }
  }

  /** A release whose submission is pending is neither held nor published. */
  lemma {:induction false} PendingIsFree(sha: Blob -> string, s: State, snap: Snapshot)
    requires StateOk(sha, s) && SnapOk(s.db, snap) && SubmissionIs(s.db, snap.submission, SubPending)
    ensures ReleaseIs(s.db, snap.release, Pending)
    ensures forall j :: j in s.requests && s.requests[j].Holds() ==> s.requests[j].snap.release != snap.release
  {
    OnlySubmission(s.db, snap.submission, snap.release);
    forall j | j in s.requests && s.requests[j].Holds() ensures s.requests[j].snap.release != snap.release {
      HolderStands(sha, s, j);
    }
  }

  lemma {:induction false} RecordedClaimTraced(sha: Blob -> string, s: State, id: RequestId, t: Trail)
    requires StateOk(sha, s) && TrailOk(s, t) && id in s.requests && s.requests[id].ReviewRead?
    requires SubmissionIs(s.db, s.requests[id].snap.submission, SubPending)
    ensures TrailOk(s, RecordClaim(s.db, s.requests[id].snap, t))
  {
    var snap := s.requests[id].snap;
    var t' := RecordClaim(s.db, snap, t);
    assert RequestOk(sha, s.db, s.store, id, s.requests[id]);
    PendingIsFree(sha, s, snap);
    forall j | j in s.requests ensures RequestTraced(s.db, t', j, s.requests[j]) {
      assert RequestTraced(s.db, t, j, s.requests[j]);
      RequestOfLonger(s.db, t, t', j, s.requests[j]);
    }
    forall r | r in s.db.releases && Final(s.db.releases[r].status) ensures FinalTraced(s.store, t', r, s.db.releases[r]) {
      assert FinalTraced(s.store, t, r, s.db.releases[r]);
      FinalOfLonger(s.store, t, t', r, s.db.releases[r]);
    }
  }

  lemma {:induction false} AfterClaimTraced(s: State, id: RequestId, at: nat, b: Batch, t: Trail)
    requires TrailOk(s, t) && id in s.requests && s.requests[id].ReviewRead?
    requires Evolves(s.db, b.db) && InPlace(s.db, b.db)
    requires b.ok ==> ClaimTraced(s.db, t, s.requests[id].snap)
    ensures TrailOk(AfterClaim(s, id, s.requests[id], at, b), t)
  {
    assert RequestTraced(s.db, t, id, s.requests[id]);
    BatchTrail(s, AfterClaim(s, id, s.requests[id], at, b), id, t);
  }

  lemma {:induction false} ClaimStepTraced(sha: Blob -> string, s: State, id: RequestId, at: nat, t: Trail)
    requires StateOk(sha, s) && TrailOk(s, t) && id in s.requests && s.requests[id].ReviewRead?
    ensures var snap := s.requests[id].snap;
      TrailOk(ClaimStep(s, id, s.requests[id], at),
              if Claim(s.db, snap.submission, snap.release, at).ok then RecordClaim(s.db, snap, t) else t)
  {
    var snap := s.requests[id].snap;
    assert RequestOk(sha, s.db, s.store, id, s.requests[id]);
    ClaimFacts(s.db, snap, at);
    var b := Claim(s.db, snap.submission, snap.release, at);
    if b.ok {
      RecordedClaimTraced(sha, s, id, t);
      AfterClaimTraced(s, id, at, b, RecordClaim(s.db, snap, t));
    } else {
      NothingChanges(s.db, None);
      NothingMoves(s.db);
      AfterClaimTraced(s, id, at, b, t);
    }
  }

  lemma {:induction false} DecisionTraced(sha: Blob -> string, s: State, id: RequestId, at: nat, t: Trail)
    requires StateOk(sha, s) && TrailOk(s, t) && id in s.requests && s.requests[id].Claimed?
    ensures TrailOk(CommitDecisionStep(s, id, s.requests[id], at), t)
  {
    var q := s.requests[id];
    assert RequestOk(sha, s.db, s.store, id, q);
    DecisionFacts(s.db, q.snap, q.decision.Rejection?, q.claimedAt, at);
    AfterDecisionTraced(s, id, Decide(s.db, q.decision.Rejection?, q.snap.submission, q.snap.release, q.snap.extension, at), t);
  }

  lemma {:induction false} AfterDecisionTraced(s: State, id: RequestId, b: Batch, t: Trail)
    requires TrailOk(s, t) && id in s.requests && s.requests[id].Claimed? && Evolves(s.db, b.db) && InPlace(s.db, b.db)
    ensures TrailOk(AfterDecision(s, id, s.requests[id], b), t)
  {
    assert RequestTraced(s.db, t, id, s.requests[id]);
    BatchTrail(s, AfterDecision(s, id, s.requests[id], b), id, t);
  }

  lemma {:induction false} RollbackTraced(sha: Blob -> string, s: State, id: RequestId, t: Trail)
    requires StateOk(sha, s) && TrailOk(s, t) && id in s.requests && s.requests[id].ReviewFailed?
    ensures TrailOk(RollbackStep(s, id, s.requests[id]), t)
  {
    var q := s.requests[id];
    assert RequestOk(sha, s.db, s.store, id, q);
    RollbackFacts(s.db, q.snap, q.claimedAt);
    EndTraced(s, id, Rollback(s.db, q.snap.submission, q.snap.release), t);
  }

  // ---- Approval ----

  /** An approval writes its own release and no key. */
  ghost predicate Publishes(db: Database, db': Database, r: ReleaseId, artifact: Artifact) {
    && r in db.releases && r in db'.releases
    && db'.releases == db.releases[r := db'.releases[r]]
    && db'.releases[r].stagingKey == db.releases[r].stagingKey && db'.releases[r].artifact == Some(artifact)
  }

  lemma {:induction false} ApprovalPublishes(sha: Blob -> string, s: State, id: RequestId)
    requires StateOk(sha, s) && id in s.requests && s.requests[id].Stored? && ApprovalBatch(sha, s, s.requests[id]).ok
    ensures var q := s.requests[id];
      && Publishes(s.db, ApprovalBatch(sha, s, q).db, q.snap.release, ArtifactFor(sha, q.snap, q.official, q.publishedAt))
      && Evolves(s.db, ApprovalBatch(sha, s, q).db)
  {
    var q := s.requests[id];
    HolderStands(sha, s, id);
    ApprovalTables(sha, s, id);
    ApproveAllOrNone(s.db, q.snap.submission, q.snap.release, q.snap.extension, q.snap.current,
                     ArtifactFor(sha, q.snap, q.official, q.publishedAt), q.publishedAt);
  }

  lemma {:induction false} PublishedIsTraced(db: Database, db': Database, store: map<ObjectKey, Blob>, t: Trail,
                                             snap: Snapshot, artifact: Artifact)
    requires FinalsTraced(db, store, t) && Publishes(db, db', snap.release, artifact) && ClaimTraced(db, t, snap)
    requires artifact.packageKey in store && HoldsFilesOf(t.written, snap.stagingKey, store[artifact.packageKey])
    ensures FinalsTraced(db', store, t)
  {
    forall r | r in db'.releases && Final(db'.releases[r].status) ensures FinalTraced(store, t, r, db'.releases[r]) {
      assert r != snap.release ==> FinalTraced(store, t, r, db.releases[r]);
    }
  }

  lemma {:induction false} AfterApprovalTraced(s: State, id: RequestId, b: Batch, artifact: Artifact, t: Trail)
    requires TrailOk(s, t) && id in s.requests && s.requests[id].Stored? && b.ok
    requires Evolves(s.db, b.db) && Publishes(s.db, b.db, s.requests[id].snap.release, artifact)
    requires artifact.packageKey in s.store && s.store[artifact.packageKey] == s.requests[id].official
    ensures TrailOk(AfterApproval(s, id, s.requests[id], b), t)
  {
    var q := s.requests[id];
    var s' := AfterApproval(s, id, q, b);
    assert RequestTraced(s.db, t, id, q);
    TakenStays(s, s', id, t.written);
    RowsStayTraced(s.db, b.db, t.written);
    PublishedIsTraced(s.db, b.db, s.store, t, q.snap, artifact);
    forall j | j in s'.requests ensures RequestTraced(s'.db, t, j, s'.requests[j]) {
      if j != id {
        RequestStaysTraced(s.db, b.db, t, j, s.requests[j]);
      }
    }
  }

  lemma {:induction false} ApprovalTraced(sha: Blob -> string, s: State, id: RequestId, t: Trail)
    requires StateOk(sha, s) && TrailOk(s, t) && id in s.requests && s.requests[id].Stored?
    ensures TrailOk(CommitApprovalStep(sha, s, id, s.requests[id]), t)
  {
    var q := s.requests[id];
    if ApprovalBatch(sha, s, q).ok {
      ApprovalPublishes(sha, s, id);
      OfficialIsStored(sha, s, id);
      AfterApprovalTraced(s, id, ApprovalBatch(sha, s, q), ArtifactFor(sha, q.snap, q.official, q.publishedAt), t);
    } else {
      RefusedApproval(sha, s, id);
      RefusedApprovalTraced(s, id, ApprovalBatch(sha, s, q), t);
    }
  }

  lemma {:induction false} OfficialIsStored(sha: Blob -> string, s: State, id: RequestId)
    requires RequestsOk(sha, s) && id in s.requests && s.requests[id].Stored?
    ensures var key := PackageKeyOf(sha, s.requests[id].snap, s.requests[id].official);
      key in s.store && s.store[key] == s.requests[id].official
  {
    assert RequestOk(sha, s.db, s.store, id, s.requests[id]);
  }

  lemma {:induction false} RefusedApproval(sha: Blob -> string, s: State, id: RequestId)
    requires StateOk(sha, s) && id in s.requests && s.requests[id].Stored? && !ApprovalBatch(sha, s, s.requests[id]).ok
    ensures ApprovalBatch(sha, s, s.requests[id]).db == s.db
  {
    ApprovalTables(sha, s, id);
  }

  lemma {:induction false} RefusedApprovalTraced(s: State, id: RequestId, b: Batch, t: Trail)
    requires TablesOk(s.db) && TrailOk(s, t) && id in s.requests && s.requests[id].Stored? && !b.ok && b.db == s.db
    ensures TrailOk(AfterApproval(s, id, s.requests[id], b), t)
  {
    GoesOnTraced(s, AfterApproval(s, id, s.requests[id], b), id, t);
  }

  lemma {:induction false} ReviewTraced(sha: Blob -> string, s: State, e: Event, id: RequestId, t: Trail)
    requires StateOk(sha, s) && TrailOk(s, t) && id in s.requests && IsReviewStep(e) && !e.CommitClaim?
    ensures TrailOk(StepReview(sha, s, e, id, s.requests[id]), t)
  {
    var q := s.requests[id];
    if !IsReviewCommit(e) {
      BetweenTraced(sha, s, e, id, t);
    } else if e.CommitApproval? {
      if q.Stored? { ApprovalTraced(sha, s, id, t); }
    } else if e.CommitDecision? {
      if q.Claimed? && !q.decision.Approval? && e.at <= s.clock { DecisionTraced(sha, s, id, e.at, t); }
    } else if q.ReviewFailed? {
      RollbackTraced(sha, s, id, t);
    }
  }

  // ---- Events of no request ----

  /** The snapshot a review starts with holds the key its release names. */
  lemma {:induction false} OpenedTraced(sha: Blob -> string, s: State, e: Event, t: Trail)
    requires StateOk(sha, s) && TrailOk(s, t) && Opened(s.db, e).Some?
    ensures TrailOk(Start(s, Opened(s.db, e).value), t)
  {
    OpenedIsOk(sha, s, e);
    if e.StartReview? {
      assert RowTraced(t.written, s.db.releases[s.db.submissions[e.submission].release]);
    }
    QuietTablesTrail(s, Start(s, Opened(s.db, e).value), s.next, t);
  }

  lemma {:induction false} OutsideInPlace(sha: Blob -> string, s: State, e: Event)
    requires StateOk(sha, s) && !IsRequestStep(e)
    ensures InPlace(s.db, Apply(sha, s, e).db)
  {
    NothingMoves(s.db);
    if e.RunSweep? {
      SweepHasShape(s.db, e.at);
      SweepInPlace(s.db, Sweep(s.db, e.at), s.next);
    }
  }

  lemma {:induction false} OutsideTraced(sha: Blob -> string, s: State, e: Event, t: Trail)
    requires StateOk(sha, s) && TrailOk(s, t) && !IsRequestStep(e) && Evolves(s.db, Apply(sha, s, e).db)
    ensures TrailOk(Apply(sha, s, e), t)
  {
    if e.ExpireStaging? {
      if e.key.StagingKey? {
        PackagesStay(s, e.key);
        QuietTablesTrail(s, Apply(sha, s, e), s.next, t);
      }
    } else {
      OutsideKeepsKeys(sha, s, e);
      if Opened(s.db, e).Some? {
        OpenedTraced(sha, s, e, t);
      } else {
        OutsideInPlace(sha, s, e);
        QuietTrail(s, Apply(sha, s, e), s.next, t);
      }
    }
  }

  // ---- All events ----

  lemma {:induction false} ApplyEvolves(sha: Blob -> string, s: State, e: Event)
    requires StateOk(sha, s) && WithinLease(s)
    ensures Evolves(s.db, Apply(sha, s, e).db)
  {
    ApplyKeeps(sha, s, e);
  }

  lemma {:induction false} ApplyKeepsTrail(sha: Blob -> string, s: State, e: Event, t: Trail)
    requires StateOk(sha, s) && WithinLease(s) && UploadsOk(s) && TrailOk(s, t)
    ensures TrailOk(Apply(sha, s, e), Record(s, e, t))
  {
    if !IsRequestStep(e) {
      ApplyEvolves(sha, s, e);
      OutsideTraced(sha, s, e, t);
    } else if e.id in s.requests {
      RequestStepTraced(sha, s, e, t);
    }
  }

  lemma {:induction false} RequestStepTraced(sha: Blob -> string, s: State, e: Event, t: Trail)
    requires StateOk(sha, s) && UploadsOk(s) && TrailOk(s, t) && IsRequestStep(e) && e.id in s.requests
    ensures TrailOk(StepRequest(sha, s, e, e.id, s.requests[e.id]), Record(s, e, t))
  {
    if e.CommitClaim? {
      if s.requests[e.id].ReviewRead? && e.at <= s.clock { ClaimStepTraced(sha, s, e.id, e.at, t); }
    } else if e.PutStaging? {
      if s.requests[e.id].UploadPlanned? { PutTrail(s, e.id, t); }
    } else if IsReviewStep(e) {
      ReviewTraced(sha, s, e, e.id, t);
    } else {
      PublisherTraced(sha, s, e, e.id, t);
    }
  }

  lemma {:induction false} ReachableIsTraced(sha: Blob -> string, events: seq<Event>)
    requires RunWithinLease(sha, events)
    ensures TrailOk(Run(sha, events), TrailOf(sha, events))
  {
    if events != [] {
      var n := |events| - 1;
      PrefixWithinLease(sha, events, n);
      ReachableIsTraced(sha, events[..n]);
      ReachableIsSound(sha, events[..n]);
      ReachableUploadsOk(sha, events[..n]);
      ApplyKeepsTrail(sha, Run(sha, events[..n]), events[n], TrailOf(sha, events[..n]));
    }
  }
}
