/** The staged packages: the invariant under which, as long as none of them expires, the package of
    every release that is not published is in the object store, whatever clean-ups run beside it. */
module HubStaging {
  import opened Options
  import opened HubDatabase
  import opened HubInvariant
  import opened HubProtocol
  import opened HubSafety
  import opened HubSteps
  import opened HubRuns
  import opened HubUploads

  // ---- The invariant ----

  predicate IsOpenUpload(request: Request) {
    request.UploadStarted? || request.UploadChecked? || request.UploadPlanned? || request.UploadStored?
  }

  /** No upload that may still write this key is in flight. */
  predicate Spent(s: State, key: ObjectKey) {
    key.StagingKey? && key.nonce < s.next && (key.nonce in s.requests ==> !IsOpenUpload(s.requests[key.nonce]))
  }

  /** The object is a staged package of this extension and version. */
  predicate PackageAt(store: map<ObjectKey, Blob>, key: ObjectKey, release: Release) {
    key in store && store[key].Staged? && store[key].extension == release.extension && store[key].version == release.version
  }

  predicate RowStaged(store: map<ObjectKey, Blob>, r: ReleaseId, release: Release) {
    && release.stagingKey.Some? && release.stagingKey.value.StagingKey? && release.stagingKey.value.release == r
    && (!Final(release.status) ==> PackageAt(store, release.stagingKey.value, release))
  }

  ghost predicate RowsStaged(s: State) {
    forall r :: r in s.db.releases ==> RowStaged(s.store, r, s.db.releases[r])
  }

  predicate NamesOpen(db: Database, r: ReleaseId, key: ObjectKey) {
    r in db.releases && db.releases[r].stagingKey == Some(key) && !Final(db.releases[r].status)
  }

  /** No release that is still to be published names the key. */
  ghost predicate Unnamed(db: Database, key: ObjectKey) {
    forall r :: !NamesOpen(db, r, key)
  }

  /** The key a review read belongs to its release. */
  predicate SnapStaged(s: State, snap: Snapshot) {
    snap.stagingKey.Some? ==> Spent(s, snap.stagingKey.value) && snap.stagingKey.value.release == snap.release
  }

  ghost predicate RequestStaged(s: State, id: RequestId, request: Request) {
    && (request.UploadStored? ==>
          StagingKeyOf(id, request) in s.store
          && s.store[StagingKeyOf(id, request)] == Staged(request.upload.extension, request.upload.version, request.upload.files))
    && (request.StagingCleanup? ==> Spent(s, request.key) && Unnamed(s.db, request.key))
    && (request.ReviewRead? || request.Holds() ==> SnapStaged(s, request.snap))
  }

  ghost predicate RequestsStaged(s: State) {
    forall id :: id in s.requests ==> RequestStaged(s, id, s.requests[id])
  }

  ghost predicate StagingOk(s: State) {
    RowsStaged(s) && RequestsStaged(s)
  }

  // ---- What steps leave alone ----

  /** No release appears and none changes the key of its package. */
  ghost predicate KeysSame(db: Database, db': Database) {
    forall r :: r in db'.releases ==> r in db.releases && db'.releases[r].stagingKey == db.releases[r].stagingKey
  }

  ghost predicate StagedKept(store: map<ObjectKey, Blob>, store': map<ObjectKey, Blob>) {
    forall k :: k in store && k.StagingKey? ==> k in store' && store'[k] == store[k]
  }

  /** The other requests are the ones before, and no upload starts under an id that was issued before. */
  ghost predicate OthersAsBefore(s: State, s': State, id: RequestId) {
    && s.next <= s'.next
    && (forall j :: j in s'.requests && j != id ==> j in s.requests && s'.requests[j] == s.requests[j])
    && (id in s'.requests && IsOpenUpload(s'.requests[id]) ==> id >= s.next || (id in s.requests && IsOpenUpload(s.requests[id])))
  }

  lemma {:induction false} SpentStable(s: State, s': State, id: RequestId, key: ObjectKey)
    requires OthersAsBefore(s, s', id) && Spent(s, key)
    ensures Spent(s', key)
  {
  }

  /** A row's key is spent: an upload in flight has not written its own yet. */
  lemma {:induction false} RowKeyIsSpent(sha: Blob -> string, s: State, r: ReleaseId)
    requires StateOk(sha, s) && r in s.db.releases && s.db.releases[r].stagingKey.Some?
    ensures Spent(s, s.db.releases[r].stagingKey.value)
  {
    var key := s.db.releases[r].stagingKey.value;
    assert KeyIssued(s.db.releases[r], s.next);
    if key.nonce in s.requests && IsOpenUpload(s.requests[key.nonce]) {
      assert RequestOk(sha, s.db, s.store, key.nonce, s.requests[key.nonce]);
      assert UsesNonce(s.db.releases[r], key.nonce);
    }
  }

  lemma {:induction false} UnnamedStable(db: Database, db': Database, key: ObjectKey)
    requires Evolves(db, db') && KeysSame(db, db') && Unnamed(db, key)
    ensures Unnamed(db', key)
  {
    forall r | r in db'.releases ensures !NamesOpen(db', r, key) {
      assert ReleaseEvolves(db, db', r) && !NamesOpen(db, r, key);
    }
  }

  lemma {:induction false} RowsStayStaged(s: State, s': State)
    requires RowsStaged(s) && Evolves(s.db, s'.db) && KeysSame(s.db, s'.db) && StagedKept(s.store, s'.store)
    ensures RowsStaged(s')
  {
    forall r | r in s'.db.releases ensures RowStaged(s'.store, r, s'.db.releases[r]) {
      assert RowStaged(s.store, r, s.db.releases[r]) && ReleaseEvolves(s.db, s'.db, r);
    }
  }

  lemma {:induction false} RequestStaysStaged(s: State, s': State, id: RequestId, j: RequestId)
    requires Evolves(s.db, s'.db) && KeysSame(s.db, s'.db) && StagedKept(s.store, s'.store) && OthersAsBefore(s, s', id)
    requires j in s.requests && RequestStaged(s, j, s.requests[j])
    ensures RequestStaged(s', j, s.requests[j])
  {
    var request := s.requests[j];
    if request.StagingCleanup? {
      SpentStable(s, s', id, request.key);
      UnnamedStable(s.db, s'.db, request.key);
    }
    if (request.ReviewRead? || request.Holds()) && request.snap.stagingKey.Some? {
      SpentStable(s, s', id, request.snap.stagingKey.value);
    }
  }

  /** A step that leaves keys and staged objects alone, and whose own request stays in order. */
  lemma {:induction false} QuietStaging(s: State, s': State, id: RequestId)
    requires StagingOk(s) && Evolves(s.db, s'.db) && KeysSame(s.db, s'.db) && StagedKept(s.store, s'.store)
    requires OthersAsBefore(s, s', id) && (id in s'.requests ==> RequestStaged(s', id, s'.requests[id]))
    ensures StagingOk(s')
  {
    RowsStayStaged(s, s');
    forall j | j in s'.requests ensures RequestStaged(s', j, s'.requests[j]) {
      if j != id {
        RequestStaysStaged(s, s', id, j);
      }
    }
  }

  // ---- The batches keep the keys ----

  lemma {:induction false} SubmitKeepsKeys(db: Database, release: ReleaseId, extension: ExtensionId, seenKey: ObjectKey,
                                           seenCurrent: Option<ReleaseId>, newId: SubmissionId, now: nat)
    ensures KeysSame(db, Submit(db, release, extension, seenKey, seenCurrent, newId, now).db)
  {
  }

  lemma {:induction false} ClaimKeepsKeys(db: Database, t: SubmissionId, r: ReleaseId, now: nat)
    ensures KeysSame(db, Claim(db, t, r, now).db)
  {
  }

  lemma {:induction false} RollbackKeepsKeys(db: Database, t: SubmissionId, r: ReleaseId)
    ensures KeysSame(db, Rollback(db, t, r))
  {
  }

  lemma {:induction false} DecisionKeepsKeys(db: Database, reject: bool, t: SubmissionId, r: ReleaseId,
                                             e: ExtensionId, now: nat)
    ensures KeysSame(db, Decide(db, reject, t, r, e, now).db)
  {
  }

  lemma {:induction false} ApprovalKeepsKeys(db: Database, t: SubmissionId, r: ReleaseId, e: ExtensionId,
                                             seen: Option<ReleaseId>,
                                             artifact: Artifact, now: nat)
    ensures var b := Approve(db, t, r, e, seen, artifact, now); KeysSame(db, b.db) && (b.ok ==> ReleaseIs(b.db, r, Published))
  {
  }

  // ---- Uploads ----

  lemma {:induction false} PutStagingStaged(sha: Blob -> string, s: State, id: RequestId)
    requires StateOk(sha, s) && StagingOk(s) && id in s.requests && s.requests[id].UploadPlanned?
    ensures StagingOk(PutStagingStep(s, id, s.requests[id]))
  {
    var s' := PutStagingStep(s, id, s.requests[id]);
    var key := StagingKeyOf(id, s.requests[id]);
    assert RequestOk(sha, s.db, s.store, id, s.requests[id]);
    forall r | r in s'.db.releases ensures RowStaged(s'.store, r, s'.db.releases[r]) {
      assert RowStaged(s.store, r, s.db.releases[r]) && !UsesNonce(s.db.releases[r], id);
    }
    forall j | j in s'.requests ensures RequestStaged(s', j, s'.requests[j]) {
      if j != id {
        assert RequestStaged(s, j, s.requests[j]);
      }
    }
  }

  /** The rows an upload batch that commits leaves: its own with its key, the others as before. */
  lemma {:induction false} CommittedRows(s: State, id: RequestId)
    requires id in s.requests && s.requests[id].UploadStored? && UploadBatch(s, id, s.requests[id]).ok
    ensures var q := s.requests[id];
            var r := PlannedRelease(q.plan);
            var db' := UploadBatch(s, id, q).db;
            && r in db'.releases && db'.releases == s.db.releases[r := db'.releases[r]]
            && db'.releases[r].stagingKey == Some(StagingKeyOf(id, q)) && db'.releases[r].status == Draft
            && (q.plan.Insert? ==> db'.releases[r].extension == q.upload.extension && db'.releases[r].version == q.upload.version)
            && (q.plan.Replace? ==>
                  && r in s.db.releases && s.db.releases[r].stagingKey == q.plan.existing.stagingKey
                  && db'.releases[r].extension == s.db.releases[r].extension && db'.releases[r].version == s.db.releases[r].version)
  {
  }

  lemma {:induction false} RefusedRows(s: State, id: RequestId)
    requires id in s.requests && s.requests[id].UploadStored? && !UploadBatch(s, id, s.requests[id]).ok
    ensures UploadBatch(s, id, s.requests[id]).db.releases == s.db.releases
  {
  }

  lemma {:induction false} CommittedRowsStaged(sha: Blob -> string, s: State, id: RequestId)
    requires StagingOk(s) && UploadsOk(s)
    requires id in s.requests && s.requests[id].UploadStored? && UploadBatch(s, id, s.requests[id]).ok
    ensures RowsStaged(s.(db := UploadBatch(s, id, s.requests[id]).db))
  {
    CommittedRows(s, id);
    var q := s.requests[id];
    var db' := UploadBatch(s, id, q).db;
    assert RequestStaged(s, id, q) && UploadOk(s.db, q);
    forall r | r in db'.releases ensures RowStaged(s.store, r, db'.releases[r]) {
      assert r != PlannedRelease(q.plan) ==> RowStaged(s.store, r, s.db.releases[r]);
    }
  }

  /** The rows other than `r` are as before, and `r` names the key of the open upload `id`. */
  ghost predicate WritesOwnKey(db: Database, db': Database, r: ReleaseId, id: RequestId) {
    && r in db'.releases && db'.releases == db.releases[r := db'.releases[r]]
    && db'.releases[r].stagingKey.Some? && db'.releases[r].stagingKey.value.StagingKey? && db'.releases[r].stagingKey.value.nonce == id
  }

  lemma {:induction false} SpentKeyStaysUnnamed(s: State, db': Database, r: ReleaseId, id: RequestId, key: ObjectKey)
    requires WritesOwnKey(s.db, db', r, id) && id in s.requests && IsOpenUpload(s.requests[id])
    requires Spent(s, key) && Unnamed(s.db, key)
    ensures Unnamed(db', key)
  {
    forall q | q in db'.releases ensures !NamesOpen(db', q, key) {
      assert !NamesOpen(s.db, q, key);
    }
  }

  /** Another request stays in order across an upload batch that commits. */
  lemma {:induction false} OtherAcrossUpload(s: State, s': State, r: ReleaseId, id: RequestId, j: RequestId)
    requires WritesOwnKey(s.db, s'.db, r, id) && id in s.requests && IsOpenUpload(s.requests[id])
    requires s'.store == s.store && OthersAsBefore(s, s', id)
    requires j in s.requests && j != id && RequestStaged(s, j, s.requests[j])
    ensures RequestStaged(s', j, s.requests[j])
  {
    var request := s.requests[j];
    if request.StagingCleanup? {
      SpentStable(s, s', id, request.key);
      SpentKeyStaysUnnamed(s, s'.db, r, id, request.key);
    }
    if (request.ReviewRead? || request.Holds()) && request.snap.stagingKey.Some? {
      SpentStable(s, s', id, request.snap.stagingKey.value);
    }
  }

  /** The replaced key belonged to the replaced release alone. */
  lemma {:induction false} ReplacedKeyIsUnnamed(sha: Blob -> string, s: State, id: RequestId, r: ReleaseId,
                                                db': Database)
    requires StateOk(sha, s) && RowsStaged(s) && WritesOwnKey(s.db, db', r, id)
    requires id in s.requests && IsOpenUpload(s.requests[id])
    requires r in s.db.releases && s.db.releases[r].stagingKey.Some?
    ensures Unnamed(db', s.db.releases[r].stagingKey.value)
  {
    var key := s.db.releases[r].stagingKey.value;
    RowKeyIsSpent(sha, s, r);
    assert RowStaged(s.store, r, s.db.releases[r]);
    forall q | q in db'.releases ensures !NamesOpen(db', q, key) {
      assert q in s.db.releases ==> RowStaged(s.store, q, s.db.releases[q]);
    }
  }

  lemma {:induction false} UploadCommitsStaged(sha: Blob -> string, s: State, id: RequestId)
    requires StateOk(sha, s) && StagingOk(s) && UploadsOk(s)
    requires id in s.requests && s.requests[id].UploadStored? && UploadBatch(s, id, s.requests[id]).ok
    ensures StagingOk(CommitUploadStep(s, id, s.requests[id]))
  {
    var q := s.requests[id];
    var s' := CommitUploadStep(s, id, q);
    var r := PlannedRelease(q.plan);
    CommittedRows(s, id);
    CommittedRowsStaged(sha, s, id);
    assert WritesOwnKey(s.db, s'.db, r, id);
    forall j | j in s'.requests ensures RequestStaged(s', j, s'.requests[j]) {
      if j != id {
        OtherAcrossUpload(s, s', r, id, j);
      } else {
        RowKeyIsSpent(sha, s, r);
        SpentStable(s, s', id, s.db.releases[r].stagingKey.value);
        ReplacedKeyIsUnnamed(sha, s, id, r, s'.db);
      }
    }
  }

  lemma {:induction false} UploadRefusedStaged(sha: Blob -> string, s: State, id: RequestId)
    requires StateOk(sha, s) && StagingOk(s)
    requires id in s.requests && s.requests[id].UploadStored? && !UploadBatch(s, id, s.requests[id]).ok
    requires Evolves(s.db, UploadBatch(s, id, s.requests[id]).db)
    ensures StagingOk(CommitUploadStep(s, id, s.requests[id]))
  {
    RefusedRows(s, id);
    NothingCommitted(sha, s, id, UploadBatch(s, id, s.requests[id]));
  }

  lemma {:induction false} UploadThrowsStaged(sha: Blob -> string, s: State, id: RequestId)
    requires StateOk(sha, s) && StagingOk(s) && id in s.requests && s.requests[id].UploadStored?
    ensures StagingOk(UploadThrowsStep(s, id, s.requests[id]))
  {
    NothingChanges(s.db, None);
    NothingCommitted(sha, s, id, Batch(s.db, false));
  }

  /** After a batch that did not write its release the object of the request is named by nobody. */
  lemma {:induction false} NothingCommitted(sha: Blob -> string, s: State, id: RequestId, b: Batch)
    requires StateOk(sha, s) && StagingOk(s) && id in s.requests && s.requests[id].UploadStored?
    requires !b.ok && b.db.releases == s.db.releases && Evolves(s.db, b.db)
    ensures StagingOk(AfterUpload(s, id, s.requests[id], b))
  {
    var q := s.requests[id];
    var s' := AfterUpload(s, id, q, b);
    assert RequestOk(sha, s.db, s.store, id, q);
    forall r ensures !NamesOpen(s'.db, r, StagingKeyOf(id, q)) {
      assert r in s.db.releases ==> !UsesNonce(s.db.releases[r], id);
    }
    QuietStaging(s, s', id);
  }

  lemma {:induction false} CleanupStaged(s: State, id: RequestId, works: bool)
    requires StagingOk(s) && id in s.requests && s.requests[id].StagingCleanup?
    ensures StagingOk(DeleteStagingStep(s, id, s.requests[id], works))
  {
    var s' := DeleteStagingStep(s, id, s.requests[id], works);
    var key := s.requests[id].key;
    assert RequestStaged(s, id, s.requests[id]);
    forall r | r in s'.db.releases ensures RowStaged(s'.store, r, s'.db.releases[r]) {
      assert RowStaged(s.store, r, s.db.releases[r]) && !NamesOpen(s.db, r, key);
    }
    forall j | j in s'.requests ensures RequestStaged(s', j, s'.requests[j]) {
      assert RequestStaged(s, j, s.requests[j]);
    }
  }

  lemma {:induction false} UploadStepStaged(sha: Blob -> string, s: State, id: RequestId)
    requires StateOk(sha, s) && StagingOk(s) && UploadsOk(s) && id in s.requests && s.requests[id].UploadStored?
    requires Evolves(s.db, UploadBatch(s, id, s.requests[id]).db)
    ensures StagingOk(CommitUploadStep(s, id, s.requests[id]))
  {
    if UploadBatch(s, id, s.requests[id]).ok {
      UploadCommitsStaged(sha, s, id);
    } else {
      UploadRefusedStaged(sha, s, id);
    }
  }

  // ---- The other steps ----

  /** A step after which the request, if there still is one, is a review of the same snapshot. */
  ghost predicate SameReview(s: State, s': State, id: RequestId) {
    && id in s.requests && (s.requests[id].ReviewRead? || s.requests[id].Holds())
    && (forall j :: j in s'.requests && j != id ==> j in s.requests && s'.requests[j] == s.requests[j])
    && (id in s'.requests ==> s'.requests[id].Holds() && s'.requests[id].snap == s.requests[id].snap)
    && s.next == s'.next
  }

  lemma {:induction false} SameReviewStaged(s: State, s': State, id: RequestId)
    requires StagingOk(s) && Evolves(s.db, s'.db) && KeysSame(s.db, s'.db) && StagedKept(s.store, s'.store) && SameReview(s, s', id)
    ensures StagingOk(s')
  {
    assert RequestStaged(s, id, s.requests[id]);
    var snap := s.requests[id].snap;
    assert OthersAsBefore(s, s', id);
    if snap.stagingKey.Some? {
      SpentStable(s, s', id, snap.stagingKey.value);
    }
    QuietStaging(s, s', id);
  }

  lemma {:induction false} BetweenBatchesStaged(sha: Blob -> string, s: State, e: Event, id: RequestId)
    requires IsReviewStep(e) && !IsReviewCommit(e) && id in s.requests
    ensures var s' := StepReview(sha, s, e, id, s.requests[id]);
      s' == s || (s'.db == s.db && StagedKept(s.store, s'.store) && SameReview(s, s', id))
  {
  }

  /** After an approval the key of its release is only named by that release, which is published. */
  lemma {:induction false} ApprovedKeyIsUnnamed(s: State, s': State, snap: Snapshot)
    requires RowsStaged(s') && SnapStaged(s, snap) && snap.stagingKey.Some? && ReleaseIs(s'.db, snap.release, Published)
    ensures Unnamed(s'.db, snap.stagingKey.value)
  {
    forall r | r in s'.db.releases ensures !NamesOpen(s'.db, r, snap.stagingKey.value) {
      assert RowStaged(s'.store, r, s'.db.releases[r]);
    }
  }

  lemma {:induction false} AfterApprovalStaged(s: State, id: RequestId, b: Batch)
    requires StagingOk(s) && id in s.requests && s.requests[id].Stored?
    requires Evolves(s.db, b.db) && KeysSame(s.db, b.db) && (b.ok ==> ReleaseIs(b.db, s.requests[id].snap.release, Published))
    ensures StagingOk(AfterApproval(s, id, s.requests[id], b))
  {
    var q := s.requests[id];
    var s' := AfterApproval(s, id, q, b);
    if b.ok && q.snap.stagingKey.Some? {
      assert RequestStaged(s, id, q);
      RowsStayStaged(s, s');
      ApprovedKeyIsUnnamed(s, s', q.snap);
      SpentStable(s, s', id, q.snap.stagingKey.value);
      QuietStaging(s, s', id);
    } else {
      SameReviewStaged(s, s', id);
    }
  }

  lemma {:induction false} AfterClaimStaged(s: State, id: RequestId, at: nat, b: Batch)
    requires StagingOk(s) && id in s.requests && s.requests[id].ReviewRead?
    requires Evolves(s.db, b.db) && KeysSame(s.db, b.db)
    ensures StagingOk(AfterClaim(s, id, s.requests[id], at, b))
  {
    SameReviewStaged(s, AfterClaim(s, id, s.requests[id], at, b), id);
  }

  lemma {:induction false} AfterDecisionStaged(s: State, id: RequestId, b: Batch)
    requires StagingOk(s) && id in s.requests && s.requests[id].Claimed?
    requires Evolves(s.db, b.db) && KeysSame(s.db, b.db)
    ensures StagingOk(AfterDecision(s, id, s.requests[id], b))
  {
    SameReviewStaged(s, AfterDecision(s, id, s.requests[id], b), id);
  }

  /** A batch after which the request is over. */
  lemma {:induction false} LastStepStaged(s: State, id: RequestId, db': Database)
    requires StagingOk(s) && Evolves(s.db, db') && KeysSame(s.db, db')
    ensures StagingOk(Done(s.(db := db'), id))
  {
    QuietStaging(s, Done(s.(db := db'), id), id);
  }

  lemma {:induction false} ClaimStaged(s: State, id: RequestId, at: nat)
    requires StagingOk(s) && id in s.requests && s.requests[id].ReviewRead?
    requires Evolves(s.db, ClaimStep(s, id, s.requests[id], at).db)
    ensures StagingOk(ClaimStep(s, id, s.requests[id], at))
  {
    var snap := s.requests[id].snap;
    ClaimKeepsKeys(s.db, snap.submission, snap.release, at);
    AfterClaimStaged(s, id, at, Claim(s.db, snap.submission, snap.release, at));
  }

  lemma {:induction false} ApprovalStaged(sha: Blob -> string, s: State, id: RequestId)
    requires StagingOk(s) && id in s.requests && s.requests[id].Stored?
    requires Evolves(s.db, CommitApprovalStep(sha, s, id, s.requests[id]).db)
    ensures StagingOk(CommitApprovalStep(sha, s, id, s.requests[id]))
  {
    var q := s.requests[id];
    ApprovalKeepsKeys(s.db, q.snap.submission, q.snap.release, q.snap.extension, q.snap.current,
                      ArtifactFor(sha, q.snap, q.official, q.publishedAt), q.publishedAt);
    AfterApprovalStaged(s, id, ApprovalBatch(sha, s, q));
  }

  lemma {:induction false} DecisionStaged(s: State, id: RequestId, at: nat)
    requires StagingOk(s) && id in s.requests && s.requests[id].Claimed?
    requires Evolves(s.db, CommitDecisionStep(s, id, s.requests[id], at).db)
    ensures StagingOk(CommitDecisionStep(s, id, s.requests[id], at))
  {
    var q := s.requests[id];
    DecisionKeepsKeys(s.db, q.decision.Rejection?, q.snap.submission, q.snap.release, q.snap.extension, at);
    AfterDecisionStaged(s, id, Decide(s.db, q.decision.Rejection?, q.snap.submission, q.snap.release, q.snap.extension, at));
  }

  lemma {:induction false} RollbackStaged(s: State, id: RequestId)
    requires StagingOk(s) && id in s.requests && s.requests[id].ReviewFailed?
    requires Evolves(s.db, RollbackStep(s, id, s.requests[id]).db)
    ensures StagingOk(RollbackStep(s, id, s.requests[id]))
  {
    var snap := s.requests[id].snap;
    RollbackKeepsKeys(s.db, snap.submission, snap.release);
    LastStepStaged(s, id, Rollback(s.db, snap.submission, snap.release));
  }

  lemma {:induction false} ReviewBatchStaged(sha: Blob -> string, s: State, e: Event, id: RequestId)
    requires StagingOk(s) && id in s.requests && IsReviewCommit(e)
    requires Evolves(s.db, StepReview(sha, s, e, id, s.requests[id]).db)
    ensures StagingOk(StepReview(sha, s, e, id, s.requests[id]))
  {
    if e.CommitClaim? || e.CommitDecision? {
      TimedBatchStaged(sha, s, e, id);
    } else {
      OtherBatchIs(sha, s, e, id);
      if e.CommitApproval? {
        if s.requests[id].Stored? { ApprovalStaged(sha, s, id); }
      } else if s.requests[id].ReviewFailed? {
        RollbackStaged(s, id);
      }
    }
  }

  lemma {:induction false} OtherBatchIs(sha: Blob -> string, s: State, e: Event, id: RequestId)
    requires id in s.requests && (e.CommitApproval? || e.CommitRollback?)
    ensures var q := s.requests[id];
      StepReview(sha, s, e, id, q) ==
        if e.CommitApproval? then if q.Stored? then CommitApprovalStep(sha, s, id, q) else s
        else if q.ReviewFailed? then RollbackStep(s, id, q) else s
  {
  }

  lemma {:induction false} TimedBatchIs(sha: Blob -> string, s: State, e: Event, id: RequestId)
    requires id in s.requests && (e.CommitClaim? || e.CommitDecision?)
    ensures var q := s.requests[id];
      StepReview(sha, s, e, id, q) ==
        if e.CommitClaim? then if q.ReviewRead? && e.at <= s.clock then ClaimStep(s, id, q, e.at) else s
        else if q.Claimed? && !q.decision.Approval? && e.at <= s.clock then CommitDecisionStep(s, id, q, e.at) else s
  {
  }

  lemma {:induction false} TimedBatchStaged(sha: Blob -> string, s: State, e: Event, id: RequestId)
    requires StagingOk(s) && id in s.requests && (e.CommitClaim? || e.CommitDecision?)
    requires Evolves(s.db, StepReview(sha, s, e, id, s.requests[id]).db)
    ensures StagingOk(StepReview(sha, s, e, id, s.requests[id]))
  {
    TimedBatchIs(sha, s, e, id);
    var q := s.requests[id];
    if e.CommitClaim? {
      if q.ReviewRead? && e.at <= s.clock { ClaimStaged(s, id, e.at); }
    } else if q.Claimed? && !q.decision.Approval? && e.at <= s.clock {
      DecisionStaged(s, id, e.at);
    }
  }

  lemma {:induction false} ReviewStepStaged(sha: Blob -> string, s: State, e: Event, id: RequestId)
    requires TablesOk(s.db) && StagingOk(s) && id in s.requests && IsReviewStep(e)
    requires Evolves(s.db, StepReview(sha, s, e, id, s.requests[id]).db)
    ensures StagingOk(StepReview(sha, s, e, id, s.requests[id]))
  {
    if IsReviewCommit(e) {
      ReviewBatchStaged(sha, s, e, id);
    } else {
      BetweenBatchesStaged(sha, s, e, id);
      var s' := StepReview(sha, s, e, id, s.requests[id]);
      if s' != s {
        SameReviewStaged(s, s', id);
      }
    }
  }

  lemma {:induction false} CheckOrPlanStaged(s: State, id: RequestId, newRelease: ReleaseId)
    requires TablesOk(s.db) && StagingOk(s) && id in s.requests
    ensures s.requests[id].UploadStarted? ==> StagingOk(CheckUploadStep(s, id, s.requests[id]))
    ensures s.requests[id].UploadChecked? ==> StagingOk(PlanUpload(s, id, s.requests[id].upload, newRelease))
  {
    NothingChanges(s.db, None);
    if s.requests[id].UploadStarted? {
      QuietStaging(s, CheckUploadStep(s, id, s.requests[id]), id);
    }
    if s.requests[id].UploadChecked? {
      PlanUploadShape(s, id, s.requests[id].upload, newRelease);
      QuietStaging(s, PlanUpload(s, id, s.requests[id].upload, newRelease), id);
    }
  }

  lemma {:induction false} SubmitStaged(s: State, id: RequestId, newSubmission: SubmissionId, at: nat)
    requires StagingOk(s) && id in s.requests && s.requests[id].SubmitRead?
    requires Evolves(s.db, SubmitStep(s, id, s.requests[id], newSubmission, at).db)
    ensures StagingOk(SubmitStep(s, id, s.requests[id], newSubmission, at))
  {
    var q := s.requests[id];
    SubmitKeepsKeys(s.db, q.release, q.extension, q.seenKey, q.seenCurrent, newSubmission, at);
    LastStepStaged(s, id, Submit(s.db, q.release, q.extension, q.seenKey, q.seenCurrent, newSubmission, at).db);
  }

  predicate IsUploadStep(e: Event) {
    e.CheckUploadVersion? || e.ReadExisting? || e.PutStaging? || e.CommitUpload? || e.UploadThrows? || e.DeleteStaging?
  }

  lemma {:induction false} UploadEventStaged(sha: Blob -> string, s: State, e: Event, id: RequestId)
    requires StateOk(sha, s) && StagingOk(s) && UploadsOk(s) && id in s.requests && IsUploadStep(e)
    requires s.requests[id].UploadStored? ==> Evolves(s.db, UploadBatch(s, id, s.requests[id]).db)
    ensures StagingOk(StepPublisher(s, e, id, s.requests[id]))
  {
    var q := s.requests[id];
    if e.CheckUploadVersion? {
      CheckOrPlanStaged(s, id, "");
    } else if e.ReadExisting? {
      CheckOrPlanStaged(s, id, e.newRelease);
    } else if e.PutStaging? {
      if q.UploadPlanned? { PutStagingStaged(sha, s, id); }
    } else if e.CommitUpload? {
      if q.UploadStored? { UploadStepStaged(sha, s, id); }
    } else if e.UploadThrows? {
      if q.UploadStored? { UploadThrowsStaged(sha, s, id); }
    } else if q.StagingCleanup? {
      CleanupStaged(s, id, e.works);
    }
  }

  lemma {:induction false} UploadEvolves(sha: Blob -> string, s: State, id: RequestId)
    requires StateOk(sha, s) && id in s.requests && s.requests[id].UploadStored?
    ensures Evolves(s.db, UploadBatch(s, id, s.requests[id]).db)
  {
    UploadTables(sha, s, id);
  }

  lemma {:induction false} LastEventStaged(s: State, e: Event, id: RequestId)
    requires StagingOk(s) && id in s.requests && (e.CommitSubmit? || e.CommitYank? || e.Abandon?)
    requires Evolves(s.db, StepPublisher(s, e, id, s.requests[id]).db)
    ensures StagingOk(StepPublisher(s, e, id, s.requests[id]))
  {
    LastEventIs(s, e, id);
    var q := s.requests[id];
    if e.CommitSubmit? {
      if q.SubmitRead? && e.at <= s.clock { SubmitStaged(s, id, e.newSubmission, e.at); }
    } else if e.CommitYank? {
      if q.YankRead? { LastStepStaged(s, id, Yank(s.db, q.release)); }
    } else {
      LastStepStaged(s, id, s.db);
    }
  }

  lemma {:induction false} LastEventIs(s: State, e: Event, id: RequestId)
    requires id in s.requests && (e.CommitSubmit? || e.CommitYank? || e.Abandon?)
    ensures var q := s.requests[id];
      StepPublisher(s, e, id, q) ==
        if e.Abandon? then Done(s, id)
        else if e.CommitYank? then if q.YankRead? then YankStep(s, id, q) else s
        else if q.SubmitRead? && e.at <= s.clock then SubmitStep(s, id, q, e.newSubmission, e.at) else s
  {
  }

  lemma {:induction false} PublisherStepStaged(sha: Blob -> string, s: State, e: Event, id: RequestId)
    requires StateOk(sha, s) && StagingOk(s) && UploadsOk(s) && id in s.requests
    requires Evolves(s.db, StepPublisher(s, e, id, s.requests[id]).db)
    ensures StagingOk(StepPublisher(s, e, id, s.requests[id]))
  {
    if IsUploadStep(e) {
      if s.requests[id].UploadStored? { UploadEvolves(sha, s, id); }
      UploadEventStaged(sha, s, e, id);
    } else if e.CommitSubmit? || e.CommitYank? || e.Abandon? {
      LastEventStaged(s, e, id);
    }
  }

  // ---- Events of no request ----

  lemma {:induction false} OutsideKeepsKeys(sha: Blob -> string, s: State, e: Event)
    requires !IsRequestStep(e) && !e.ExpireStaging?
    ensures var s' := Apply(sha, s, e);
      && KeysSame(s.db, s'.db) && s'.store == s.store
      && (Opened(s.db, e).None? ==> s'.requests == s.requests && s'.next == s.next)
      && (Opened(s.db, e).Some? ==> s' == Start(s, Opened(s.db, e).value))
  {
  }

  /** The snapshot a review starts with holds the key its release names. */
  lemma {:induction false} ReadSnapStaged(sha: Blob -> string, s: State, t: SubmissionId)
    requires StateOk(sha, s) && RowsStaged(s) && MayReview(s.db, t)
    ensures SnapStaged(s, ReadReview(s.db, t))
  {
    var r := s.db.submissions[t].release;
    assert RowStaged(s.store, r, s.db.releases[r]);
    RowKeyIsSpent(sha, s, r);
  }

  lemma {:induction false} StartStaged(s: State, request: Request)
    requires TablesOk(s.db) && StagingOk(s) && s.next !in s.requests
    requires !request.UploadStored? && !request.StagingCleanup?
    requires request.ReviewRead? || request.Holds() ==> SnapStaged(s, request.snap)
    ensures StagingOk(Start(s, request))
  {
    var s' := Start(s, request);
    NothingChanges(s.db, None);
    if (request.ReviewRead? || request.Holds()) && request.snap.stagingKey.Some? {
      SpentStable(s, s', s.next, request.snap.stagingKey.value);
    }
    QuietStaging(s, s', s.next);
  }

  lemma {:induction false} OpenedStaged(sha: Blob -> string, s: State, e: Event)
    requires StateOk(sha, s) && StagingOk(s) && Opened(s.db, e).Some?
    ensures StagingOk(Start(s, Opened(s.db, e).value))
  {
    if e.StartReview? {
      ReadSnapStaged(sha, s, e.submission);
    }
    StartStaged(s, Opened(s.db, e).value);
  }

  lemma {:induction false} OutsideStepStaged(sha: Blob -> string, s: State, e: Event)
    requires StateOk(sha, s) && StagingOk(s) && !IsRequestStep(e) && !e.ExpireStaging? && Evolves(s.db, Apply(sha, s, e).db)
    ensures StagingOk(Apply(sha, s, e))
  {
    OutsideKeepsKeys(sha, s, e);
    if Opened(s.db, e).Some? {
      OpenedStaged(sha, s, e);
    } else {
      QuietStaging(s, Apply(sha, s, e), s.next);
    }
  }

  // ---- Runs ----

  lemma {:induction false} ApplyKeepsStaging(sha: Blob -> string, s: State, e: Event)
    requires StateOk(sha, s) && WithinLease(s) && StagingOk(s) && UploadsOk(s) && !e.ExpireStaging?
    ensures StagingOk(Apply(sha, s, e))
  {
    ApplyKeeps(sha, s, e);
    if !IsRequestStep(e) {
      OutsideStepStaged(sha, s, e);
    } else if e.id in s.requests {
      if IsReviewStep(e) {
        ReviewStepStaged(sha, s, e, e.id);
      } else {
        PublisherStepStaged(sha, s, e, e.id);
      }
    }
  }

  lemma {:induction false} ReachableStagingOk(sha: Blob -> string, events: seq<Event>)
    requires RunWithinLease(sha, events) && forall i | 0 <= i < |events| :: !events[i].ExpireStaging?
    ensures StagingOk(Run(sha, events))
  {
    if events != [] {
      var n := |events| - 1;
      PrefixWithinLease(sha, events, n);
      ReachableStagingOk(sha, events[..n]);
      ReachableIsSound(sha, events[..n]);
      ReachableUploadsOk(sha, events[..n]);
      ApplyKeepsStaging(sha, Run(sha, events[..n]), events[n]);
    }
  }
}
