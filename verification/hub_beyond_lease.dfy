/** Runs without the lease: reviews may be overtaken by the sweep and by each other.  The tables stay sound
    exactly as long as every decision that is neither an approval nor a rollback finds its submission as
    `DecisionKeepsTablesIff` asks. */
module HubBeyondLease {
  import opened Options
  import opened SemVer
  import opened HubDatabase
  import opened HubInvariant
  import opened HubBatches
  import opened HubReviews
  import opened HubProtocol
  import opened HubSafety
  import opened HubSteps
  import opened HubRuns
  import opened HubStaging
  import opened HubLease

  // ---- What requests read, without what they hold ----

  ghost predicate ReadOk(db: Database, id: RequestId, request: Request) {
    && (IsOpenUpload(request) ==> NonceUnused(db, id))
    && (request.ReviewRead? || request.Holds() ==> SnapOk(db, request.snap))
    && (request.VersionChecked? || request.Built? || request.Stored? ==> NewerThanSeen(db, request.snap))
    && (request.YankRead? ==> Retired(db, request.release))
  }

  ghost predicate ReadsOk(s: State) {
    forall id :: id in s.requests ==> id < s.next && ReadOk(s.db, id, s.requests[id])
  }

  ghost predicate TablesSound(s: State) {
    TablesOk(s.db) && ReadsOk(s) && KeysIssued(s.db, s.next)
  }

  /** The other requests are the ones before. */
  ghost predicate OthersSame(s: State, s': State, id: RequestId) {
    s.next <= s'.next && forall j :: j in s'.requests && j != id ==> j in s.requests && s'.requests[j] == s.requests[j]
  }

  /** The claim that the decision batch does not re-check. */
  predicate DecisionFits(s: State, e: Event) {
    e.CommitDecision? && e.id in s.requests && s.requests[e.id].Claimed? && !s.requests[e.id].decision.Approval? && e.at <= s.clock ==>
      var q := s.requests[e.id];
      || SubmissionIs(s.db, q.snap.submission, SubReviewing)
      || (SubmissionIs(s.db, q.snap.submission, SubChanges) && !q.decision.Rejection?)
  }

  ghost predicate Continues(s: State, s': State) {
    TablesSound(s') && Evolves(s.db, s'.db)
  }

  // ---- Stability ----

  lemma {:induction false} ReadStable(db: Database, db': Database, id: RequestId, request: Request, own: RequestId)
    requires ReadOk(db, id, request) && Evolves(db, db') && NoncesKept(db, db', own) && own != id
    ensures ReadOk(db', id, request)
  {
    if request.ReviewRead? || request.Holds() {
      SnapStable(db, db', request.snap);
    }
    if NonceUnused(db, id) {
      forall r | r in db'.releases ensures !UsesNonce(db'.releases[r], id) {
        assert NonceKept(db, db', r, own);
      }
    }
    if request.YankRead? {
      assert ReleaseEvolves(db, db', request.release);
    }
  }

  lemma {:induction false} StepContinues(s: State, s': State, id: RequestId)
    requires TablesSound(s) && TablesOk(s'.db) && Evolves(s.db, s'.db) && NoncesKept(s.db, s'.db, id) && KeysIssued(s'.db, s'.next)
    requires OthersSame(s, s', id) && (id in s'.requests ==> id < s'.next && ReadOk(s'.db, id, s'.requests[id]))
    ensures Continues(s, s')
  {
    forall j | j in s'.requests ensures j < s'.next && ReadOk(s'.db, j, s'.requests[j]) {
      if j != id {
        ReadStable(s.db, s'.db, j, s.requests[j], id);
      }
    }
  }

  /** A batch that writes releases in place leaves every staging key alone. */
  lemma {:induction false} InPlaceKeepsNonces(db: Database, db': Database, id: RequestId, next: RequestId)
    requires KeysSame(db, db') && KeysIssued(db, next)
    ensures NoncesKept(db, db', id) && KeysIssued(db', next)
  {
    forall r | r in db'.releases ensures NonceKept(db, db', r, id) && KeyIssued(db'.releases[r], next) {
      assert KeyIssued(db.releases[r], next);
    }
  }

  /** A step that changes no key and leaves its request, if it is still there, with a read that is in order
      before the step. */
  lemma {:induction false} QuietContinues(s: State, s': State, id: RequestId)
    requires TablesSound(s) && TablesOk(s'.db) && Evolves(s.db, s'.db) && KeysSame(s.db, s'.db) && s'.next == s.next
    requires OthersSame(s, s', id) && (id in s'.requests ==> id < s.next && ReadOk(s.db, id, s'.requests[id]) && !IsOpenUpload(s'.requests[id]))
    ensures Continues(s, s')
  {
    InPlaceKeepsNonces(s.db, s'.db, id, s.next);
    if id in s'.requests {
      ReadStable(s.db, s'.db, id, s'.requests[id], s.next);
    }
    StepContinues(s, s', id);
  }

  /** With the tables unchanged. */
  lemma {:induction false} MoveContinues(s: State, s': State, id: RequestId)
    requires TablesSound(s) && s'.db == s.db && OthersSame(s, s', id)
    requires id in s'.requests ==> id < s'.next && ReadOk(s.db, id, s'.requests[id])
    ensures Continues(s, s')
  {
    NothingChanges(s.db, None);
    forall r | r in s.db.releases ensures KeyIssued(s.db.releases[r], s'.next) && NonceKept(s.db, s.db, r, id) {
      assert KeyIssued(s.db.releases[r], s.next);
    }
    StepContinues(s, s', id);
  }

  // ---- Publishers ----

  lemma {:induction false} UploadKeeps(s: State, id: RequestId)
    requires TablesSound(s) && id in s.requests && s.requests[id].UploadStored?
    ensures var db' := UploadBatch(s, id, s.requests[id]).db;
      TablesOk(db') && Evolves(s.db, db') && NoncesKept(s.db, db', id) && KeysIssued(db', s.next)
  {
    var q := s.requests[id];
    var key := StagingKeyOf(id, q);
    assert ReadOk(s.db, id, q);
    match q.plan {
      case Insert(newRelease) =>
        InsertKeeps(s.db, newRelease, q.upload.extension, q.upload.version, key, q.upload.seenCurrent);
      case Replace(existing) =>
        ReplaceKeeps(s.db, existing.release, key, existing.stagingKey, q.upload.seenCurrent, s.clock);
    }
  }

  lemma {:induction false} UploadContinues(s: State, id: RequestId, b: Batch)
    requires TablesSound(s) && id in s.requests && s.requests[id].UploadStored?
    requires TablesOk(b.db) && Evolves(s.db, b.db) && NoncesKept(s.db, b.db, id) && KeysIssued(b.db, s.next)
    ensures Continues(s, AfterUpload(s, id, s.requests[id], b))
  {
    StepContinues(s, AfterUpload(s, id, s.requests[id], b), id);
  }

  lemma {:induction false} PlanContinues(s: State, id: RequestId, newRelease: ReleaseId)
    requires TablesSound(s) && id in s.requests && s.requests[id].UploadChecked?
    ensures Continues(s, PlanUpload(s, id, s.requests[id].upload, newRelease))
  {
    PlanUploadShape(s, id, s.requests[id].upload, newRelease);
    assert ReadOk(s.db, id, s.requests[id]);
    MoveContinues(s, PlanUpload(s, id, s.requests[id].upload, newRelease), id);
  }

  lemma {:induction false} SubmitContinues(s: State, id: RequestId, newSubmission: SubmissionId, at: nat)
    requires TablesSound(s) && id in s.requests && s.requests[id].SubmitRead?
    ensures Continues(s, SubmitStep(s, id, s.requests[id], newSubmission, at))
  {
    var q := s.requests[id];
    SubmitKeeps(s.db, q.release, q.extension, q.seenKey, q.seenCurrent, newSubmission, at);
    SubmitKeepsKeys(s.db, q.release, q.extension, q.seenKey, q.seenCurrent, newSubmission, at);
    QuietContinues(s, SubmitStep(s, id, q, newSubmission, at), id);
  }

  lemma {:induction false} YankContinues(s: State, id: RequestId)
    requires TablesSound(s) && id in s.requests && s.requests[id].YankRead?
    ensures Continues(s, YankStep(s, id, s.requests[id]))
  {
    var q := s.requests[id];
    assert ReadOk(s.db, id, q);
    YankKeeps(s.db, q.release);
    QuietContinues(s, YankStep(s, id, q), id);
  }

  lemma {:induction false} StoreContinues(s: State, e: Event, id: RequestId)
    requires TablesSound(s) && id in s.requests && (e.CheckUploadVersion? || e.PutStaging? || e.DeleteStaging? || e.Abandon?)
    ensures Continues(s, StepPublisher(s, e, id, s.requests[id]))
  {
    assert ReadOk(s.db, id, s.requests[id]);
    MoveContinues(s, StepPublisher(s, e, id, s.requests[id]), id);
  }

  lemma {:induction false} UploadStepContinues(s: State, e: Event, id: RequestId)
    requires TablesSound(s) && id in s.requests && (e.CommitUpload? || e.UploadThrows?)
    ensures Continues(s, StepPublisher(s, e, id, s.requests[id]))
  {
    if s.requests[id].UploadStored? {
      if e.CommitUpload? {
        UploadKeeps(s, id);
        UploadContinues(s, id, UploadBatch(s, id, s.requests[id]));
      } else {
        MoveContinues(s, UploadThrowsStep(s, id, s.requests[id]), id);
      }
    } else {
      NothingChanges(s.db, None);
    }
  }

  lemma {:induction false} PublisherContinues(s: State, e: Event, id: RequestId)
    requires TablesSound(s) && id in s.requests
    ensures Continues(s, StepPublisher(s, e, id, s.requests[id]))
  {
    NothingChanges(s.db, None);
    if e.CheckUploadVersion? || e.PutStaging? || e.DeleteStaging? || e.Abandon? {
      StoreContinues(s, e, id);
    } else if e.CommitUpload? || e.UploadThrows? {
      UploadStepContinues(s, e, id);
    } else if e.ReadExisting? {
      if s.requests[id].UploadChecked? { PlanContinues(s, id, e.newRelease); }
    } else if e.CommitSubmit? {
      if s.requests[id].SubmitRead? && e.at <= s.clock { SubmitContinues(s, id, e.newSubmission, e.at); }
    } else if e.CommitYank? {
      if s.requests[id].YankRead? { YankContinues(s, id); }
    }
  }

  // ---- Reviews ----

  lemma {:induction false} ClaimContinues(s: State, id: RequestId, at: nat)
    requires TablesSound(s) && id in s.requests && s.requests[id].ReviewRead?
    ensures Continues(s, ClaimStep(s, id, s.requests[id], at))
  {
    var q := s.requests[id];
    assert ReadOk(s.db, id, q);
    ClaimAllOrNone(s.db, q.snap.submission, q.snap.release, at);
    ClaimKeepsKeys(s.db, q.snap.submission, q.snap.release, at);
    AfterClaimContinues(s, id, at, Claim(s.db, q.snap.submission, q.snap.release, at));
  }

  /** A batch after which the request is gone, or goes on as a review that only knows what it read. */
  ghost predicate LeavesReview(s: State, s': State, id: RequestId) {
    && OthersSame(s, s', id) && s'.next == s.next
    && (id in s'.requests ==> id < s.next && ReadOk(s.db, id, s'.requests[id]) && !IsOpenUpload(s'.requests[id]))
  }

  lemma {:induction false} BatchContinues(s: State, s': State, id: RequestId)
    requires TablesSound(s) && TablesOk(s'.db) && Evolves(s.db, s'.db) && KeysSame(s.db, s'.db) && LeavesReview(s, s', id)
    ensures Continues(s, s')
  {
    QuietContinues(s, s', id);
  }

  lemma {:induction false} BatchLeavesReview(s: State, id: RequestId, at: nat, b: Batch)
    requires id in s.requests && id < s.next && ReadOk(s.db, id, s.requests[id])
    ensures s.requests[id].ReviewRead? ==> LeavesReview(s, AfterClaim(s, id, s.requests[id], at, b), id)
    ensures s.requests[id].Stored? ==> LeavesReview(s, AfterApproval(s, id, s.requests[id], b), id)
    ensures s.requests[id].Claimed? ==> LeavesReview(s, AfterDecision(s, id, s.requests[id], b), id)
  {
  }

  lemma {:induction false} AfterClaimContinues(s: State, id: RequestId, at: nat, b: Batch)
    requires TablesSound(s) && id in s.requests && s.requests[id].ReviewRead?
    requires TablesOk(b.db) && Evolves(s.db, b.db) && KeysSame(s.db, b.db)
    ensures Continues(s, AfterClaim(s, id, s.requests[id], at, b))
  {
    BatchLeavesReview(s, id, at, b);
    BatchContinues(s, AfterClaim(s, id, s.requests[id], at, b), id);
  }

  lemma {:induction false} ApprovalContinues(sha: Blob -> string, s: State, id: RequestId)
    requires TablesSound(s) && id in s.requests && s.requests[id].Stored?
    ensures Continues(s, CommitApprovalStep(sha, s, id, s.requests[id]))
  {
    var q := s.requests[id];
    var artifact := ArtifactFor(sha, q.snap, q.official, q.publishedAt);
    assert ReadOk(s.db, id, q);
    ApproveAllOrNone(s.db, q.snap.submission, q.snap.release, q.snap.extension, q.snap.current, artifact, q.publishedAt);
    ApprovalKeepsKeys(s.db, q.snap.submission, q.snap.release, q.snap.extension, q.snap.current, artifact, q.publishedAt);
    if ApprovalBatch(sha, s, q).ok {
      ApproveKeeps(s.db, q.snap.submission, q.snap.release, q.snap.extension, q.snap.current, artifact, q.publishedAt);
    } else {
      NothingChanges(s.db, None);
    }
    AfterApprovalContinues(s, id, ApprovalBatch(sha, s, q));
  }

  lemma {:induction false} AfterApprovalContinues(s: State, id: RequestId, b: Batch)
    requires TablesSound(s) && id in s.requests && s.requests[id].Stored?
    requires TablesOk(b.db) && Evolves(s.db, b.db) && KeysSame(s.db, b.db)
    ensures Continues(s, AfterApproval(s, id, s.requests[id], b))
  {
    BatchLeavesReview(s, id, 0, b);
    BatchContinues(s, AfterApproval(s, id, s.requests[id], b), id);
  }

  /** The decision batch of a review whose claim may be gone. */
  lemma {:induction false} DecisionKeepsEvolves(db: Database, snap: Snapshot, reject: bool, at: nat)
    requires TablesOk(db) && SnapOk(db, snap)
    requires SubmissionIs(db, snap.submission, SubReviewing) || (SubmissionIs(db, snap.submission, SubChanges) && !reject)
    ensures var db' := Decide(db, reject, snap.submission, snap.release, snap.extension, at).db; TablesOk(db') && Evolves(db, db')
  {
    if !SubmissionIs(db, snap.submission, SubReviewing) {
      RepeatedChangesKeep(db, snap.submission, snap.release, at);
    } else if reject {
      RejectNeverCommits(db, snap.submission, snap.release, snap.extension, at);
      NothingChanges(db, None);
    } else {
      ChangesKeeps(db, snap.submission, snap.release, snap.extension, at);
    }
  }

  lemma {:induction false} AfterDecisionContinues(s: State, id: RequestId, b: Batch)
    requires TablesSound(s) && id in s.requests && s.requests[id].Claimed?
    requires TablesOk(b.db) && Evolves(s.db, b.db) && KeysSame(s.db, b.db)
    ensures Continues(s, AfterDecision(s, id, s.requests[id], b))
  {
    BatchLeavesReview(s, id, 0, b);
    BatchContinues(s, AfterDecision(s, id, s.requests[id], b), id);
  }

  lemma {:induction false} DecisionContinues(s: State, id: RequestId, at: nat)
    requires TablesSound(s) && id in s.requests && s.requests[id].Claimed? && !s.requests[id].decision.Approval? && at <= s.clock
    requires DecisionFits(s, CommitDecision(id, at))
    ensures Continues(s, CommitDecisionStep(s, id, s.requests[id], at))
  {
    var q := s.requests[id];
    assert ReadOk(s.db, id, q);
    DecisionKeepsEvolves(s.db, q.snap, q.decision.Rejection?, at);
    DecisionKeepsKeys(s.db, q.decision.Rejection?, q.snap.submission, q.snap.release, q.snap.extension, at);
    AfterDecisionContinues(s, id, Decide(s.db, q.decision.Rejection?, q.snap.submission, q.snap.release, q.snap.extension, at));
  }

  /** The catch block, with or without a claim to give back. */
  lemma {:induction false} RollbackIsSafe(db: Database, snap: Snapshot)
    requires TablesOk(db) && SnapOk(db, snap)
    ensures var db' := Rollback(db, snap.submission, snap.release); TablesOk(db') && Evolves(db, db')
  {
    OnlySubmission(db, snap.submission, snap.release);
    if SubmissionIs(db, snap.submission, SubReviewing) {
      RollbackKeeps(db, snap.submission, snap.release);
    } else {
      NothingChanges(db, None);
    }
  }

  lemma {:induction false} RollbackContinues(s: State, id: RequestId)
    requires TablesSound(s) && id in s.requests && s.requests[id].ReviewFailed?
    ensures Continues(s, RollbackStep(s, id, s.requests[id]))
  {
    var q := s.requests[id];
    assert ReadOk(s.db, id, q);
    RollbackIsSafe(s.db, q.snap);
    RollbackKeepsKeys(s.db, q.snap.submission, q.snap.release);
    QuietContinues(s, RollbackStep(s, id, q), id);
  }

  lemma {:induction false} BetweenContinues(sha: Blob -> string, s: State, e: Event, id: RequestId)
    requires TablesSound(s) && id in s.requests && IsReviewStep(e) && !IsReviewCommit(e)
    ensures Continues(s, StepReview(sha, s, e, id, s.requests[id]))
  {
    BetweenBatchesRead(sha, s, e, id);
    MoveContinues(s, StepReview(sha, s, e, id, s.requests[id]), id);
  }

  /** The version test reads the tables; every other step between the batches only goes on. */
  lemma {:induction false} BetweenBatchesRead(sha: Blob -> string, s: State, e: Event, id: RequestId)
    requires TablesSound(s) && id in s.requests && IsReviewStep(e) && !IsReviewCommit(e)
    ensures var s' := StepReview(sha, s, e, id, s.requests[id]);
      && s'.db == s.db && s'.next == s.next && OthersSame(s, s', id)
      && (id in s'.requests ==> ReadOk(s.db, id, s'.requests[id]))
  {
    BetweenGoesOn(sha, s, e, id);
    assert ReadOk(s.db, id, s.requests[id]);
  }

  lemma {:induction false} BetweenGoesOn(sha: Blob -> string, s: State, e: Event, id: RequestId)
    requires id in s.requests && IsReviewStep(e) && !IsReviewCommit(e)
    ensures var q := s.requests[id];
            var s' := StepReview(sha, s, e, id, q);
      && s'.db == s.db && s'.next == s.next && OthersSame(s, s', id) && id in s'.requests
      && (|| s'.requests[id] == q
          || (q.Holds() && s'.requests[id].Holds() && s'.requests[id].snap == q.snap
              && (s'.requests[id].VersionChecked? ==> MayApprove(s.db, q.snap))
              && (s'.requests[id].Built? ==> q.VersionChecked?) && (s'.requests[id].Stored? ==> q.Built?)))
  {
  }

  lemma {:induction false} ReviewContinues(sha: Blob -> string, s: State, e: Event, id: RequestId)
    requires TablesSound(s) && IsReviewStep(e) && id in s.requests && e.id == id && DecisionFits(s, e)
    ensures Continues(s, StepReview(sha, s, e, id, s.requests[id]))
  {
    NothingChanges(s.db, None);
    if !IsReviewCommit(e) {
      BetweenContinues(sha, s, e, id);
    } else if e.CommitClaim? || e.CommitDecision? {
      TimedBatchIs(sha, s, e, id);
      if e.CommitClaim? {
        if s.requests[id].ReviewRead? && e.at <= s.clock { ClaimContinues(s, id, e.at); }
      } else if s.requests[id].Claimed? && !s.requests[id].decision.Approval? && e.at <= s.clock {
        DecisionContinues(s, id, e.at);
      }
    } else {
      OtherBatchIs(sha, s, e, id);
      if e.CommitApproval? {
        if s.requests[id].Stored? { ApprovalContinues(sha, s, id); }
      } else if s.requests[id].ReviewFailed? {
        RollbackContinues(s, id);
      }
    }
  }

  // ---- Events of no request ----

  lemma {:induction false} OpenedContinues(s: State, e: Event)
    requires TablesSound(s) && Opened(s.db, e).Some?
    ensures Continues(s, Start(s, Opened(s.db, e).value))
  {
    forall r | r in s.db.releases ensures !UsesNonce(s.db.releases[r], s.next) {
      assert KeyIssued(s.db.releases[r], s.next);
    }
    MoveContinues(s, Start(s, Opened(s.db, e).value), s.next);
  }

  lemma {:induction false} TablesContinue(s: State, db': Database)
    requires TablesSound(s) && TablesOk(db') && Evolves(s.db, db') && KeysSame(s.db, db')
    ensures Continues(s, s.(db := db'))
  {
    QuietContinues(s, s.(db := db'), s.next);
  }

  lemma {:induction false} SweepContinues(s: State, at: nat)
    requires TablesSound(s)
    ensures Continues(s, s.(db := Sweep(s.db, at)))
  {
    SweepKeeps(s.db, at);
    SweepHasShape(s.db, at);
    SweepInPlace(s.db, Sweep(s.db, at), s.next);
    forall r | r in Sweep(s.db, at).releases ensures r in s.db.releases && Sweep(s.db, at).releases[r].stagingKey == s.db.releases[r].stagingKey {
      assert StaysPut(s.db, Sweep(s.db, at), r);
    }
    TablesContinue(s, Sweep(s.db, at));
  }

  lemma {:induction false} OutsideContinues(sha: Blob -> string, s: State, e: Event)
    requires TablesSound(s) && !IsRequestStep(e)
    ensures Continues(s, Apply(sha, s, e))
  {
    NothingChanges(s.db, None);
    if e.CreateExtension? {
      CreateKeeps(s.db, e.extension);
      TablesContinue(s, CreateListing(s.db, e.extension).db);
    } else if e.SuspendExtension? {
      SuspendKeeps(s.db, e.extension);
      TablesContinue(s, Suspend(s.db, e.extension).db);
    } else if e.RunSweep? {
      if e.at <= s.clock { SweepContinues(s, e.at); }
    } else if e.ExpireStaging? || e.Tick? {
      MoveContinues(s, Apply(sha, s, e), s.next);
    } else if Opened(s.db, e).Some? {
      OpenedContinues(s, e);
    }
  }

  // ---- Runs ----

  lemma {:induction false} ApplyContinues(sha: Blob -> string, s: State, e: Event)
    requires TablesSound(s) && DecisionFits(s, e)
    ensures Continues(s, Apply(sha, s, e))
  {
    if !IsRequestStep(e) {
      OutsideContinues(sha, s, e);
    } else if e.id in s.requests {
      if IsReviewStep(e) {
        ReviewContinues(sha, s, e, e.id);
      } else {
        PublisherContinues(s, e, e.id);
      }
    } else {
      NothingChanges(s.db, None);
    }
  }

  /** A decision that finds its submission otherwise makes the tables unsound. */
  lemma {:induction false} LateDecisionBreaks(sha: Blob -> string, s: State, e: Event)
    requires TablesSound(s) && !DecisionFits(s, e)
    ensures !TablesOk(Apply(sha, s, e).db)
  {
    var q := s.requests[e.id];
    assert ReadOk(s.db, e.id, q);
    DecisionKeepsTablesIff(s.db, q.decision.Rejection?, q.snap.submission, q.snap.release, e.at);
    TimedBatchIs(sha, s, e, e.id);
  }

  ghost predicate FitsAt(sha: Blob -> string, events: seq<Event>, n: nat)
    requires n < |events|
  {
    DecisionFits(Run(sha, events[..n]), events[n])
  }

  lemma {:induction false} RunStep(sha: Blob -> string, events: seq<Event>, n: nat)
    requires n < |events|
    ensures Run(sha, events[..n + 1]) == Apply(sha, Run(sha, events[..n]), events[n])
  {
    assert events[..n + 1] == events[..n] + [events[n]];
    RunSnoc(sha, events[..n], events[n]);
  }

  lemma {:induction false} FittingRunIsSound(sha: Blob -> string, events: seq<Event>, n: nat)
    requires n <= |events| && forall k: nat | k < n :: FitsAt(sha, events, k)
    ensures TablesSound(Run(sha, events[..n]))
  {
    if n > 0 {
      FittingRunIsSound(sha, events, n - 1);
      RunStep(sha, events, n - 1);
      assert FitsAt(sha, events, n - 1);
      ApplyContinues(sha, Run(sha, events[..n - 1]), events[n - 1]);
    }
  }

  ghost predicate TablesOkAt(sha: Blob -> string, events: seq<Event>, n: nat)
    requires n <= |events|
  {
    TablesOk(Run(sha, events[..n]).db)
  }

  lemma {:induction false} SoundRunFits(sha: Blob -> string, events: seq<Event>, n: nat)
    requires n <= |events| && forall k: nat | k <= n :: TablesOkAt(sha, events, k)
    ensures forall k: nat | k < n :: FitsAt(sha, events, k)
  {
    if n > 0 {
      SoundRunFits(sha, events, n - 1);
      FittingRunIsSound(sha, events, n - 1);
      assert TablesOkAt(sha, events, n);
      SoundStepFits(sha, events, n - 1);
    }
  }

  lemma {:induction false} SoundStepFits(sha: Blob -> string, events: seq<Event>, n: nat)
    requires n < |events| && TablesSound(Run(sha, events[..n])) && TablesOkAt(sha, events, n + 1)
    ensures FitsAt(sha, events, n)
  {
    RunStep(sha, events, n);
    if !FitsAt(sha, events, n) {
      LateDecisionBreaks(sha, Run(sha, events[..n]), events[n]);
    }
  }

  /** Over every run, leased or not, the tables are sound in all states exactly when every rejection and every
      request for changes finds its claim standing, or repeats a request for changes. */
  lemma {:induction false} TablesStaySoundIff(sha: Blob -> string, events: seq<Event>)
    ensures (forall n: nat | n <= |events| :: TablesOkAt(sha, events, n)) <==> forall n: nat | n < |events| :: FitsAt(sha, events, n)
  {
    if forall n: nat | n < |events| :: FitsAt(sha, events, n) {
      forall n: nat | n <= |events| ensures TablesOkAt(sha, events, n) {
        FittingRunIsSound(sha, events, n);
      }
    }
    if forall n: nat | n <= |events| :: TablesOkAt(sha, events, n) {
      SoundRunFits(sha, events, |events|);
    }
  }

  lemma {:induction false} FittingStepEvolves(sha: Blob -> string, events: seq<Event>, n: nat)
    requires n < |events| && TablesSound(Run(sha, events[..n])) && FitsAt(sha, events, n)
    ensures Evolves(Run(sha, events[..n]).db, Run(sha, events[..n + 1]).db)
  {
    RunStep(sha, events, n);
    ApplyContinues(sha, Run(sha, events[..n]), events[n]);
  }

  lemma {:induction false} StateEvolvesToItself(s: State)
    requires TablesSound(s)
    ensures Evolves(s.db, s.db)
  {
    NothingChanges(s.db, None);
  }

  /** Then the current version only rises and published content is frozen, with or without the lease. */
  lemma {:induction false} FittingRunEvolves(sha: Blob -> string, events: seq<Event>, i: nat, j: nat)
    requires i <= j <= |events| && forall k: nat | k < j :: FitsAt(sha, events, k)
    ensures Evolves(Run(sha, events[..i]).db, Run(sha, events[..j]).db)
  {
    if i == j {
      FittingRunIsSound(sha, events, i);
      StateEvolvesToItself(Run(sha, events[..i]));
    } else {
      assert forall k: nat | k < j - 1 :: FitsAt(sha, events, k);
      FittingRunEvolves(sha, events, i, j - 1);
      FittingRunIsSound(sha, events, j - 1);
      FittingStepEvolves(sha, events, j - 1);
      EvolvesTransitive(Run(sha, events[..i]).db, Run(sha, events[..j - 1]).db, Run(sha, events[..j]).db);
    }
  }

  /** Within the lease every decision fits. */
  lemma {:induction false} LeasedDecisionFits(sha: Blob -> string, events: seq<Event>, e: Event)
    requires RunWithinLease(sha, events)
    ensures DecisionFits(Run(sha, events), e)
  {
    ReachableIsSound(sha, events);
    var s := Run(sha, events);
    if e.CommitDecision? && e.id in s.requests && s.requests[e.id].Claimed? {
      assert RequestOk(sha, s.db, s.store, e.id, s.requests[e.id]);
    }
  }
}
