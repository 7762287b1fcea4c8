/** The other ways a review ends, yanks, clean-ups, and what happens besides the requests. */
module HubEndings {
  import opened Options
  import opened SemVer
  import opened HubDatabase
  import opened HubInvariant
  import opened HubReviews
  import opened HubProtocol
  import opened HubOutcomes
  import opened HubPipeline

  // ---- The other ends of a review, and yanks ----

  ghost function Decided(sha: Blob -> string, s: State, submission: SubmissionId, decision: Decision): State {
    Apply(sha, Apply(sha, Apply(sha, s, StartReview(submission, decision)), CommitClaim(s.next, s.clock)), CommitDecision(s.next, s.clock))
  }

  lemma {:induction false} DecisionIsBatch(sha: Blob -> string, s: State, snap: Snapshot, at: nat,
                                           decision: Decision, batch: Batch)
    requires s.next !in s.requests && decision != Approval
    requires batch == Decide(s.db, decision == Rejection, snap.submission, snap.release, snap.extension, s.clock)
    ensures Apply(sha, WithRequest(s, Claimed(snap, at, decision)), CommitDecision(s.next, s.clock))
         == if batch.ok then s.(db := batch.db, next := s.next + 1) else WithRequest(s.(db := batch.db), ReviewFailed(snap, at))
  {
    GoesBy(s.requests, s.next, Claimed(snap, at, decision), ReviewFailed(snap, at));
  }

  lemma {:induction false} ChangesWrite(db: Database, submission: SubmissionId, release: ReleaseId, at: nat)
    requires TablesOk(db) && IsPending(db, submission, release)
    ensures release in db.releases
    ensures var b := Decide(WithClaim(db, submission, release, at), false, submission, release, db.releases[release].extension, at);
      && b.ok
      && b.db.releases == db.releases[release := db.releases[release].(status := Changes)]
      && b.db.submissions == db.submissions[submission := db.submissions[submission].(status := SubChanges, resolvedAt := Some(at))]
      && ListingFollows(db, b.db, db.releases[release].extension, ListingDraft)
  {
    ClaimIsSound(db, submission, release, at);
    var claimed := WithClaim(db, submission, release, at);
    DecideIs(claimed, submission, release, db.releases[release].extension, at);
    WrittenOver(db, submission, release, at);
  }

  lemma {:induction false} WrittenOver(db: Database, submission: SubmissionId, release: ReleaseId, at: nat)
    requires submission in db.submissions && release in db.releases
    ensures var claimed := WithClaim(db, submission, release, at);
      && claimed.submissions[submission := claimed.submissions[submission].(status := SubChanges, resolvedAt := Some(at))]
         == db.submissions[submission := db.submissions[submission].(status := SubChanges, resolvedAt := Some(at))]
      && claimed.releases[release := claimed.releases[release].(status := Changes)]
         == db.releases[release := db.releases[release].(status := Changes)]
  {
  }

  lemma {:induction false} ChangesAreWritten(sha: Blob -> string, s: State, submission: SubmissionId,
                                             release: ReleaseId)
    requires TablesOk(s.db) && s.next !in s.requests && IsPending(s.db, submission, release)
    ensures release in s.db.releases
    ensures Decided(sha, s, submission, ChangeRequest) == s.(next := s.next + 1,
      db := Decide(WithClaim(s.db, submission, release, s.clock), false, submission, release, s.db.releases[release].extension, s.clock).db)
  {
    ReviewIsHeld(sha, s, submission, release, ChangeRequest);
    ChangesWrite(s.db, submission, release, s.clock);
    var snap, claimed := SnapOf(s.db, submission, release), WithClaim(s.db, submission, release, s.clock);
    DecisionIsBatch(sha, s.(db := claimed), snap, s.clock, ChangeRequest, Decide(claimed, false, submission, release, snap.extension, s.clock));
  }

  /** A request for changes, undisturbed, sends the pair back to its publisher. */
  lemma {:induction false} ChangesAreRequested(sha: Blob -> string, s: State, submission: SubmissionId,
                                               release: ReleaseId)
    requires TablesOk(s.db) && s.next !in s.requests && IsPending(s.db, submission, release)
    ensures var t := Decided(sha, s, submission, ChangeRequest);
      && release in s.db.releases
      && t.db.releases == s.db.releases[release := s.db.releases[release].(status := Changes)]
      && t.db.submissions == s.db.submissions[submission := s.db.submissions[submission].(status := SubChanges, resolvedAt := Some(s.clock))]
      && ListingFollows(s.db, t.db, s.db.releases[release].extension, ListingDraft)
      && t.requests == s.requests && t.store == s.store
  {
    ChangesWrite(s.db, submission, release, s.clock);
    ChangesAreWritten(sha, s, submission, release);
  }

  lemma {:induction false} RejectionFails(sha: Blob -> string, s: State, submission: SubmissionId, release: ReleaseId)
    requires TablesOk(s.db) && s.next !in s.requests && IsPending(s.db, submission, release)
    ensures release in s.db.releases
    ensures Decided(sha, s, submission, Rejection)
         == WithRequest(s.(db := WithClaim(s.db, submission, release, s.clock)), ReviewFailed(SnapOf(s.db, submission, release), s.clock))
  {
    ReviewIsHeld(sha, s, submission, release, Rejection);
    ClaimIsSound(s.db, submission, release, s.clock);
    var snap, claimed := SnapOf(s.db, submission, release), WithClaim(s.db, submission, release, s.clock);
    DecideIs(claimed, submission, release, snap.extension, s.clock);
    DecisionIsBatch(sha, s.(db := claimed), snap, s.clock, Rejection, Batch(claimed, false));
  }

  lemma {:induction false} ClaimIsUndone(db: Database, submission: SubmissionId, release: ReleaseId, at: nat)
    requires TablesOk(db) && IsPending(db, submission, release)
    ensures release in db.releases
    ensures Rollback(WithClaim(db, submission, release, at), submission, release)
         == db.(submissions := db.submissions[submission := db.submissions[submission].(resolvedAt := None)])
  {
    OnlySubmission(db, submission, release);
    ClaimIsSound(db, submission, release, at);
    RollbackIs(WithClaim(db, submission, release, at), submission, release);
    assert db.releases[release := db.releases[release].(status := Pending)] == db.releases;
  }

  /** A rejection, undisturbed, comes to nothing: its batch is rolled back, and the catch block leaves the pair pending. */
  lemma {:induction false} RejectionIsUndone(sha: Blob -> string, s: State, submission: SubmissionId,
                                             release: ReleaseId)
    requires TablesOk(s.db) && s.next !in s.requests && IsPending(s.db, submission, release)
    ensures var t := Apply(sha, Decided(sha, s, submission, Rejection), CommitRollback(s.next));
      && t.db == s.db.(submissions := s.db.submissions[submission := s.db.submissions[submission].(resolvedAt := None)])
      && t.requests == s.requests && t.store == s.store
  {
    RejectionFails(sha, s, submission, release);
    var failed := ReviewFailed(SnapOf(s.db, submission, release), s.clock);
    ClaimIsUndone(s.db, submission, release, s.clock);
    RollsBack(sha, WithRequest(s.(db := WithClaim(s.db, submission, release, s.clock)), failed), s.next, SnapOf(s.db, submission, release), s.clock);
    GoesBy(s.requests, s.next, failed, failed);
  }

  lemma {:induction false} RollsBack(sha: Blob -> string, s: State, id: RequestId, snap: Snapshot, at: nat)
    requires id in s.requests && s.requests[id] == ReviewFailed(snap, at)
    ensures Apply(sha, s, CommitRollback(id)) == Done(s.(db := Rollback(s.db, snap.submission, snap.release)), id)
  {
  }

  /** A yank, undisturbed, retires a published release that is not current, and does nothing to any other. */
  lemma {:induction false} YankIff(sha: Blob -> string, s: State, release: ReleaseId)
    requires s.next !in s.requests
    ensures Apply(sha, Apply(sha, s, StartYank(release)), CommitYank(s.next))
         == if release in s.db.releases && s.db.releases[release].status == Published && CurrentOf(s.db, s.db.releases[release].extension) != Some(release)
            then s.(db := s.db.(releases := s.db.releases[release := s.db.releases[release].(status := Yanked)]), next := s.next + 1)
            else s
  {
    if MayYank(s.db, release) {
      var read := YankRead(release);
      assert Apply(sha, s, StartYank(release)) == WithRequest(s, read);
      YankIs(s.db, release);
      GoesBy(s.requests, s.next, read, read);
    } else {
      assert Apply(sha, s, StartYank(release)) == s;
      NoRequestNoStep(sha, s, CommitYank(s.next));
    }
  }

  // ---- What a request needs to begin ----

  /** An upload of a version that has a row replaces it exactly when the row is open, and otherwise ends. */
  lemma {:induction false} PlansReplacement(sha: Blob -> string, s: State, id: RequestId, upload: Upload,
                                            release: ReleaseId, r: ReleaseId)
    requires TablesOk(s.db) && id in s.requests && s.requests[id] == UploadChecked(upload)
    requires r in s.db.releases && s.db.releases[r].extension == upload.extension && s.db.releases[r].version == upload.version
    ensures Apply(sha, s, ReadExisting(id, release)) ==
      if Reopens(s.db.releases[r].status) then Go(s, id, UploadPlanned(upload, Replace(Existing(r, s.db.releases[r].stagingKey)))) else Done(s, id)
  {
    forall q | q in s.db.releases && s.db.releases[q].extension == upload.extension && s.db.releases[q].version == upload.version
      ensures q == r
    {
      assert SameSlot(s.db, q, r);
    }
  }

  /** A submission begins exactly on an open release with a package, with what it then reads. */
  lemma {:induction false} SubmitOpensIff(sha: Blob -> string, s: State, release: ReleaseId)
    ensures Apply(sha, s, StartSubmit(release)) ==
      if release in s.db.releases && s.db.releases[release].stagingKey.Some? && Reopens(s.db.releases[release].status)
      then WithRequest(s, SubmitRead(release, s.db.releases[release].extension, s.db.releases[release].stagingKey.value,
                                     CurrentOf(s.db, s.db.releases[release].extension)))
      else s
  {
  }

  /** A review begins exactly on a pending submission of a pending release, with what it then reads. */
  lemma {:induction false} ReviewOpensIff(sha: Blob -> string, s: State, submission: SubmissionId, decision: Decision)
    ensures Apply(sha, s, StartReview(submission, decision)) ==
      if submission in s.db.submissions && s.db.submissions[submission].status == SubPending
         && s.db.submissions[submission].release in s.db.releases && s.db.releases[s.db.submissions[submission].release].status == Pending
      then WithRequest(s, ReviewRead(SnapOf(s.db, submission, s.db.submissions[submission].release), decision))
      else s
  {
  }

  // ---- Clean-ups ----

  ghost predicate IsAt(s: State, id: RequestId, request: Request) {
    id in s.requests && s.requests[id] == request
  }

  /** An upload whose batch throws leaves nothing behind once its clean-up works. */
  lemma {:induction false} ThrownUploadIsCleaned(sha: Blob -> string, s: State, id: RequestId, upload: Upload,
                                                 plan: Plan)
    requires IsAt(s, id, UploadStored(upload, plan))
    ensures Apply(sha, Apply(sha, s, UploadThrows(id)), DeleteStaging(id, true))
         == s.(store := s.store - {StagingKey(upload.extension, PlannedRelease(plan), id)}, requests := s.requests - {id})
  {
    var key := StagingKey(upload.extension, PlannedRelease(plan), id);
    assert Apply(sha, s, UploadThrows(id)) == Go(s, id, StagingCleanup(key));
    DeletesStaging(sha, Go(s, id, StagingCleanup(key)), id, key);
    assert s.requests[id := StagingCleanup(key)] - {id} == s.requests - {id};
  }

  lemma {:induction false} DeletesStaging(sha: Blob -> string, s: State, id: RequestId, key: ObjectKey)
    requires IsAt(s, id, StagingCleanup(key))
    ensures Apply(sha, s, DeleteStaging(id, true)) == s.(store := s.store - {key}, requests := s.requests - {id})
    ensures Apply(sha, s, DeleteStaging(id, false)) == s.(requests := s.requests - {id})
  {
  }

  /** An upload whose batch is refused does the same; one that replaces a draft removes the package it replaced. */
  lemma {:induction false} UploadIsCleaned(sha: Blob -> string, s: State, id: RequestId, upload: Upload, plan: Plan)
    requires IsAt(s, id, UploadStored(upload, plan))
    ensures var request := UploadStored(upload, plan);
      var t := Apply(sha, s, CommitUpload(id));
      && (!UploadBatch(s, id, request).ok ==> IsAt(t, id, StagingCleanup(StagingKey(upload.extension, PlannedRelease(plan), id))))
      && (UploadBatch(s, id, request).ok && plan.Replace? && plan.existing.stagingKey.Some? ==>
            IsAt(t, id, StagingCleanup(plan.existing.stagingKey.value)))
      && (UploadBatch(s, id, request).ok && !(plan.Replace? && plan.existing.stagingKey.Some?) ==> t.requests == s.requests - {id})
      && t.store == s.store && t.db == UploadBatch(s, id, request).db
  {
  }

  /** A review that throws before it has stored a package only has its claim to take back. */
  lemma {:induction false} ThrownEarly(sha: Blob -> string, s: State, id: RequestId, snap: Snapshot, at: nat,
                                       decision: Decision, official: Blob, built: nat)
    requires IsAt(s, id, Claimed(snap, at, decision)) || IsAt(s, id, VersionChecked(snap, at)) || IsAt(s, id, Built(snap, at, official, built))
    ensures Apply(sha, s, ReviewThrows(id)) == Go(s, id, ReviewFailed(snap, at))
  {
  }

  lemma {:induction false} DeletesPackage(sha: Blob -> string, s: State, id: RequestId, snap: Snapshot, at: nat,
                                          official: Blob, works: bool)
    requires IsAt(s, id, PublishFailed(snap, at, official))
    ensures Apply(sha, s, DeletePackage(id, works))
         == Go(if works then s.(store := s.store - {PackageKey(snap.extension, snap.version, sha(official))}) else s, id, ReviewFailed(snap, at))
  {
  }

  /** A review that throws after it has stored its package removes it before it takes the claim back. */
  lemma {:induction false} ThrownReviewIsCleaned(sha: Blob -> string, s: State, id: RequestId, snap: Snapshot,
                                                 at: nat, official: Blob, published: nat,
                                                 works: bool)
    requires IsAt(s, id, Stored(snap, at, official, published))
    ensures Apply(sha, Apply(sha, s, ReviewThrows(id)), DeletePackage(id, works))
         == Go(if works then s.(store := s.store - {PackageKey(snap.extension, snap.version, sha(official))}) else s, id, ReviewFailed(snap, at))
  {
    var failed := PublishFailed(snap, at, official);
    assert Apply(sha, s, ReviewThrows(id)) == Go(s, id, failed);
    DeletesPackage(sha, Go(s, id, failed), id, snap, at, official, works);
    assert s.requests[id := failed][id := ReviewFailed(snap, at)] == s.requests[id := ReviewFailed(snap, at)];
  }

  /** So does one whose approval is refused; an approval that goes through removes the staged package. */
  lemma {:induction false} RefusedApprovalIsCleaned(sha: Blob -> string, s: State, id: RequestId, snap: Snapshot,
                                                    at: nat, official: Blob, published: nat)
    requires IsAt(s, id, Stored(snap, at, official, published))
    ensures var batch := ApprovalBatch(sha, s, Stored(snap, at, official, published));
      var t := Apply(sha, s, CommitApproval(id));
      && (!batch.ok ==> IsAt(t, id, PublishFailed(snap, at, official)))
      && (batch.ok && snap.stagingKey.Some? ==> IsAt(t, id, StagingCleanup(snap.stagingKey.value)))
      && t.store == s.store && t.db == batch.db
  {
  }

  // ---- What happens besides the requests ----

  /** A review that died with its claim is taken back by a sweep more than an hour after the claim. */
  lemma {:induction false} DeadClaimIsSwept(db: Database, submission: SubmissionId, at: nat)
    requires TablesOk(db) && submission in db.submissions && db.submissions[submission].status == SubReviewing
    requires db.submissions[submission].resolvedAt.Some? && db.submissions[submission].resolvedAt.value + 60 < at
    ensures var swept := Sweep(db, at);
      var release := db.submissions[submission].release;
      && submission in swept.submissions && swept.submissions[submission].status == SubPending
      && release in swept.releases && swept.releases[release].status == Pending
  {
    OnlySubmission(db, submission, db.submissions[submission].release);
    SweepIs(db, at, submission);
  }

  lemma {:induction false} SweepStepIs(sha: Blob -> string, s: State, at: nat)
    ensures Apply(sha, s, RunSweep(at)) == if at <= s.clock then s.(db := Sweep(s.db, at)) else s
  {
  }

  lemma {:induction false} TickIs(sha: Blob -> string, s: State, minutes: nat)
    ensures Apply(sha, s, Tick(minutes)) == s.(clock := s.clock + minutes)
  {
  }

  /** A listing is created and suspended without touching anything else. */
  lemma {:induction false} ListingEvents(sha: Blob -> string, s: State, e: ExtensionId)
    ensures Apply(sha, s, CreateExtension(e)) ==
      if e in s.db.listings then s else s.(db := s.db.(listings := s.db.listings[e := Listing(ListingDraft, None)]))
    ensures Apply(sha, s, SuspendExtension(e)) ==
      if e in s.db.listings && s.db.listings[e].status == ListingPublished
      then s.(db := s.db.(listings := s.db.listings[e := Listing(ListingSuspended, s.db.listings[e].current)])) else s
  {
  }

  /** A staged object expires, and a request dies, without touching anything else. */
  lemma {:induction false} Losses(sha: Blob -> string, s: State, key: ObjectKey, id: RequestId)
    requires id in s.requests
    ensures Apply(sha, s, ExpireStaging(key)) == if key.StagingKey? then s.(store := s.store - {key}) else s
    ensures Apply(sha, s, Abandon(id)) == s.(requests := s.requests - {id})
  {
  }
}
