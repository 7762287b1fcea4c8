/** No claim is left without a request that answers for it: in a run in which no request dies, every
    submission under review is held by an in-flight request, within the lease by exactly one. */
module HubClaims {
  import opened Options
  import opened HubDatabase
  import opened HubInvariant
  import opened HubProtocol
  import opened HubSafety
  import opened HubRuns

  /** The in-flight request holds the claim on the submission. */
  predicate Holder(requests: map<RequestId, Request>, id: RequestId, submission: SubmissionId) {
    id in requests && requests[id].Holds() && requests[id].snap.submission == submission
  }

  ghost predicate Held(requests: map<RequestId, Request>, submission: SubmissionId) {
    exists id :: Holder(requests, id, submission)
  }

  ghost predicate ClaimsHeld(s: State) {
    forall t :: SubmissionIs(s.db, t, SubReviewing) ==> Held(s.requests, t)
  }

  /** Submissions under review were so before, except for `own`. */
  ghost predicate NoNewClaims(db: Database, db': Database, own: Option<SubmissionId>) {
    forall t :: SubmissionIs(db', t, SubReviewing) && own != Some(t) ==> SubmissionIs(db, t, SubReviewing)
  }

  /** The requests other than `id` stay as they are. */
  ghost predicate OthersStay(requests: map<RequestId, Request>, requests': map<RequestId, Request>, id: RequestId) {
    forall j :: j in requests && j != id ==> j in requests' && requests'[j] == requests[j]
  }

  /** A step of a request that holds nothing before. */
  lemma {:induction false} IdleStep(s: State, s': State, id: RequestId)
    requires ClaimsHeld(s) && NoNewClaims(s.db, s'.db, None) && OthersStay(s.requests, s'.requests, id)
    requires id in s.requests ==> !s.requests[id].Holds()
    ensures ClaimsHeld(s')
  {
    forall t | SubmissionIs(s'.db, t, SubReviewing) ensures Held(s'.requests, t) {
      assert SubmissionIs(s.db, t, SubReviewing);
      var j :| Holder(s.requests, j, t);
      assert Holder(s'.requests, j, t);
    }
  }

  /** A step of a review: afterwards its submission is not under review, or the request holds it. */
  lemma {:induction false} ReviewStep(s: State, s': State, id: RequestId, snap: Snapshot)
    requires ClaimsHeld(s) && NoNewClaims(s.db, s'.db, Some(snap.submission)) && OthersStay(s.requests, s'.requests, id)
    requires id in s.requests && (s.requests[id].Holds() ==> s.requests[id].snap == snap)
    requires SubmissionIs(s'.db, snap.submission, SubReviewing) ==> Held(s'.requests, snap.submission)
    ensures ClaimsHeld(s')
  {
    forall t | SubmissionIs(s'.db, t, SubReviewing) ensures Held(s'.requests, t) {
      if t != snap.submission {
        assert SubmissionIs(s.db, t, SubReviewing);
        var j :| Holder(s.requests, j, t);
        assert Holder(s'.requests, j, t);
      }
    }
  }

  // ---- The batches ----

  lemma {:induction false} SubmitClaimsNothing(db: Database, release: ReleaseId, extension: ExtensionId,
                                               seenKey: ObjectKey,
                                               seenCurrent: Option<ReleaseId>, newId: SubmissionId, now: nat)
    ensures NoNewClaims(db, Submit(db, release, extension, seenKey, seenCurrent, newId, now).db, None)
  {
  }

  lemma {:induction false} UploadClaimsNothing(s: State, id: RequestId, request: Request)
    requires request.UploadStored?
    ensures NoNewClaims(s.db, UploadBatch(s, id, request).db, None)
  {
  }

  /** After an approval batch is reported as committed, or a decision is, the submission is resolved. */
  lemma {:induction false} ApprovalResolves(db: Database, t: SubmissionId, r: ReleaseId, e: ExtensionId,
                                            seen: Option<ReleaseId>,
                                            artifact: Artifact, now: nat)
    ensures var b := Approve(db, t, r, e, seen, artifact, now);
      NoNewClaims(db, b.db, None) && (b.ok ==> !SubmissionIs(b.db, t, SubReviewing))
  {
  }

  lemma {:induction false} DecisionResolves(db: Database, reject: bool, t: SubmissionId, r: ReleaseId,
                                            e: ExtensionId, now: nat)
    ensures var b := Decide(db, reject, t, r, e, now);
      NoNewClaims(db, b.db, None) && (b.ok ==> !SubmissionIs(b.db, t, SubReviewing))
  {
  }

  lemma {:induction false} RollbackResolves(db: Database, t: SubmissionId, r: ReleaseId)
    ensures NoNewClaims(db, Rollback(db, t, r), None) && !SubmissionIs(Rollback(db, t, r), t, SubReviewing)
  {
  }

  lemma {:induction false} ClaimIsAccounted(db: Database, t: SubmissionId, r: ReleaseId, now: nat)
    requires SubmissionFor(db, t, r)
    ensures var b := Claim(db, t, r, now); NoNewClaims(db, b.db, Some(t)) && (!b.ok ==> NoNewClaims(db, b.db, None))
  {
  }

  // ---- The steps ----

  lemma {:induction false} AfterClaimHolds(s: State, id: RequestId, at: nat, b: Batch)
    requires ClaimsHeld(s) && id in s.requests && s.requests[id].ReviewRead?
    requires NoNewClaims(s.db, b.db, if b.ok then Some(s.requests[id].snap.submission) else None)
    ensures ClaimsHeld(AfterClaim(s, id, s.requests[id], at, b))
  {
    var s' := AfterClaim(s, id, s.requests[id], at, b);
    if b.ok {
      assert Holder(s'.requests, id, s.requests[id].snap.submission);
      ReviewStep(s, s', id, s.requests[id].snap);
    } else {
      IdleStep(s, s', id);
    }
  }

  lemma {:induction false} AfterApprovalHolds(s: State, id: RequestId, b: Batch)
    requires ClaimsHeld(s) && id in s.requests && s.requests[id].Stored?
    requires NoNewClaims(s.db, b.db, None) && (b.ok ==> !SubmissionIs(b.db, s.requests[id].snap.submission, SubReviewing))
    ensures ClaimsHeld(AfterApproval(s, id, s.requests[id], b))
  {
    var s' := AfterApproval(s, id, s.requests[id], b);
    assert !b.ok ==> Holder(s'.requests, id, s.requests[id].snap.submission);
    ReviewStep(s, s', id, s.requests[id].snap);
  }

  lemma {:induction false} AfterDecisionHolds(s: State, id: RequestId, b: Batch)
    requires ClaimsHeld(s) && id in s.requests && s.requests[id].Claimed?
    requires NoNewClaims(s.db, b.db, None) && (b.ok ==> !SubmissionIs(b.db, s.requests[id].snap.submission, SubReviewing))
    ensures ClaimsHeld(AfterDecision(s, id, s.requests[id], b))
  {
    var s' := AfterDecision(s, id, s.requests[id], b);
    assert !b.ok ==> Holder(s'.requests, id, s.requests[id].snap.submission);
    ReviewStep(s, s', id, s.requests[id].snap);
  }

  /** The request ends with its submission out of review. */
  lemma {:induction false} LastStepHolds(s: State, id: RequestId, db': Database)
    requires ClaimsHeld(s) && id in s.requests && s.requests[id].Holds()
    requires NoNewClaims(s.db, db', None) && !SubmissionIs(db', s.requests[id].snap.submission, SubReviewing)
    ensures ClaimsHeld(Done(s.(db := db'), id))
  {
    ReviewStep(s, Done(s.(db := db'), id), id, s.requests[id].snap);
  }

  /** A step within a review goes on with the same claim. */
  lemma {:induction false} SameClaimHolds(s: State, s': State, id: RequestId)
    requires ClaimsHeld(s) && id in s.requests && s.requests[id].Holds() && s'.db == s.db
    requires OthersStay(s.requests, s'.requests, id) && Holder(s'.requests, id, s.requests[id].snap.submission)
    ensures ClaimsHeld(s')
  {
    ReviewStep(s, s', id, s.requests[id].snap);
  }

  /** The steps between the batches. */
  lemma {:induction false} BetweenBatches(sha: Blob -> string, s: State, e: Event, id: RequestId)
    requires IsReviewStep(e) && !IsReviewCommit(e) && id in s.requests
    ensures var s' := StepReview(sha, s, e, id, s.requests[id]);
      || s' == s
      || (s.requests[id].Holds() && s'.db == s.db && OthersStay(s.requests, s'.requests, id)
          && Holder(s'.requests, id, s.requests[id].snap.submission))
  {
  }

  lemma {:induction false} ReviewBatchHolds(sha: Blob -> string, s: State, e: Event, id: RequestId)
    requires ClaimsHeld(s) && id in s.requests && IsReviewCommit(e)
    requires s.requests[id].ReviewRead? ==> SnapOk(s.db, s.requests[id].snap)
    ensures ClaimsHeld(StepReview(sha, s, e, id, s.requests[id]))
  {
    var q := s.requests[id];
    match e
    case CommitClaim(_, at) =>
      if q.ReviewRead? {
        ClaimIsAccounted(s.db, q.snap.submission, q.snap.release, at);
        AfterClaimHolds(s, id, at, Claim(s.db, q.snap.submission, q.snap.release, at));
      }
    case CommitApproval(_) =>
      if q.Stored? {
        ApprovalResolves(s.db, q.snap.submission, q.snap.release, q.snap.extension, q.snap.current,
                         ArtifactFor(sha, q.snap, q.official, q.publishedAt), q.publishedAt);
        AfterApprovalHolds(s, id, ApprovalBatch(sha, s, q));
      }
    case CommitDecision(_, at) =>
      if q.Claimed? && !q.decision.Approval? {
        DecisionResolves(s.db, q.decision.Rejection?, q.snap.submission, q.snap.release, q.snap.extension, at);
        AfterDecisionHolds(s, id, Decide(s.db, q.decision.Rejection?, q.snap.submission, q.snap.release, q.snap.extension, at));
      }
    case CommitRollback(_) =>
      if q.ReviewFailed? {
        RollbackResolves(s.db, q.snap.submission, q.snap.release);
        LastStepHolds(s, id, Rollback(s.db, q.snap.submission, q.snap.release));
      }
  }

  lemma {:induction false} ReviewStepHolds(sha: Blob -> string, s: State, e: Event, id: RequestId)
    requires ClaimsHeld(s) && id in s.requests && IsReviewStep(e)
    requires s.requests[id].ReviewRead? ==> SnapOk(s.db, s.requests[id].snap)
    ensures ClaimsHeld(StepReview(sha, s, e, id, s.requests[id]))
  {
    if IsReviewCommit(e) {
      ReviewBatchHolds(sha, s, e, id);
    } else {
      BetweenBatches(sha, s, e, id);
      var s' := StepReview(sha, s, e, id, s.requests[id]);
      if s' != s {
        SameClaimHolds(s, s', id);
      }
    }
  }

  /** A publisher's step of a request, unless the request dies. */
  lemma {:induction false} PublisherClaimsNothing(s: State, e: Event, id: RequestId)
    requires id in s.requests && !e.Abandon?
    ensures var s' := StepPublisher(s, e, id, s.requests[id]);
      || s' == s
      || (!s.requests[id].Holds() && OthersStay(s.requests, s'.requests, id) && NoNewClaims(s.db, s'.db, None))
  {
    var q := s.requests[id];
    match e
    case CommitUpload(_) => if q.UploadStored? { UploadClaimsNothing(s, id, q); }
    case CommitSubmit(_, newSubmission, at) =>
      if q.SubmitRead? {
        SubmitClaimsNothing(s.db, q.release, q.extension, q.seenKey, q.seenCurrent, newSubmission, at);
      }
    case _ =>
  }

  lemma {:induction false} PublisherStepHolds(s: State, e: Event, id: RequestId)
    requires ClaimsHeld(s) && id in s.requests && !e.Abandon?
    ensures ClaimsHeld(StepPublisher(s, e, id, s.requests[id]))
  {
    PublisherClaimsNothing(s, e, id);
    var s' := StepPublisher(s, e, id, s.requests[id]);
    if s' != s {
      IdleStep(s, s', id);
    }
  }

  lemma {:induction false} OutsideClaimsNothing(sha: Blob -> string, s: State, e: Event)
    requires !IsRequestStep(e)
    ensures var s' := Apply(sha, s, e); OthersStay(s.requests, s'.requests, s.next) && NoNewClaims(s.db, s'.db, None)
  {
  }

  lemma {:induction false} NextIsFree(sha: Blob -> string, s: State)
    requires RequestsOk(sha, s)
    ensures s.next !in s.requests
  {
  }

  lemma {:induction false} ReadIsOk(sha: Blob -> string, s: State, id: RequestId)
    requires RequestsOk(sha, s) && id in s.requests
    ensures s.requests[id].ReviewRead? ==> SnapOk(s.db, s.requests[id].snap)
  {
    assert RequestOk(sha, s.db, s.store, id, s.requests[id]);
  }

  /** Every event but the death of a request keeps every claim held. */
  lemma {:induction false} ApplyKeepsClaimsHeld(sha: Blob -> string, s: State, e: Event)
    requires RequestsOk(sha, s) && ClaimsHeld(s) && !e.Abandon?
    ensures ClaimsHeld(Apply(sha, s, e))
  {
    if !IsRequestStep(e) {
      OutsideClaimsNothing(sha, s, e);
      NextIsFree(sha, s);
      IdleStep(s, Apply(sha, s, e), s.next);
    } else if e.id in s.requests {
      ReadIsOk(sha, s, e.id);
      if IsReviewStep(e) {
        ReviewStepHolds(sha, s, e, e.id);
      } else {
        PublisherStepHolds(s, e, e.id);
      }
    }
  }

  /** In a run in which no request dies and no review outlives its lease, exactly one in-flight request
      holds the claim of every submission under review. */
  lemma {:induction false} ExactlyOneHolder(sha: Blob -> string, events: seq<Event>, t: SubmissionId)
    returns (id: RequestId)
    requires RunWithinLease(sha, events) && forall i | 0 <= i < |events| :: !events[i].Abandon?
    requires SubmissionIs(Run(sha, events).db, t, SubReviewing)
    ensures Holder(Run(sha, events).requests, id, t)
    ensures forall j :: Holder(Run(sha, events).requests, j, t) ==> j == id
  {
    ClaimsAreHeld(sha, events);
    ReachableIsSound(sha, events);
    var s := Run(sha, events);
    id :| Holder(s.requests, id, t);
    forall j | Holder(s.requests, j, t) ensures j == id {
      assert SameClaim(s.requests, j, id);
    }
  }

  lemma {:induction false} ClaimsAreHeld(sha: Blob -> string, events: seq<Event>)
    requires RunWithinLease(sha, events) && forall i | 0 <= i < |events| :: !events[i].Abandon?
    ensures ClaimsHeld(Run(sha, events))
  {
    if events != [] {
      var n := |events| - 1;
      PrefixWithinLease(sha, events, n);
      ClaimsAreHeld(sha, events[..n]);
      ReachableIsSound(sha, events[..n]);
      ApplyKeepsClaimsHeld(sha, Run(sha, events[..n]), events[n]);
    }
  }
}
