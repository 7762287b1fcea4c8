/** Why the lease is needed: exactly when an unguarded decision keeps the tables sound,
    and a run past the lease that leaves a listing without a published release. */
module HubLease {
  import opened Options
  import opened SemVer
  import opened HubDatabase
  import opened HubInvariant
  import HubBatches
  import opened HubReviews

  /** The decision batch does not re-check the claim.  On sound tables it keeps them sound
      exactly when the claim still stands, or when it repeats a request for changes. */
  lemma {:induction false} DecisionKeepsTablesIff(db: Database, reject: bool, s: SubmissionId, r: ReleaseId, now: nat)
    requires TablesOk(db) && SubmissionFor(db, s, r)
    ensures r in db.releases
    ensures TablesOk(Decide(db, reject, s, r, db.releases[r].extension, now).db)
            <==> SubmissionIs(db, s, SubReviewing) || (SubmissionIs(db, s, SubChanges) && !reject)
  {
    OnlySubmission(db, s, r);
    var e := db.releases[r].extension;
    var db' := Decide(db, reject, s, r, e, now).db;
    if SubmissionIs(db, s, SubReviewing) {
      if reject { RejectNeverCommits(db, s, r, e, now); } else { ChangesKeeps(db, s, r, e, now); }
    } else if SubmissionIs(db, s, SubChanges) && !reject {
      RepeatedChangesKeep(db, s, r, now);
    } else {
      assert !SubmissionOk(db', s) || !ReleaseOk(db', r);
    }
  }

  lemma {:induction false} RepeatedChangesKeep(db: Database, s: SubmissionId, r: ReleaseId, now: nat)
    requires TablesOk(db) && SubmissionFor(db, s, r) && SubmissionIs(db, s, SubChanges)
    ensures r in db.releases
    ensures Keeps(db, Decide(db, false, s, r, db.releases[r].extension, now).db, Some(s))
  {
    OnlySubmission(db, s, r);
    var e := db.releases[r].extension;
    var mid := SetReleaseStatus(db, r, Changes);
    assert mid == WritePair(db, s, db.submissions[s], r, db.releases[r].(status := Changes)) by {
      assert mid.submissions == db.submissions[s := db.submissions[s]];
    }
    WritePairKeeps(db, s, db.submissions[s], r, db.releases[r].(status := Changes));
    HubBatches.StatusWriteKeeps(mid, e, ListingDraft, Some(s));
    KeepsTransitive(db, mid, SetUnpublishedStatus(mid, e, ListingDraft), s);
  }

  /** The yank does not re-check the listing.  On sound tables a yank of a published release keeps
      them sound exactly when the release is not the current one. */
  lemma {:induction false} YankKeepsTablesIff(db: Database, r: ReleaseId)
    requires TablesOk(db) && ReleaseIs(db, r, Published)
    ensures TablesOk(Yank(db, r)) <==> CurrentOf(db, db.releases[r].extension) != Some(r)
  {
    if CurrentOf(db, db.releases[r].extension) != Some(r) {
      YankKeeps(db, r);
    } else {
      assert !ListingOk(Yank(db, r), db.releases[r].extension);
    }
  }

  // ---- Past the lease ----

  /** A first review claims at `t0`; more than LEASE later the sweep takes the claim back, and
      a second review claims. */
  function Reclaimed(db: Database, s: SubmissionId, r: ReleaseId, t0: nat, t1: nat): Database {
    Claim(Sweep(Claim(db, s, r, t0).db, t1), s, r, t1).db
  }

  lemma {:induction false} ReclaimedRows(db: Database, s: SubmissionId, r: ReleaseId, t0: nat, t1: nat)
    requires TablesOk(db) && SubmissionFor(db, s, r) && SubmissionIs(db, s, SubPending) && t0 + LEASE < t1
    ensures var db' := Reclaimed(db, s, r, t0, t1);
            && TablesOk(db') && db'.listings == db.listings
            && SubmissionFor(db', s, r) && SubmissionIs(db', s, SubReviewing)
            && r in db.releases && r in db'.releases && db'.releases[r] == db.releases[r].(status := Reviewing)
  {
    var a := Claim(db, s, r, t0).db;
    ClaimAllOrNone(db, s, r, t0);
    OnlySubmission(db, s, r);
    var b := Sweep(a, t1);
    assert SubmissionFor(a, s, r) && Expired(a, s, t1);
    SweepRow(a, s, r, t1);
    SweepKeeps(a, t1);
    ClaimAllOrNone(b, s, r, t1);
  }

  /** A request for changes decided after the release was approved. */
  lemma {:induction false} DecisionAfterApproval(db: Database, s: SubmissionId, r: ReleaseId, e: ExtensionId,
                                                 artifact: Artifact, now: nat)
    requires s in db.submissions && r in db.releases && e in db.listings
    ensures var undone := Decide(Approved(db, s, r, e, artifact, now), false, s, r, e, now);
      && undone.ok && CurrentOf(undone.db, e) == Some(r) && ReleaseIs(undone.db, r, Changes)
      && e in undone.db.listings && undone.db.listings[e].status == ListingPublished
  {
    assert SubmissionIs(Approved(db, s, r, e, artifact, now), s, SubApproved);
  }

  /** The lease assumption is needed: for every pending submission, if the first review
      outlives its lease and the second one approves, the first review's request for
      changes still goes through and leaves the listing published with a current release
      that is not published. */
  lemma {:induction false} LateDecisionUndoesPublication(db: Database, s: SubmissionId, r: ReleaseId, t0: nat,
                                                         t1: nat, artifact: Artifact)
    requires TablesOk(db) && SubmissionFor(db, s, r) && SubmissionIs(db, s, SubPending) && t0 + LEASE < t1
    ensures r in db.releases
    ensures var e := db.releases[r].extension;
            var published := Approve(Reclaimed(db, s, r, t0, t1), s, r, e, CurrentOf(db, e), artifact, t1);
            var undone := Decide(published.db, false, s, r, e, t1);
            && published.ok && ReleaseIs(published.db, r, Published)
            && undone.ok && CurrentOf(undone.db, e) == Some(r) && ReleaseIs(undone.db, r, Changes)
            && e in undone.db.listings && undone.db.listings[e].status == ListingPublished
  {
    ReclaimedRows(db, s, r, t0, t1);
    var mid := Reclaimed(db, s, r, t0, t1);
    var e := db.releases[r].extension;
    OnlySubmission(mid, s, r);
    ApproveAllOrNone(mid, s, r, e, CurrentOf(db, e), artifact, t1);
    DecisionAfterApproval(mid, s, r, e, artifact, t1);
  }
}
