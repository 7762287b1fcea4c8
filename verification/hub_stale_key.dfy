/** How a release that was read by one review comes to name another package and to be pending again:
    another review sends it back, the publisher replaces its package and submits it anew. */
module HubStaleKey {
  import opened Options
  import opened HubDatabase
  import opened HubInvariant
  import opened HubBatches
  import opened HubReviews

  /** Sound tables in which the release and its submission stand as given. */
  ghost predicate Stands(db: Database, s: SubmissionId, r: ReleaseId, release: Release, status: SubmissionStatus) {
    TablesOk(db) && SubmissionFor(db, s, r) && SubmissionIs(db, s, status) && r in db.releases && db.releases[r] == release
  }

  /** Another review claims the submission and asks for changes. */
  function SentBack(db: Database, s: SubmissionId, r: ReleaseId, t0: nat, t1: nat): Database {
    Decide(Claim(db, s, r, t0).db, false, s, r, if r in db.releases then db.releases[r].extension else "", t1).db
  }

  lemma {:induction false} SentBackStands(db: Database, s: SubmissionId, r: ReleaseId, release: Release, t0: nat,
                                          t1: nat)
    requires Stands(db, s, r, release, SubPending)
    ensures Stands(SentBack(db, s, r, t0, t1), s, r, release.(status := Changes), SubChanges)
    ensures CurrentOf(SentBack(db, s, r, t0, t1), release.extension) == CurrentOf(db, release.extension)
  {
    var claimed := Claim(db, s, r, t0).db;
    ClaimAllOrNone(db, s, r, t0);
    ChangesKeeps(claimed, s, r, release.extension, t1);
  }

  lemma {:induction false} ReplacedStands(db: Database, s: SubmissionId, r: ReleaseId, release: Release,
                                          key: ObjectKey, t: nat)
    requires Stands(db, s, r, release, SubChanges) && release.status == Changes && release.stagingKey != Some(key)
    ensures var b := ReplaceRelease(db, r, key, release.stagingKey, CurrentOf(db, release.extension), t);
      && b.ok && Stands(b.db, s, r, release.(stagingKey := Some(key), status := Draft, submittedAt := None), SubChanges)
      && b.db.listings == db.listings
  {
    ReplaceKeeps(db, r, key, release.stagingKey, CurrentOf(db, release.extension), t);
    assert ReleaseOk(db, r);
  }

  lemma {:induction false} ResubmittedStands(db: Database, s: SubmissionId, r: ReleaseId, release: Release,
                                             key: ObjectKey, newId: SubmissionId, t: nat)
    requires Stands(db, s, r, release, SubChanges) && release.status == Draft && release.stagingKey == Some(key)
    ensures var b := Submit(db, r, release.extension, key, CurrentOf(db, release.extension), newId, t);
      && b.ok && Stands(b.db, s, r, release.(status := Pending, submittedAt := Some(t)), SubPending)
      && CurrentOf(b.db, release.extension) == CurrentOf(db, release.extension)
  {
    assert HasSubmission(db, r);
    var u := SubmitHits(db, r, release.extension, key, CurrentOf(db, release.extension), newId, t);
    SubmitKeeps(db, r, release.extension, key, CurrentOf(db, release.extension), newId, t);
    OnlySubmission(db, s, r);
  }
}
