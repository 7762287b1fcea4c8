/** What every batch of the release pipeline does to the three tables, exactly: when it goes through, and
    each row it then leaves. */
module HubOutcomes {
  import opened Options
  import opened SemVer
  import opened HubDatabase
  import opened HubInvariant
  import opened HubBatches
  import opened HubReviews

  // ---- Listings ----

  /** Only this row of the listings may change. */
  predicate OnlyListing(db: Database, db': Database, e: ExtensionId) {
    && db'.releases == db.releases && db'.submissions == db.submissions
    && db'.listings.Keys == db.listings.Keys + (if e in db'.listings then {e} else {})
    && forall f | f in db.listings && f != e :: f in db'.listings && db'.listings[f] == db.listings[f]
  }

  lemma {:induction false} CreateIff(db: Database, e: ExtensionId)
    ensures var b := CreateListing(db, e);
      && (b.ok <==> e !in db.listings)
      && (b.ok ==> OnlyListing(db, b.db, e) && e in b.db.listings && b.db.listings[e] == Listing(ListingDraft, None))
      && (!b.ok ==> b.db == db)
  {
  }

  lemma {:induction false} SuspendIff(db: Database, e: ExtensionId)
    ensures var b := Suspend(db, e);
      && (b.ok <==> e in db.listings && db.listings[e].status == ListingPublished)
      && (b.ok ==> OnlyListing(db, b.db, e) && e in b.db.listings && b.db.listings[e] == Listing(ListingSuspended, db.listings[e].current))
      && (!b.ok ==> b.db == db)
  {
  }

  // ---- Uploads ----

  /** A new draft goes in exactly when the extension is listed with the current release that was seen and neither the id
      nor the version is taken. */
  lemma {:induction false} InsertIff(db: Database, release: ReleaseId, e: ExtensionId, version: Version,
                                     key: ObjectKey, seen: Option<ReleaseId>)
    ensures var b := InsertRelease(db, release, e, version, key, seen);
      && (b.ok <==>
            && e in db.listings && db.listings[e].current == seen && release !in db.releases
            && forall r | r in db.releases :: !(db.releases[r].extension == e && db.releases[r].version == version))
      && b.db == (if b.ok then db.(releases := db.releases[release := Release(e, version, Some(key), None, Draft, None)]) else db)
  {
  }

  predicate Reopens(status: ReleaseStatus) {
    status == Draft || status == Changes || status == Rejected
  }

  /** A draft is replaced exactly when its row is still the one that was read, open, and its extension's current release
      the one that was seen. */
  lemma {:induction false} ReplaceIff(db: Database, release: ReleaseId, key: ObjectKey, seenKey: Option<ObjectKey>,
                                      seen: Option<ReleaseId>, now: nat)
    requires TablesOk(db) && (release in db.releases ==> db.releases[release].stagingKey != Some(key))
    ensures var b := ReplaceRelease(db, release, key, seenKey, seen, now);
      && (b.ok <==>
            && release in db.releases && db.releases[release].stagingKey == seenKey && Reopens(db.releases[release].status)
            && CurrentOf(db, db.releases[release].extension) == seen)
      && b.db == (if b.ok then db.(releases := db.releases[release := db.releases[release].(stagingKey := Some(key), status := Draft, submittedAt := None)])
                  else db)
  {
    ReplaceKeeps(db, release, key, seenKey, seen, now);
    if release in db.releases {
      assert ReleaseOk(db, release);
    }
  }

  // ---- Submissions ----

  /** A listing without a current release takes the status; any other keeps its own. */
  predicate ListingFollows(db: Database, db': Database, e: ExtensionId, status: ListingStatus) {
    && db'.listings.Keys == db.listings.Keys
    && forall f | f in db.listings :: db'.listings[f] ==
         if f == e && db.listings[f].current.None? then Listing(status, None) else db.listings[f]
  }

  /** The one submission of the release is `s`, an old row or a new one. */
  ghost predicate IsRowOf(db: Database, s: SubmissionId, release: ReleaseId, newId: SubmissionId) {
    if exists t :: t in db.submissions && db.submissions[t].release == release
    then s in db.submissions && db.submissions[s].release == release
    else s == newId && newId !in db.submissions
  }

  /** A submission goes through exactly when the release is still open under the key that was read, its extension's current
      release is the one that was seen, and there is a row for it: the release's own, or a new one. */
  lemma {:induction false} SubmitIff(db: Database, release: ReleaseId, e: ExtensionId, seenKey: ObjectKey,
                                     seen: Option<ReleaseId>,
                                     newId: SubmissionId, now: nat)
    requires TablesOk(db)
    ensures var b := Submit(db, release, e, seenKey, seen, newId, now);
      b.ok <==>
        && release in db.releases && db.releases[release].stagingKey == Some(seenKey) && Reopens(db.releases[release].status)
        && CurrentOf(db, db.releases[release].extension) == seen
        && (newId !in db.submissions || exists t :: t in db.submissions && db.submissions[t].release == release)
  {
    if !SubmitGuard(db, release, seenKey, seen) {
      SubmitMisses(db, release, e, seenKey, seen, newId, now);
    } else if HasSubmission(db, release) || newId !in db.submissions {
      var s := SubmitHits(db, release, e, seenKey, seen, newId, now);
      assert HasSubmission(db, release) ==> exists t :: t in db.submissions && db.submissions[t].release == release;
    } else {
      SubmitFails(db, release, e, seenKey, seen, newId, now);
    }
  }

  lemma {:induction false} SubmitFails(db: Database, release: ReleaseId, e: ExtensionId, seenKey: ObjectKey,
                                       seen: Option<ReleaseId>,
                                       newId: SubmissionId, now: nat)
    requires SubmitGuard(db, release, seenKey, seen) && !HasSubmission(db, release) && newId in db.submissions
    ensures Submit(db, release, e, seenKey, seen, newId, now) == Batch(db, false)
    ensures forall t | t in db.submissions :: db.submissions[t].release != release
  {
    var db1 := SetRelease(db, release, db.releases[release].(status := Pending, submittedAt := Some(now)));
    assert forall u :: SubmissionFor(db1, u, release) ==> SubmissionFor(db, u, release);
    forall t | t in db.submissions ensures db.submissions[t].release != release {
      assert db.submissions[t].release == release ==> SubmissionFor(db, t, release);
    }
  }

  lemma {:induction false} RowIsOf(db: Database, s: SubmissionId, release: ReleaseId, newId: SubmissionId)
    requires SubmitRow(db, release, newId, s)
    ensures IsRowOf(db, s, release, newId)
  {
    forall t | t in db.submissions && db.submissions[t].release == release ensures SubmissionFor(db, t, release) {
    }
  }

  lemma {:induction false} SubmittedFollows(db: Database, release: ReleaseId, e: ExtensionId, s: SubmissionId, now: nat)
    requires RowsOk(db) && release in db.releases
    ensures ListingFollows(db, Submitted(db, release, e, s, now), e, ListingPending)
  {
  }

  /** The rows a submission that goes through leaves. */
  lemma {:induction false} SubmitWrites(db: Database, release: ReleaseId, e: ExtensionId, seenKey: ObjectKey,
                                        seen: Option<ReleaseId>,
                                        newId: SubmissionId, now: nat) returns (s: SubmissionId)
    requires TablesOk(db) && Submit(db, release, e, seenKey, seen, newId, now).ok
    ensures IsRowOf(db, s, release, newId) && release in db.releases
    ensures var db' := Submit(db, release, e, seenKey, seen, newId, now).db;
      && db'.releases == db.releases[release := db.releases[release].(status := Pending, submittedAt := Some(now))]
      && db'.submissions == db.submissions[s := Submission(release, SubPending, now, None)]
      && ListingFollows(db, db', e, ListingPending)
  {
    s := SubmitRowOf(db, release, e, seenKey, seen, newId, now);
    RowIsOf(db, s, release, newId);
    SubmittedRows(db, release, e, s, now);
    SubmittedFollows(db, release, e, s, now);
  }

  lemma {:induction false} SubmitRowOf(db: Database, release: ReleaseId, e: ExtensionId, seenKey: ObjectKey,
                                       seen: Option<ReleaseId>,
                                       newId: SubmissionId, now: nat) returns (s: SubmissionId)
    requires TablesOk(db) && Submit(db, release, e, seenKey, seen, newId, now).ok
    ensures SubmitRow(db, release, newId, s) && release in db.releases
    ensures Submit(db, release, e, seenKey, seen, newId, now).db == Submitted(db, release, e, s, now)
  {
    if !SubmitGuard(db, release, seenKey, seen) {
      SubmitMisses(db, release, e, seenKey, seen, newId, now);
    } else if HasSubmission(db, release) || newId !in db.submissions {
      s := SubmitHits(db, release, e, seenKey, seen, newId, now);
    } else {
      SubmitFails(db, release, e, seenKey, seen, newId, now);
    }
  }

  // ---- Reviews ----

  /** A claim of the pair that was read goes through exactly when the submission is still pending, and takes both rows. */
  lemma {:induction false} ClaimIff(db: Database, s: SubmissionId, r: ReleaseId, now: nat)
    requires TablesOk(db) && s in db.submissions && db.submissions[s].release == r
    ensures var b := Claim(db, s, r, now);
      && (b.ok <==> db.submissions[s].status == SubPending)
      && r in db.releases
      && b.db == (if b.ok
                  then db.(submissions := db.submissions[s := db.submissions[s].(status := SubReviewing, resolvedAt := Some(now))],
                           releases := db.releases[r := db.releases[r].(status := Reviewing)])
                  else db)
  {
    ClaimAllOrNone(db, s, r, now);
    OnlySubmission(db, s, r);
  }

  /** An approval goes through exactly when the extension's current release is still the one that was seen and both rows are
      still in review; it then makes the release the current one of a published listing. */
  lemma {:induction false} ApproveIff(db: Database, s: SubmissionId, r: ReleaseId, e: ExtensionId,
                                      seen: Option<ReleaseId>, artifact: Artifact, now: nat)
    requires TablesOk(db) && s in db.submissions && db.submissions[s].release == r && r in db.releases && db.releases[r].extension == e
    ensures var b := Approve(db, s, r, e, seen, artifact, now);
      && (b.ok <==> CurrentOf(db, e) == seen && db.releases[r].status == Reviewing && db.submissions[s].status == SubReviewing)
      && b.db == (if b.ok
                  then Database(db.listings[e := Listing(ListingPublished, Some(r))],
                                db.releases[r := db.releases[r].(artifact := Some(artifact), status := Published)],
                                db.submissions[s := db.submissions[s].(status := SubApproved, resolvedAt := Some(now))])
                  else db)
  {
    ApproveAllOrNone(db, s, r, e, seen, artifact, now);
    OnlySubmission(db, s, r);
  }

  /** A request for changes of a claimed pair takes both rows out of review; a rejection changes nothing. */
  lemma {:induction false} DecideIs(db: Database, s: SubmissionId, r: ReleaseId, e: ExtensionId, now: nat)
    requires TablesOk(db) && s in db.submissions && db.submissions[s].release == r && db.submissions[s].status == SubReviewing
    ensures Decide(db, true, s, r, e, now) == Batch(db, false)
    ensures var b := Decide(db, false, s, r, e, now);
      && b.ok && r in db.releases
      && b.db.submissions == db.submissions[s := db.submissions[s].(status := SubChanges, resolvedAt := Some(now))]
      && b.db.releases == db.releases[r := db.releases[r].(status := Changes)]
      && ListingFollows(db, b.db, e, ListingDraft)
  {
    OnlySubmission(db, s, r);
  }

  /** The catch block takes a claimed pair back to pending. */
  lemma {:induction false} RollbackIs(db: Database, s: SubmissionId, r: ReleaseId)
    requires TablesOk(db) && s in db.submissions && db.submissions[s].release == r
    ensures r in db.releases
    ensures Rollback(db, s, r) ==
      if db.submissions[s].status == SubReviewing
      then db.(submissions := db.submissions[s := db.submissions[s].(status := SubPending, resolvedAt := None)],
               releases := db.releases[r := db.releases[r].(status := Pending)])
      else db
  {
    OnlySubmission(db, s, r);
  }

  /** The sweep takes back the claims older than an hour, with their releases, and nothing else. */
  lemma {:induction false} SweepIs(db: Database, now: nat, s: SubmissionId)
    requires TablesOk(db) && s in db.submissions
    ensures var db' := Sweep(db, now); var row := db.submissions[s];
      var expired := row.status == SubReviewing && row.resolvedAt.Some? && row.resolvedAt.value + 60 < now;
      && db'.listings == db.listings && db'.releases.Keys == db.releases.Keys && db'.submissions.Keys == db.submissions.Keys
      && row.release in db.releases
      && db'.submissions[s] == (if expired then row.(status := SubPending, resolvedAt := None) else row)
      && db'.releases[row.release] == (if expired then db.releases[row.release].(status := Pending) else db.releases[row.release])
  {
    var db' := Sweep(db, now);
    OnlySubmission(db, s, db.submissions[s].release);
    var r := db.submissions[s].release;
    var db1 := db.(submissions := db'.submissions);
    forall t | t in db1.submissions && db1.submissions[t].release == r ensures t == s {
      assert SubmissionFor(db, t, r);
    }
    assert HasPendingSubmission(db1, r) <==> db1.submissions[s].status == SubPending;
  }

  /** A release without a submission is not touched by the sweep. */
  lemma {:induction false} SweepLeaves(db: Database, now: nat, r: ReleaseId)
    requires TablesOk(db) && r in db.releases && forall s | s in db.submissions :: db.submissions[s].release != r
    ensures r in Sweep(db, now).releases && Sweep(db, now).releases[r] == db.releases[r]
  {
  }

  lemma {:induction false} YankIs(db: Database, r: ReleaseId)
    requires r in db.releases
    ensures Yank(db, r) == db.(releases := db.releases[r := db.releases[r].(status := Yanked)])
  {
  }
}
