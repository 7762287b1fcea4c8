/** Each batch of the release pipeline on tables that satisfy the invariant: its guarded
    statements change all their rows or none, and the invariant is kept. */
module HubBatches {
  import opened Options
  import opened SemVer
  import opened HubDatabase
  import opened HubInvariant

  // ---- Changes of listing rows alone ----

  /** Only listings change, none goes and none gets another current release. */
  ghost predicate ListingsOnly(db: Database, db': Database) {
    && db'.releases == db.releases && db'.submissions == db.submissions
    && (forall e :: e in db.listings ==> e in db'.listings && db'.listings[e].current == db.listings[e].current)
  }

  lemma {:induction false} ListingOnlyRelease(db: Database, db': Database, r: ReleaseId)
    requires ListingsOnly(db, db') && r in db.releases && ReleaseOk(db, r)
    ensures ReleaseOk(db', r) && ReleaseEvolves(db, db', r)
  {
    SubmissionStays(db, db', r);
  }

  lemma {:induction false} ListingOnlyKeeps(db: Database, db': Database, own: Option<SubmissionId>)
    requires TablesOk(db) && ListingsOnly(db, db')
    requires forall e :: e in db'.listings ==> ListingOk(db', e)
    ensures Keeps(db, db', own)
  {
    forall r | r in db.releases ensures ReleaseOk(db', r) && ReleaseEvolves(db, db', r) {
      ListingOnlyRelease(db, db', r);
    }
    forall s | s in db.submissions ensures SubmissionOk(db', s) {
      assert SubmissionOk(db, s);
    }
    assert forall r, q :: SameSlot(db', r, q) ==> SameSlot(db, r, q);
    assert forall s, r :: SubmissionFor(db', s, r) ==> SubmissionFor(db, s, r);
    forall s | s in db.submissions && db.submissions[s].status == SubReviewing ensures HoldKept(db, db', s) {
      assert SubmissionOk(db, s);
    }
  }

  lemma {:induction false} StatusWriteKeeps(db: Database, extension: ExtensionId, status: ListingStatus,
                                            own: Option<SubmissionId>)
    requires TablesOk(db) && (status == ListingPending || status == ListingDraft)
    ensures Keeps(db, SetUnpublishedStatus(db, extension, status), own)
  {
    var db' := SetUnpublishedStatus(db, extension, status);
    forall e | e in db'.listings ensures ListingOk(db', e) {
      assert ListingOk(db, e);
    }
    ListingOnlyKeeps(db, db', own);
  }

  lemma {:induction false} SuspendKeeps(db: Database, extension: ExtensionId)
    requires TablesOk(db)
    ensures Keeps(db, Suspend(db, extension).db, None)
  {
    var db' := Suspend(db, extension).db;
    forall e | e in db'.listings ensures ListingOk(db', e) {
      assert ListingOk(db, e);
    }
    ListingOnlyKeeps(db, db', None);
  }

  lemma {:induction false} CreateKeeps(db: Database, extension: ExtensionId)
    requires TablesOk(db)
    ensures Keeps(db, CreateListing(db, extension).db, None)
  {
    var db' := CreateListing(db, extension).db;
    forall e | e in db'.listings ensures ListingOk(db', e) {
      assert e in db.listings ==> ListingOk(db, e);
    }
    ListingOnlyKeeps(db, db', None);
  }

  // ---- Upload ----

  lemma {:induction false} InsertKeeps(db: Database, release: ReleaseId, extension: ExtensionId, version: Version,
                                       key: ObjectKey,
                    seenCurrent: Option<ReleaseId>)
    requires TablesOk(db)
    ensures Keeps(db, InsertRelease(db, release, extension, version, key, seenCurrent).db, None)
  {
    var db' := InsertRelease(db, release, extension, version, key, seenCurrent).db;
    NothingChanges(db, None);
    if db' != db {
      forall r, q | SameSlot(db', r, q) ensures r == q {
        if r != release && q != release {
          assert SameSlot(db, r, q);
        }
      }
      DraftKeeps(db, db', release);
    }
  }

  /** One release row is written as a draft: a new row, or one that is no longer in review. */
  ghost predicate DraftWrite(db: Database, db': Database, release: ReleaseId) {
    && release in db'.releases && db'.releases[release].status == Draft
    && db' == SetRelease(db, release, db'.releases[release])
    && db'.releases[release].extension in db.listings
    && (release in db.releases ==>
          && Resubmittable(db.releases[release].status)
          && db'.releases[release].extension == db.releases[release].extension
          && db'.releases[release].version == db.releases[release].version)
  }

  lemma {:induction false} DraftRows(db: Database, db': Database, release: ReleaseId)
    requires RowsOk(db) && DraftWrite(db, db', release)
    ensures RowsOk(db')
  {
    forall e | e in db'.listings ensures ListingOk(db', e) {
      assert ListingOk(db, e);
    }
    forall r | r in db'.releases ensures ReleaseOk(db', r) {
      if r != release {
        assert ReleaseOk(db, r);
        SubmissionStays(db, db', r);
      }
    }
    forall s | s in db'.submissions ensures SubmissionOk(db', s) {
      assert SubmissionOk(db, s);
    }
  }

  lemma {:induction false} DraftEvolves(db: Database, db': Database, release: ReleaseId)
    requires RowsOk(db) && DraftWrite(db, db', release)
    ensures Evolves(db, db') && HoldsKept(db, db', None)
  {
    forall r | r in db.releases ensures ReleaseEvolves(db, db', r) {
      assert ReleaseOk(db, r);
    }
    forall s | s in db.submissions && db.submissions[s].status == SubReviewing ensures HoldKept(db, db', s) {
      assert SubmissionOk(db, s);
    }
  }

  lemma {:induction false} DraftKeeps(db: Database, db': Database, release: ReleaseId)
    requires TablesOk(db) && DraftWrite(db, db', release)
    requires forall r, q :: SameSlot(db', r, q) ==> r == q
    ensures Keeps(db, db', None)
  {
    DraftRows(db, db', release);
    DraftEvolves(db, db', release);
    assert forall s, r :: SubmissionFor(db', s, r) ==> SubmissionFor(db, s, r);
  }

  /** No submission is ever withdrawn: by the time a draft can be replaced, its
      submission is no longer pending, so the second statement matches no row. */
  lemma {:induction false} WithdrawIsIdle(db: Database, release: ReleaseId, now: nat)
    requires RowsOk(db) && release in db.releases && db.releases[release].status != Pending
    ensures Withdraw(db, release, now) == db
  {
    forall s | s in db.submissions && db.submissions[s].release == release ensures db.submissions[s].status != SubPending {
      assert SubmissionOk(db, s);
    }
    assert Withdraw(db, release, now).submissions == db.submissions;
  }

  lemma {:induction false} ReplaceKeeps(db: Database, release: ReleaseId, key: ObjectKey, seenKey: Option<ObjectKey>,
                     seenCurrent: Option<ReleaseId>, now: nat)
    requires TablesOk(db)
    requires release in db.releases ==> db.releases[release].stagingKey != Some(key)
    ensures var b := ReplaceRelease(db, release, key, seenKey, seenCurrent, now);
            && Keeps(db, b.db, None)
            && b.db == if b.ok then SetRelease(db, release, db.releases[release].(stagingKey := Some(key), status := Draft, submittedAt := None)) else db
  {
    NothingChanges(db, None);
    if ReplaceGuard(db, release, seenKey, seenCurrent) {
      var db1 := SetRelease(db, release, db.releases[release].(stagingKey := Some(key), status := Draft, submittedAt := None));
      forall r, q | SameSlot(db1, r, q) ensures r == q {
        assert SameSlot(db, r, q);
      }
      assert ReleaseOk(db, release);
      DraftKeeps(db, db1, release);
      WithdrawIsIdle(db1, release, now);
    }
  }

  // ---- Submit ----

  /** What a submission that goes through writes, with `s` the submission row it uses. */
  function Submitted(db: Database, release: ReleaseId, extension: ExtensionId, s: SubmissionId, now: nat): Database
    requires release in db.releases
  {
    SetUnpublishedStatus(
      SetSubmission(SetRelease(db, release, db.releases[release].(status := Pending, submittedAt := Some(now))),
                    s, Submission(release, SubPending, now, None)),
      extension, ListingPending)
  }

  ghost predicate SubmitRow(db: Database, release: ReleaseId, newId: SubmissionId, s: SubmissionId) {
    SubmissionFor(db, s, release) || (!HasSubmission(db, release) && s == newId && newId !in db.submissions)
  }

  lemma {:induction false} SubmitMisses(db: Database, release: ReleaseId, extension: ExtensionId, seenKey: ObjectKey,
                     seenCurrent: Option<ReleaseId>, newId: SubmissionId, now: nat)
    requires TablesOk(db) && !SubmitGuard(db, release, seenKey, seenCurrent)
    ensures var b := Submit(db, release, extension, seenKey, seenCurrent, newId, now);
            !b.ok && Keeps(db, b.db, None) && b.db.releases == db.releases && b.db.submissions == db.submissions
  {
    PendingHasSubmission(db, release, now);
    NothingChanges(db, None);
    StatusWriteKeeps(db, extension, ListingPending, None);
    assert Submit(db, release, extension, seenKey, seenCurrent, newId, now)
        == Batch(if PendingAt(db, release, now) then SetUnpublishedStatus(db, extension, ListingPending) else db, false);
  }

  lemma {:induction false} PendingHasSubmission(db: Database, release: ReleaseId, now: nat)
    requires RowsOk(db)
    ensures PendingAt(db, release, now) ==> HasPendingSubmission(db, release)
  {
    if PendingAt(db, release, now) {
      assert ReleaseOk(db, release);
      var s :| SubmissionFor(db, s, release);
      assert SubmissionOk(db, s);
    }
  }

  lemma {:induction false} SubmitHits(db: Database, release: ReleaseId, extension: ExtensionId, seenKey: ObjectKey,
                   seenCurrent: Option<ReleaseId>, newId: SubmissionId, now: nat) returns (s: SubmissionId)
    requires TablesOk(db) && SubmitGuard(db, release, seenKey, seenCurrent)
    requires HasSubmission(db, release) || newId !in db.submissions
    ensures SubmitRow(db, release, newId, s)
    ensures Submit(db, release, extension, seenKey, seenCurrent, newId, now) == Batch(Submitted(db, release, extension, s, now), true)
  {
    var db1 := SetRelease(db, release, db.releases[release].(status := Pending, submittedAt := Some(now)));
    assert !HasPendingSubmission(db1, release) by {
      forall t | t in db.submissions && db.submissions[t].release == release ensures db.submissions[t].status != SubPending {
        assert SubmissionOk(db, t);
      }
    }
    if HasSubmission(db, release) {
      var t :| SubmissionFor(db, t, release);
      assert SubmissionFor(db1, t, release);
      s := t;
      assert forall u :: SubmissionFor(db1, u, release) ==> SubmissionFor(db, u, release);
    } else {
      assert forall u :: SubmissionFor(db1, u, release) ==> SubmissionFor(db, u, release);
      s := newId;
    }
    assert Upsert(db1, newId, release, now) == Some(SetSubmission(db1, s, Submission(release, SubPending, now, None)));
  }

  lemma {:induction false} SubmittedKeeps(db: Database, release: ReleaseId, extension: ExtensionId,
                                          newId: SubmissionId, s: SubmissionId, now: nat)
    requires TablesOk(db) && release in db.releases && Resubmittable(db.releases[release].status)
    requires SubmitRow(db, release, newId, s)
    ensures Keeps(db, Submitted(db, release, extension, s, now), None)
  {
    var db' := Submitted(db, release, extension, s, now);
    SubmittedPair(db, release, extension, newId, s, now);
    SubmittedListings(db, release, extension, s, now);
    PairKeeps(db, db', s, release, extension);
    PairHoldsAll(db, db', s, release);
  }

  lemma {:induction false} SubmittedPair(db: Database, release: ReleaseId, extension: ExtensionId,
                                         newId: SubmissionId, s: SubmissionId, now: nat)
    requires TablesOk(db) && release in db.releases && Resubmittable(db.releases[release].status)
    requires SubmitRow(db, release, newId, s)
    ensures PairUpdate(db, Submitted(db, release, extension, s, now), s, release)
    ensures s in db.submissions ==> db.submissions[s].release == release
  {
    RowOfRelease(db, release, newId, s);
    assert ReleaseOk(db, release);
    SubmittedRows(db, release, extension, s, now);
  }

  lemma {:induction false} RowOfRelease(db: Database, release: ReleaseId, newId: SubmissionId, s: SubmissionId)
    requires KeysUnique(db) && SubmitRow(db, release, newId, s)
    ensures forall t :: SubmissionFor(db, t, release) ==> t == s
    ensures s in db.submissions ==> db.submissions[s].release == release
  {
    forall t | SubmissionFor(db, t, release) ensures t == s {
      assert HasSubmission(db, release);
    }
  }

  lemma {:induction false} SubmittedRows(db: Database, release: ReleaseId, extension: ExtensionId, s: SubmissionId,
                                         now: nat)
    requires release in db.releases
    ensures var db' := Submitted(db, release, extension, s, now);
      && db'.releases == db.releases[release := db.releases[release].(status := Pending, submittedAt := Some(now))]
      && db'.submissions == db.submissions[s := Submission(release, SubPending, now, None)]
  {
  }

  lemma {:induction false} SubmittedListings(db: Database, release: ReleaseId, extension: ExtensionId,
                                             s: SubmissionId, now: nat)
    requires RowsOk(db) && release in db.releases && Resubmittable(db.releases[release].status)
    ensures ListingsFollow(db, Submitted(db, release, extension, s, now), extension, release)
  {
    if extension in db.listings {
      assert ListingOk(db, extension);
    }
  }

  /** A pair whose submission was not claimed touches no claimed row. */
  lemma {:induction false} PairHoldsAll(db: Database, db': Database, s: SubmissionId, r: ReleaseId)
    requires RowsOk(db) && HoldsKept(db, db', Some(s)) && r in db.releases && Resubmittable(db.releases[r].status)
    requires s in db.submissions ==> db.submissions[s].release == r
    ensures HoldsKept(db, db', None)
  {
    forall t | t in db.submissions && db.submissions[t].status == SubReviewing ensures HoldKept(db, db', t) {
      assert SubmissionOk(db, t);
    }
  }

  /** A submission under an id that another release's submission has is refused by the primary key. */
  lemma {:induction false} SubmitRefuses(db: Database, release: ReleaseId, extension: ExtensionId, seenKey: ObjectKey,
                    seenCurrent: Option<ReleaseId>, newId: SubmissionId, now: nat)
    requires SubmitGuard(db, release, seenKey, seenCurrent) && !HasSubmission(db, release) && newId in db.submissions
    ensures Submit(db, release, extension, seenKey, seenCurrent, newId, now).db == db
  {
    var db1 := SetRelease(db, release, db.releases[release].(status := Pending, submittedAt := Some(now)));
    assert forall u :: SubmissionFor(db1, u, release) ==> SubmissionFor(db, u, release);
    assert forall t | t in db1.submissions :: db1.submissions[t].release == release ==> SubmissionFor(db, t, release);
    assert !HasPendingSubmission(db1, release) && Upsert(db1, newId, release, now) == None;
  }

  lemma {:induction false} SubmitKeeps(db: Database, release: ReleaseId, extension: ExtensionId, seenKey: ObjectKey,
                    seenCurrent: Option<ReleaseId>, newId: SubmissionId, now: nat)
    requires TablesOk(db)
    ensures Keeps(db, Submit(db, release, extension, seenKey, seenCurrent, newId, now).db, None)
  {
    if !SubmitGuard(db, release, seenKey, seenCurrent) {
      SubmitMisses(db, release, extension, seenKey, seenCurrent, newId, now);
    } else if HasSubmission(db, release) || newId !in db.submissions {
      var s := SubmitHits(db, release, extension, seenKey, seenCurrent, newId, now);
      SubmittedKeeps(db, release, extension, newId, s, now);
    } else {
      NothingChanges(db, None);
      SubmitRefuses(db, release, extension, seenKey, seenCurrent, newId, now);
    }
  }
}
