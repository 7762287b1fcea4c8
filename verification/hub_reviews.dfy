/** The review batches, the yank and the sweep on tables that satisfy the invariant. */
module HubReviews {
  import opened Options
  import opened SemVer
  import opened HubDatabase
  import opened HubInvariant
  import opened HubBatches

  /** `s` is the submission row of release `r`, and the only one. */
  lemma {:induction false} OnlySubmission(db: Database, s: SubmissionId, r: ReleaseId)
    requires TablesOk(db) && SubmissionFor(db, s, r)
    ensures r in db.releases && InStep(db.submissions[s], db.releases[r]) && ReleaseOk(db, r)
    ensures forall t :: SubmissionFor(db, t, r) ==> t == s
  {
    assert SubmissionOk(db, s);
  }

  /** The two rows of a review written together; listings untouched. */
  function WritePair(db: Database, s: SubmissionId, submission: Submission, r: ReleaseId, release: Release): Database {
    SetRelease(SetSubmission(db, s, submission), r, release)
  }

  lemma {:induction false} WritePairKeeps(db: Database, s: SubmissionId, submission: Submission, r: ReleaseId,
                                          release: Release)
    requires TablesOk(db) && SubmissionFor(db, s, r)
    requires r in db.releases && !Final(db.releases[r].status)
    requires submission.release == r && InStep(submission, release) && ReleaseShape(release)
    requires release.extension == db.releases[r].extension && release.version == db.releases[r].version
    requires !Final(release.status)
    ensures Keeps(db, WritePair(db, s, submission, r, release), Some(s))
  {
    OnlySubmission(db, s, r);
    var db' := WritePair(db, s, submission, r, release);
    var e := release.extension;
    assert ListingOk(db, e);
    assert PairUpdate(db, db', s, r);
    PairKeeps(db, db', s, r, e);
  }

  // ---- Claim ----

  /** A claim takes both rows from pending to reviewing, or changes nothing. */
  lemma {:induction false} ClaimAllOrNone(db: Database, s: SubmissionId, r: ReleaseId, now: nat)
    requires TablesOk(db) && SubmissionFor(db, s, r)
    ensures var b := Claim(db, s, r, now);
            && b.ok == SubmissionIs(db, s, SubPending)
            && b.db == (if b.ok
                        then WritePair(db, s, db.submissions[s].(status := SubReviewing, resolvedAt := Some(now)),
                                       r, db.releases[r].(status := Reviewing))
                        else db)
            && Keeps(db, b.db, if b.ok then Some(s) else None)
  {
    OnlySubmission(db, s, r);
    NothingChanges(db, None);
    if SubmissionIs(db, s, SubPending) {
      WritePairKeeps(db, s, db.submissions[s].(status := SubReviewing, resolvedAt := Some(now)),
                     r, db.releases[r].(status := Reviewing));
    }
  }

  // ---- Approve ----

  function Approved(db: Database, s: SubmissionId, r: ReleaseId, e: ExtensionId, artifact: Artifact, now: nat): Database
    requires s in db.submissions && r in db.releases
  {
    SetListing(WritePair(db, s, db.submissions[s].(status := SubApproved, resolvedAt := Some(now)),
                         r, db.releases[r].(artifact := Some(artifact), status := Published)),
               e, Listing(ListingPublished, Some(r)))
  }

  /** The three guarded updates of an approval change all their rows or none. */
  lemma {:induction false} ApproveAllOrNone(db: Database, s: SubmissionId, r: ReleaseId, e: ExtensionId,
                                            seen: Option<ReleaseId>, artifact: Artifact, now: nat)
    requires TablesOk(db) && SubmissionFor(db, s, r)
    ensures r in db.releases
    ensures var b := Approve(db, s, r, e, seen, artifact, now);
            && b.ok == ApproveGuard(db, s, r, e, seen)
            && b.db == if b.ok then Approved(db, s, r, e, artifact, now) else db
  {
    OnlySubmission(db, s, r);
    if e in db.listings {
      assert ListingOk(db, e);
    }
  }

  lemma {:induction false} ApproveKeeps(db: Database, s: SubmissionId, r: ReleaseId, e: ExtensionId,
                                        seen: Option<ReleaseId>, artifact: Artifact, now: nat)
    requires TablesOk(db) && SubmissionFor(db, s, r)
    requires ApproveGuard(db, s, r, e, seen)
    requires seen.Some? ==> seen.value in db.releases && Gt(db.releases[r].version, db.releases[seen.value].version)
    requires ArtifactOf(db.releases[r].(artifact := Some(artifact)))
    ensures Keeps(db, Approved(db, s, r, e, artifact, now), Some(s))
  {
    OnlySubmission(db, s, r);
    var db' := Approved(db, s, r, e, artifact, now);
    assert ListingOk(db, e);
    assert seen.Some? ==> seen.value != r;
    assert PairUpdate(db, db', s, r);
    PairKeeps(db, db', s, r, e);
  }

  // ---- Reject and request changes ----

  /** While the claim is held, a rejection is always rolled back by the CHECK list. */
  lemma {:induction false} RejectNeverCommits(db: Database, s: SubmissionId, r: ReleaseId, e: ExtensionId, now: nat)
    requires SubmissionIs(db, s, SubReviewing)
    ensures Decide(db, true, s, r, e, now) == Batch(db, false)
  {
  }

  lemma {:induction false} ChangesKeeps(db: Database, s: SubmissionId, r: ReleaseId, e: ExtensionId, now: nat)
    requires TablesOk(db) && SubmissionFor(db, s, r) && SubmissionIs(db, s, SubReviewing)
    ensures var b := Decide(db, false, s, r, e, now);
            b.ok && Keeps(db, b.db, Some(s))
            && SubmissionIs(b.db, s, SubChanges) && ReleaseIs(b.db, r, Changes)
  {
    OnlySubmission(db, s, r);
    var mid := WritePair(db, s, db.submissions[s].(status := SubChanges, resolvedAt := Some(now)),
                         r, db.releases[r].(status := Changes));
    WritePairKeeps(db, s, db.submissions[s].(status := SubChanges, resolvedAt := Some(now)),
                   r, db.releases[r].(status := Changes));
    StatusWriteKeeps(mid, e, ListingDraft, Some(s));
    KeepsTransitive(db, mid, SetUnpublishedStatus(mid, e, ListingDraft), s);
  }

  lemma {:induction false} KeepsTransitive(a: Database, b: Database, c: Database, s: SubmissionId)
    requires Keeps(a, b, Some(s)) && Keeps(b, c, Some(s))
    ensures Keeps(a, c, Some(s))
  {
    EvolvesTransitive(a, b, c);
    forall t | t in a.submissions && a.submissions[t].status == SubReviewing && t != s ensures HoldKept(a, c, t) {
      assert HoldKept(a, b, t) && HoldKept(b, c, t);
    }
  }

  // ---- Roll back ----

  lemma {:induction false} RollbackKeeps(db: Database, s: SubmissionId, r: ReleaseId)
    requires TablesOk(db) && SubmissionFor(db, s, r) && SubmissionIs(db, s, SubReviewing)
    ensures Keeps(db, Rollback(db, s, r), Some(s))
    ensures SubmissionIs(Rollback(db, s, r), s, SubPending) && ReleaseIs(Rollback(db, s, r), r, Pending)
  {
    OnlySubmission(db, s, r);
    WritePairKeeps(db, s, db.submissions[s].(status := SubPending, resolvedAt := None),
                   r, db.releases[r].(status := Pending));
  }

  // ---- Yank ----

  /** The unguarded yank is safe on a retired release, and retirement is permanent. */
  lemma {:induction false} YankKeeps(db: Database, r: ReleaseId)
    requires TablesOk(db) && Retired(db, r)
    ensures Keeps(db, Yank(db, r), None)
  {
    var db' := Yank(db, r);
    NothingChanges(db, None);
    YankRows(db, r);
    YankEvolves(db, r);
    assert forall p, q :: SameSlot(db', p, q) ==> SameSlot(db, p, q);
    assert forall s, q :: SubmissionFor(db', s, q) ==> SubmissionFor(db, s, q);
    forall s | s in db.submissions && db.submissions[s].status == SubReviewing ensures HoldKept(db, db', s) {
      assert SubmissionOk(db, s);
    }
  }

  lemma {:induction false} YankEvolves(db: Database, r: ReleaseId)
    requires RowsOk(db) && Retired(db, r)
    ensures Evolves(db, Yank(db, r))
  {
    forall q | q in db.releases ensures ReleaseEvolves(db, Yank(db, r), q) {
      assert ReleaseOk(db, q);
    }
  }

  lemma {:induction false} YankRows(db: Database, r: ReleaseId)
    requires RowsOk(db) && Retired(db, r)
    ensures RowsOk(Yank(db, r))
  {
    var db' := Yank(db, r);
    forall e | e in db'.listings ensures ListingOk(db', e) {
      assert ListingOk(db, e);
    }
    forall q | q in db'.releases ensures ReleaseOk(db', q) {
      assert ReleaseOk(db, q);
      SubmissionStays(db, db', q);
    }
    forall s | s in db'.submissions ensures SubmissionOk(db', s) {
      assert SubmissionOk(db, s);
    }
  }

  // ---- Sweep ----

  predicate Expired(db: Database, s: SubmissionId, now: nat) {
    s in db.submissions && LeaseExpired(db.submissions[s], now)
  }

  /** Row by row: an expired claim and its release become pending, all else stays. */
  lemma {:induction false} SweepRow(db: Database, s: SubmissionId, r: ReleaseId, now: nat)
    requires TablesOk(db) && SubmissionFor(db, s, r)
    ensures r in db.releases && r in Sweep(db, now).releases && s in Sweep(db, now).submissions
    ensures Sweep(db, now).submissions[s] ==
            if Expired(db, s, now) then db.submissions[s].(status := SubPending, resolvedAt := None) else db.submissions[s]
    ensures Sweep(db, now).releases[r] ==
            if Expired(db, s, now) then db.releases[r].(status := Pending) else db.releases[r]
  {
    OnlySubmission(db, s, r);
    var db1 := db.(submissions := Sweep(db, now).submissions);
    assert forall t :: t in db1.submissions && db1.submissions[t].release == r ==> SubmissionFor(db, t, r);
    assert Expired(db, s, now) ==> HasPendingSubmission(db1, r);
  }

  /** A release without submission is left alone by the sweep. */
  lemma {:induction false} SweepIdle(db: Database, r: ReleaseId, now: nat)
    requires RowsOk(db) && r in db.releases && !HasSubmission(db, r)
    ensures r in Sweep(db, now).releases && Sweep(db, now).releases[r] == db.releases[r]
  {
    assert ReleaseOk(db, r);
  }

  predicate SweptRelease(db: Database, db': Database, r: ReleaseId)
    requires r in db.releases
  {
    && r in db'.releases
    && (db'.releases[r] == db.releases[r] ||
        (db.releases[r].status == Reviewing && db'.releases[r] == db.releases[r].(status := Pending)))
  }

  /** All that the next lemmas need to know of a sweep. */
  ghost predicate SweepShape(db: Database, db': Database) {
    && db'.listings == db.listings && db'.releases.Keys == db.releases.Keys && db'.submissions.Keys == db.submissions.Keys
    && (forall r :: r in db.releases ==> SweptRelease(db, db', r))
    && (forall s :: s in db.submissions ==> SubmissionEvolves(db, db', s))
  }

  lemma {:induction false} SweepHasShape(db: Database, now: nat)
    ensures SweepShape(db, Sweep(db, now))
  {
  }

  lemma {:induction false} SweepEvolves(db: Database, db': Database)
    requires RowsOk(db) && SweepShape(db, db')
    ensures Evolves(db, db')
  {
    forall r | r in db.releases ensures ReleaseEvolves(db, db', r) {
      assert SweptRelease(db, db', r);
    }
  }

  lemma {:induction false} SweepKeys(db: Database, db': Database)
    requires KeysUnique(db) && SweepShape(db, db')
    ensures KeysUnique(db')
  {
    forall p, q | SameSlot(db', p, q) ensures p == q {
      assert SweptRelease(db, db', p) && SweptRelease(db, db', q);
      assert SameSlot(db, p, q);
    }
    forall s, t, r | SubmissionFor(db', s, r) && SubmissionFor(db', t, r) ensures s == t {
      assert SubmissionEvolves(db, db', s) && SubmissionEvolves(db, db', t);
      assert SubmissionFor(db, s, r) && SubmissionFor(db, t, r);
    }
  }

  lemma {:induction false} SweepOtherRows(db: Database, db': Database)
    requires RowsOk(db) && SweepShape(db, db')
    ensures forall e :: e in db'.listings ==> ListingOk(db', e)
    ensures forall r :: r in db'.releases ==> ReleaseOk(db', r)
  {
    forall e | e in db'.listings ensures ListingOk(db', e) {
      assert ListingOk(db, e);
      assert db.listings[e].current.Some? ==> SweptRelease(db, db', db.listings[e].current.value);
    }
    forall r | r in db'.releases ensures ReleaseOk(db', r) {
      assert ReleaseOk(db, r) && SweptRelease(db, db', r);
      SubmissionStays(db, db', r);
    }
  }

  lemma {:induction false} SweepSubmission(db: Database, s: SubmissionId, now: nat)
    requires TablesOk(db) && s in db.submissions
    ensures s in Sweep(db, now).submissions && SubmissionOk(Sweep(db, now), s)
    ensures !Expired(db, s, now) ==> HoldKept(db, Sweep(db, now), s)
  {
    var r := db.submissions[s].release;
    OnlySubmission(db, s, r);
    SweepRow(db, s, r, now);
  }

  /** The sweep takes back exactly the expired claims; the others keep their rows. */
  lemma {:induction false} SweepKeeps(db: Database, now: nat)
    requires TablesOk(db)
    ensures TablesOk(Sweep(db, now)) && Evolves(db, Sweep(db, now))
    ensures forall s :: s in db.submissions && !Expired(db, s, now) ==> HoldKept(db, Sweep(db, now), s)
    ensures forall s :: Expired(db, s, now) ==> SubmissionIs(Sweep(db, now), s, SubPending)
  {
    var db' := Sweep(db, now);
    SweepHasShape(db, now);
    SweepEvolves(db, db');
    SweepKeys(db, db');
    SweepOtherRows(db, db');
    forall s | s in db.submissions
      ensures s in db'.submissions && SubmissionOk(db', s) && (!Expired(db, s, now) ==> HoldKept(db, db', s))
    {
      SweepSubmission(db, s, now);
    }
    assert db'.submissions.Keys == db.submissions.Keys;
  }
}
