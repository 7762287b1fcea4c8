/** What every batch keeps: the table invariant, the immutable facts other requests
    rely on, and the rows an unrelated review holds. */
module HubInvariant {
  import opened Options
  import opened SemVer
  import opened HubDatabase

  predicate Final(status: ReleaseStatus) {
    status == Published || status == Yanked
  }

  // ---- The table invariant, row by row ----

  /** A current release is a published release of the same extension, and the listing is
      published or suspended exactly when it has one. */
  predicate ListingOk(db: Database, e: ExtensionId)
    requires e in db.listings
  {
    var row := db.listings[e];
    && (row.status == ListingPublished || row.status == ListingSuspended <==> row.current.Some?)
    && (row.current.Some? ==>
          ReleaseIs(db, row.current.value, Published) && db.releases[row.current.value].extension == e)
  }

  ghost predicate HasSubmission(db: Database, release: ReleaseId) {
    exists s :: SubmissionFor(db, s, release)
  }

  predicate ArtifactOf(release: Release) {
    release.artifact.Some? &&
    var a := release.artifact.value;
    && a.packageKey == PackageKey(release.extension, release.version, a.sha256)
    && a.descriptor.extension == release.extension && a.descriptor.version == release.version
    && a.descriptor.packageUrl == a.packageKey && a.descriptor.sha256 == a.sha256
  }

  predicate ReleaseShape(release: Release) {
    release.status != Rejected && (Final(release.status) ==> ArtifactOf(release))
  }

  ghost predicate ReleaseOk(db: Database, r: ReleaseId)
    requires r in db.releases
  {
    && db.releases[r].extension in db.listings
    && ReleaseShape(db.releases[r])
    && (db.releases[r].status == Draft || db.releases[r].status == Changes || HasSubmission(db, r))
  }

  /** The status pairs a submission and its release can be in together. */
  predicate InStep(submission: Submission, release: Release) {
    match submission.status
    case SubPending => release.status == Pending
    case SubReviewing => release.status == Reviewing && submission.resolvedAt.Some?
    case SubApproved => Final(release.status)
    case SubChanges => release.status == Changes || release.status == Draft
    case SubRejected => false
    case SubWithdrawn => false
    case RejectText => false
  }

  predicate SubmissionOk(db: Database, s: SubmissionId)
    requires s in db.submissions
  {
    && db.submissions[s].release in db.releases
    && InStep(db.submissions[s], db.releases[db.submissions[s].release])
  }

  ghost predicate RowsOk(db: Database) {
    && (forall e :: e in db.listings ==> ListingOk(db, e))
    && (forall r :: r in db.releases ==> ReleaseOk(db, r))
    && (forall s :: s in db.submissions ==> SubmissionOk(db, s))
  }

  predicate SameSlot(db: Database, r: ReleaseId, q: ReleaseId) {
    && r in db.releases && q in db.releases
    && db.releases[r].extension == db.releases[q].extension
    && db.releases[r].version == db.releases[q].version
  }

  /** UNIQUE(extension_id,version) and UNIQUE(release_id). */
  ghost predicate KeysUnique(db: Database) {
    && (forall r, q :: SameSlot(db, r, q) ==> r == q)
    && (forall s, t, r :: SubmissionFor(db, s, r) && SubmissionFor(db, t, r) ==> s == t)
  }

  ghost predicate TablesOk(db: Database) {
    RowsOk(db) && KeysUnique(db)
  }

  // ---- What one batch may change ----

  predicate Retired(db: Database, release: ReleaseId) {
    && release in db.releases && Final(db.releases[release].status)
    && CurrentOf(db, db.releases[release].extension) != Some(release)
  }

  predicate Newer(db: Database, next: Option<ReleaseId>, previous: Option<ReleaseId>) {
    && next.Some? && previous.Some?
    && next.value in db.releases && previous.value in db.releases
    && Gt(db.releases[next.value].version, db.releases[previous.value].version)
  }

  predicate ListingEvolves(db: Database, db': Database, e: ExtensionId) {
    && e in db'.listings
    && (CurrentOf(db, e).Some? && CurrentOf(db', e) != CurrentOf(db, e) ==> Newer(db', CurrentOf(db', e), CurrentOf(db, e)))
  }

  predicate ReleaseEvolves(db: Database, db': Database, r: ReleaseId)
    requires r in db.releases
  {
    && r in db'.releases
    && db'.releases[r].extension == db.releases[r].extension && db'.releases[r].version == db.releases[r].version
    && (Final(db.releases[r].status) ==>
          Final(db'.releases[r].status) && db'.releases[r].artifact == db.releases[r].artifact)
    && (db.releases[r].status == Yanked ==> db'.releases[r].status == Yanked)
    && (Retired(db, r) ==> Retired(db', r))
  }

  predicate SubmissionEvolves(db: Database, db': Database, s: SubmissionId)
    requires s in db.submissions
  {
    s in db'.submissions && db'.submissions[s].release == db.submissions[s].release
  }

  /** Rows never disappear, identities never change, published content is frozen,
      retired releases stay retired and the current version only goes up. */
  ghost predicate Evolves(db: Database, db': Database) {
    && (forall e :: e in db.listings ==> ListingEvolves(db, db', e))
    && (forall r :: r in db.releases ==> ReleaseEvolves(db, db', r))
    && (forall s :: s in db.submissions ==> SubmissionEvolves(db, db', s))
  }

  predicate HoldKept(db: Database, db': Database, s: SubmissionId)
    requires s in db.submissions
  {
    && s in db'.submissions && db'.submissions[s] == db.submissions[s]
    && db.submissions[s].release in db.releases && db.submissions[s].release in db'.releases
    && db'.releases[db.submissions[s].release] == db.releases[db.submissions[s].release]
  }

  /** The rows of every claimed submission except `own` are untouched. */
  ghost predicate HoldsKept(db: Database, db': Database, own: Option<SubmissionId>) {
    forall s :: s in db.submissions && db.submissions[s].status == SubReviewing && own != Some(s) ==> HoldKept(db, db', s)
  }

  ghost predicate Keeps(db: Database, db': Database, own: Option<SubmissionId>) {
    TablesOk(db') && Evolves(db, db') && HoldsKept(db, db', own)
  }

  lemma {:induction false} NothingChanges(db: Database, own: Option<SubmissionId>)
    requires TablesOk(db)
    ensures Keeps(db, db, own)
  {
    forall s | s in db.submissions && db.submissions[s].status == SubReviewing ensures HoldKept(db, db, s) {
      assert SubmissionOk(db, s);
    }
  }

  lemma {:induction false} EvolvesTransitive(a: Database, b: Database, c: Database)
    requires Evolves(a, b) && Evolves(b, c)
    ensures Evolves(a, c)
  {
    forall e | e in a.listings ensures ListingEvolves(a, c, e) {
      assert ListingEvolves(a, b, e) && ListingEvolves(b, c, e);
      ListingEvolvesTransitive(a, b, c, e);
    }
    forall r | r in a.releases ensures ReleaseEvolves(a, c, r) {
      assert ReleaseEvolves(a, b, r) && ReleaseEvolves(b, c, r);
    }
    forall s | s in a.submissions ensures SubmissionEvolves(a, c, s) {
      assert SubmissionEvolves(a, b, s) && SubmissionEvolves(b, c, s);
    }
  }

  lemma {:induction false} ListingEvolvesTransitive(a: Database, b: Database, c: Database, e: ExtensionId)
    requires forall r :: r in a.releases ==> ReleaseEvolves(a, b, r)
    requires forall r :: r in b.releases ==> ReleaseEvolves(b, c, r)
    requires ListingEvolves(a, b, e) && ListingEvolves(b, c, e)
    ensures ListingEvolves(a, c, e)
  {
    var x, y, z := CurrentOf(a, e), CurrentOf(b, e), CurrentOf(c, e);
    if x.Some? && x != y {
      assert ReleaseEvolves(b, c, x.value) && ReleaseEvolves(b, c, y.value);
      if y != z {
        GtIsTransitive(c.releases[z.value].version, c.releases[y.value].version, c.releases[x.value].version);
      }
    }
  }

  // ---- The common shape of a review batch: one submission and its release ----

  ghost predicate PairUpdate(db: Database, db': Database, s: SubmissionId, r: ReleaseId) {
    && r in db.releases && r in db'.releases && s in db'.submissions
    && db'.releases == db.releases[r := db'.releases[r]]
    && db'.submissions == db.submissions[s := db'.submissions[s]]
    && db'.submissions[s].release == r
    && db'.releases[r].extension == db.releases[r].extension
    && db'.releases[r].version == db.releases[r].version
    && (s in db.submissions ==> db.submissions[s].release == r)
    && (forall t :: SubmissionFor(db, t, r) ==> t == s)
    && !Final(db.releases[r].status)
    && ReleaseShape(db'.releases[r])
    && InStep(db'.submissions[s], db'.releases[r])
  }

  lemma {:induction false} PairRows(db: Database, db': Database, s: SubmissionId, r: ReleaseId)
    requires RowsOk(db) && PairUpdate(db, db', s, r)
    requires forall f :: f in db.listings ==> f in db'.listings
    ensures forall q :: q in db'.releases ==> ReleaseOk(db', q)
    ensures forall t :: t in db'.submissions ==> SubmissionOk(db', t)
  {
    forall q | q in db'.releases ensures ReleaseOk(db', q) {
      if q == r {
        assert SubmissionFor(db', s, r);
      } else {
        assert ReleaseOk(db, q);
        SubmissionStays(db, db', q);
      }
    }
    forall t | t in db'.submissions ensures SubmissionOk(db', t) {
      if t != s {
        assert SubmissionOk(db, t);
        assert db.submissions[t].release == r ==> SubmissionFor(db, t, r);
      }
    }
  }

  lemma {:induction false} SubmissionStays(db: Database, db': Database, r: ReleaseId)
    requires forall t :: t in db.submissions ==> SubmissionEvolves(db, db', t)
    ensures HasSubmission(db, r) ==> HasSubmission(db', r)
  {
    if HasSubmission(db, r) {
      var t :| SubmissionFor(db, t, r);
      assert SubmissionEvolves(db, db', t);
      assert SubmissionFor(db', t, r);
    }
  }

  lemma {:induction false} PairKeys(db: Database, db': Database, s: SubmissionId, r: ReleaseId)
    requires KeysUnique(db) && PairUpdate(db, db', s, r)
    ensures KeysUnique(db')
  {
    forall p, q | SameSlot(db', p, q) ensures p == q {
      assert SameSlot(db, p, q);
    }
    forall t, u, q | SubmissionFor(db', t, q) && SubmissionFor(db', u, q) ensures t == u {
      assert t != s ==> SubmissionFor(db, t, q);
      assert u != s ==> SubmissionFor(db, u, q);
    }
  }

  /** The listing side of a pair update: listings stay, only `e` may change, and it keeps
      its current release or moves from `seen` to `r`. */
  ghost predicate ListingsFollow(db: Database, db': Database, e: ExtensionId, r: ReleaseId) {
    && (forall f :: f in db.listings ==> f in db'.listings)
    && (forall f :: f in db'.listings ==> f in db.listings && (f == e || db'.listings[f] == db.listings[f]))
    && (e in db'.listings ==> ListingOk(db', e) && ListingEvolves(db, db', e))
    && (CurrentOf(db', e) == CurrentOf(db, e) || CurrentOf(db', e) == Some(r))
  }

  lemma {:induction false} PairListing(db: Database, db': Database, s: SubmissionId, r: ReleaseId, e: ExtensionId,
                                       f: ExtensionId)
    requires RowsOk(db) && PairUpdate(db, db', s, r) && ListingsFollow(db, db', e, r) && f in db'.listings
    ensures ListingOk(db', f)
  {
    assert ListingOk(db, f);
  }

  lemma {:induction false} PairRelease(db: Database, db': Database, s: SubmissionId, r: ReleaseId, e: ExtensionId,
                                       q: ReleaseId)
    requires PairUpdate(db, db', s, r) && ListingsFollow(db, db', e, r) && q in db.releases
    ensures ReleaseEvolves(db, db', q)
  {
    if Retired(db, q) {
      assert q != r;
    }
  }

  lemma {:induction false} PairEvolves(db: Database, db': Database, s: SubmissionId, r: ReleaseId, e: ExtensionId)
    requires RowsOk(db) && PairUpdate(db, db', s, r) && ListingsFollow(db, db', e, r)
    ensures Evolves(db, db')
    ensures forall f :: f in db'.listings ==> ListingOk(db', f)
  {
    forall f | f in db'.listings ensures ListingOk(db', f) {
      PairListing(db, db', s, r, e, f);
    }
    forall q | q in db.releases ensures ReleaseEvolves(db, db', q) {
      PairRelease(db, db', s, r, e, q);
    }
  }

  lemma {:induction false} PairHolds(db: Database, db': Database, s: SubmissionId, r: ReleaseId)
    requires RowsOk(db) && PairUpdate(db, db', s, r)
    ensures HoldsKept(db, db', Some(s))
  {
    forall t | t in db.submissions && db.submissions[t].status == SubReviewing && t != s ensures HoldKept(db, db', t) {
      assert SubmissionOk(db, t);
      assert db.submissions[t].release == r ==> SubmissionFor(db, t, r);
    }
  }

  lemma {:induction false} PairKeeps(db: Database, db': Database, s: SubmissionId, r: ReleaseId, e: ExtensionId)
    requires TablesOk(db) && PairUpdate(db, db', s, r) && ListingsFollow(db, db', e, r)
    ensures Keeps(db, db', Some(s))
  {
    PairRows(db, db', s, r);
    PairKeys(db, db', s, r);
    PairEvolves(db, db', s, r, e);
    PairHolds(db, db', s, r);
  }
}
