/** The tables as mutable state: each request's batch executes its conditional statements
    in order on the rows, counting changes.  Every method is the batch of the same name; on sound
    tables it keeps them sound, or says exactly when it does, and what it may change. */
module HubTables {
  import opened Options
  import opened SemVer
  import opened HubDatabase
  import opened HubInvariant
  import opened HubBatches
  import opened HubReviews
  import opened HubLease

  class Tables {
    var listings: map<ExtensionId, Listing>
    var releases: map<ReleaseId, Release>
    var submissions: map<SubmissionId, Submission>

    function Contents(): Database
      reads this
    {
      Database(listings, releases, submissions)
    }

    /** The rows refer to each other as they should and the unique keys hold. */
    ghost predicate Valid()
      reads this
    {
      TablesOk(Contents())
    }

    constructor ()
      ensures Valid() && Contents() == EMPTY
    {
      listings, releases, submissions := map[], map[], map[];
    }

    /** Rows written in place of an unpublished listing's status. */
    method WriteUnpublishedStatus(extension: ExtensionId, status: ListingStatus)
      modifies this`listings
      ensures Contents() == SetUnpublishedStatus(old(Contents()), extension, status)
    {
      if extension in listings && listings[extension].current.None? {
        listings := listings[extension := listings[extension].(status := status)];
      }
    }

    /** A re-upload under a key of its own: the draft row is rewritten when its guards hold, else nothing is;
        no submission is withdrawn, no published row and no claimed row changes. */
    method Replace(release: ReleaseId, key: ObjectKey, seenKey: Option<ObjectKey>, seenCurrent: Option<ReleaseId>, now: nat) returns (ok: bool)
      requires Valid() && (release in releases ==> releases[release].stagingKey != Some(key))
      modifies this
      ensures Valid() && Keeps(old(Contents()), Contents(), None)
      ensures submissions == old(submissions) && listings == old(listings)
      ensures ok ==> ReleaseIs(Contents(), release, Draft) && releases[release].stagingKey == Some(key)
      ensures !ok ==> Contents() == old(Contents())
      ensures ReplaceRelease(old(Contents()), release, key, seenKey, seenCurrent, now) == Batch(Contents(), ok)
    {
      ReplaceKeeps(Contents(), release, key, seenKey, seenCurrent, now);
      ok := ReplaceStatements(release, key, seenKey, seenCurrent, now);
    }

    method ReplaceStatements(release: ReleaseId, key: ObjectKey, seenKey: Option<ObjectKey>, seenCurrent: Option<ReleaseId>, now: nat)
      returns (ok: bool)
      modifies this
      ensures ReplaceRelease(old(Contents()), release, key, seenKey, seenCurrent, now) == Batch(Contents(), ok)
    {
      ok := ReplaceGuard(Contents(), release, seenKey, seenCurrent);
      if ok {
        releases := releases[release := releases[release].(stagingKey := Some(key), status := Draft, submittedAt := None)];
      }
      if release in releases && releases[release].stagingKey == Some(key) {
        submissions := map s | s in submissions ::
          if submissions[s].release == release && submissions[s].status == SubPending
          then submissions[s].(status := SubWithdrawn, resolvedAt := Some(now))
          else submissions[s];
      }
    }

    /** A new draft, the only row of its extension and version, or nothing. */
    method InsertDraft(release: ReleaseId, extension: ExtensionId, version: Version, key: ObjectKey, seenCurrent: Option<ReleaseId>)
      returns (ok: bool)
      requires Valid()
      modifies this`releases
      ensures Valid() && Keeps(old(Contents()), Contents(), None)
      ensures ok ==>
        && release in releases && release !in old(releases) && releases[release].status == Draft && releases[release].stagingKey == Some(key)
        && (forall r | r in releases && releases[r].extension == extension && releases[r].version == version :: r == release)
      ensures !ok ==> Contents() == old(Contents())
      ensures InsertRelease(old(Contents()), release, extension, version, key, seenCurrent) == Batch(Contents(), ok)
    {
      InsertKeeps(Contents(), release, extension, version, key, seenCurrent);
      ok := InsertStatements(release, extension, version, key, seenCurrent);
    }

    method InsertStatements(release: ReleaseId, extension: ExtensionId, version: Version, key: ObjectKey, seenCurrent: Option<ReleaseId>)
      returns (ok: bool)
      modifies this`releases
      ensures InsertRelease(old(Contents()), release, extension, version, key, seenCurrent) == Batch(Contents(), ok)
    {
      ok := extension in listings && listings[extension].current == seenCurrent
            && release !in releases && !VersionTaken(Contents(), extension, version);
      if ok {
        releases := releases[release := Release(extension, version, Some(key), None, Draft, None)];
      }
    }

    /** The upsert finds its row through the UNIQUE index on release_id.  A submission that goes through
        leaves a pending row for its pending release. */
    method SubmitRelease(release: ReleaseId, extension: ExtensionId, seenKey: ObjectKey, seenCurrent: Option<ReleaseId>,
                         newId: SubmissionId, now: nat) returns (ok: bool)
      requires Valid()
      modifies this
      ensures Valid() && Keeps(old(Contents()), Contents(), None)
      ensures ok ==> ReleaseIs(Contents(), release, Pending) && HasPendingSubmission(Contents(), release)
      ensures !ok ==> releases == old(releases) && submissions == old(submissions)
      ensures Submit(old(Contents()), release, extension, seenKey, seenCurrent, newId, now) == Batch(Contents(), ok)
    {
      SubmitKeeps(Contents(), release, extension, seenKey, seenCurrent, newId, now);
      SubmitIs(Contents(), release, extension, seenKey, seenCurrent, newId, now);
      ok := SubmitStatements(release, extension, seenKey, seenCurrent, newId, now);
    }

    method SubmitStatements(release: ReleaseId, extension: ExtensionId, seenKey: ObjectKey, seenCurrent: Option<ReleaseId>,
                            newId: SubmissionId, now: nat) returns (ok: bool)
      requires KeysUnique(Contents())
      modifies this
      ensures Submit(old(Contents()), release, extension, seenKey, seenCurrent, newId, now) == Batch(Contents(), ok)
    {
      var before := releases;
      var hit := SubmitGuard(Contents(), release, seenKey, seenCurrent);
      if hit {
        releases := releases[release := releases[release].(status := Pending, submittedAt := Some(now))];
      }
      var inserts := PendingAt(Contents(), release, now) && !HasPendingSubmission(Contents(), release);
      ok := hit && inserts;
      if inserts {
        if s :| s in submissions && submissions[s].release == release {
          assert forall t :: SubmissionFor(Contents(), t, release) ==> SubmissionFor(old(Contents()), t, release);
          assert SubmissionFor(Contents(), s, release);
          submissions := submissions[s := Submission(release, SubPending, now, None)];
        } else {
          assert forall t :: !SubmissionFor(Contents(), t, release);
          if newId in submissions {
            releases := before;
            ok := false;
            return;
          }
          submissions := submissions[newId := Submission(release, SubPending, now, None)];
        }
      }
      if PendingAt(Contents(), release, now) {
        WriteUnpublishedStatus(extension, ListingPending);
      }
    }

    /** A claim takes both rows from pending to reviewing, or changes nothing. */
    method ClaimSubmission(s: SubmissionId, r: ReleaseId, now: nat) returns (ok: bool)
      requires Valid() && SubmissionFor(Contents(), s, r)
      modifies this
      ensures Valid() && Keeps(old(Contents()), Contents(), if ok then Some(s) else None)
      ensures ok == SubmissionIs(old(Contents()), s, SubPending)
      ensures ok ==> SubmissionIs(Contents(), s, SubReviewing) && ReleaseIs(Contents(), r, Reviewing) && submissions[s].resolvedAt == Some(now)
      ensures !ok ==> Contents() == old(Contents())
      ensures Claim(old(Contents()), s, r, now) == Batch(Contents(), ok)
    {
      ClaimAllOrNone(Contents(), s, r, now);
      ok := ClaimStatements(s, r, now);
    }

    method ClaimStatements(s: SubmissionId, r: ReleaseId, now: nat) returns (ok: bool)
      modifies this
      ensures Claim(old(Contents()), s, r, now) == Batch(Contents(), ok)
    {
      var first := SubmissionIs(Contents(), s, SubPending) && ReleaseIs(Contents(), r, Pending);
      if first {
        submissions := submissions[s := submissions[s].(status := SubReviewing, resolvedAt := Some(now))];
      }
      var second := ReleaseIs(Contents(), r, Pending) && SubmissionIs(Contents(), s, SubReviewing)
                    && submissions[s].resolvedAt == Some(now);
      if second {
        releases := releases[r := releases[r].(status := Reviewing)];
      }
      ok := first && second;
    }

    /** An approval changes all three rows or none.  With an artifact for this release, and a current release
        that is older, the tables stay sound and the current version rises. */
    method ApproveSubmission(s: SubmissionId, r: ReleaseId, e: ExtensionId, seenCurrent: Option<ReleaseId>, artifact: Artifact, now: nat)
      returns (ok: bool)
      requires Valid() && SubmissionFor(Contents(), s, r)
      modifies this
      ensures Approve(old(Contents()), s, r, e, seenCurrent, artifact, now) == Batch(Contents(), ok)
      ensures ok == ApproveGuard(old(Contents()), s, r, e, seenCurrent)
      ensures ok ==> CurrentOf(Contents(), e) == Some(r) && ReleaseIs(Contents(), r, Published) && SubmissionIs(Contents(), s, SubApproved)
      ensures !ok ==> Contents() == old(Contents())
      ensures ok && Publishable(old(Contents()), r, seenCurrent, artifact) ==> Valid() && Keeps(old(Contents()), Contents(), Some(s))
    {
      ApproveAllOrNone(Contents(), s, r, e, seenCurrent, artifact, now);
      if ApproveGuard(Contents(), s, r, e, seenCurrent) && Publishable(Contents(), r, seenCurrent, artifact) {
        ApproveKeeps(Contents(), s, r, e, seenCurrent, artifact, now);
      }
      ok := ApprovalStatements(s, r, e, seenCurrent, artifact, now);
    }

    method ApprovalStatements(s: SubmissionId, r: ReleaseId, e: ExtensionId, seenCurrent: Option<ReleaseId>, artifact: Artifact, now: nat)
      returns (ok: bool)
      modifies this
      ensures Approve(old(Contents()), s, r, e, seenCurrent, artifact, now) == Batch(Contents(), ok)
    {
      var first := ApproveGuard(Contents(), s, r, e, seenCurrent);
      if first {
        listings := listings[e := Listing(ListingPublished, Some(r))];
      }
      var second := ReleaseIs(Contents(), r, Reviewing) && CurrentOf(Contents(), e) == Some(r);
      if second {
        releases := releases[r := releases[r].(artifact := Some(artifact), status := Published)];
      }
      var third := SubmissionIs(Contents(), s, SubReviewing) && ReleaseIs(Contents(), r, Published);
      if third {
        submissions := submissions[s := submissions[s].(status := SubApproved, resolvedAt := Some(now))];
      }
      ok := first && second && third;
    }

    /** The CHECK list rolls the whole batch back, the unguarded first write included.  The tables stay sound
        exactly when the claim still stands or a request for changes is repeated. */
    method DecideSubmission(reject: bool, s: SubmissionId, r: ReleaseId, e: ExtensionId, now: nat) returns (ok: bool)
      requires Valid() && SubmissionFor(Contents(), s, r) && r in releases && releases[r].extension == e
      modifies this
      ensures Valid() <==> SubmissionIs(old(Contents()), s, SubReviewing) || (SubmissionIs(old(Contents()), s, SubChanges) && !reject)
      ensures SubmissionIs(old(Contents()), s, SubReviewing) && !reject ==>
        ok && Keeps(old(Contents()), Contents(), Some(s)) && SubmissionIs(Contents(), s, SubChanges) && ReleaseIs(Contents(), r, Changes)
      ensures Decide(old(Contents()), reject, s, r, e, now) == Batch(Contents(), ok)
      ensures SubmissionIs(old(Contents()), s, SubReviewing) && reject ==> !ok && Contents() == old(Contents())
    {
      DecisionKeepsTablesIff(Contents(), reject, s, r, now);
      if SubmissionIs(Contents(), s, SubReviewing) && !reject {
        ChangesKeeps(Contents(), s, r, e, now);
      }
      ok := DecisionStatements(reject, s, r, e, now);
    }

    method DecisionStatements(reject: bool, s: SubmissionId, r: ReleaseId, e: ExtensionId, now: nat) returns (ok: bool)
      modifies this
      ensures Decide(old(Contents()), reject, s, r, e, now) == Batch(Contents(), ok)
      ensures SubmissionIs(old(Contents()), s, SubReviewing) && reject ==> !ok && Contents() == old(Contents())
    {
      var before := releases;
      var text := if reject then RejectText else SubChanges;
      if r in releases {
        releases := releases[r := releases[r].(status := if reject then Rejected else Changes)];
      }
      if SubmissionIs(Contents(), s, SubReviewing) {
        if !PassesCheck(text) {
          releases := before;
          return false;
        }
        submissions := submissions[s := submissions[s].(status := text, resolvedAt := Some(now))];
      }
      WriteUnpublishedStatus(e, ListingDraft);
      ok := true;
    }

    /** The catch block takes both rows of a claim back to pending; without a claim it changes nothing. */
    method RollbackReview(s: SubmissionId, r: ReleaseId)
      requires Valid() && SubmissionFor(Contents(), s, r)
      modifies this
      ensures Valid() && Keeps(old(Contents()), Contents(), Some(s)) && listings == old(listings)
      ensures SubmissionIs(old(Contents()), s, SubReviewing) ==> SubmissionIs(Contents(), s, SubPending) && ReleaseIs(Contents(), r, Pending)
      ensures !SubmissionIs(old(Contents()), s, SubReviewing) ==> Contents() == old(Contents())
      ensures Contents() == Rollback(old(Contents()), s, r)
    {
      OnlySubmission(Contents(), s, r);
      if SubmissionIs(Contents(), s, SubReviewing) {
        RollbackKeeps(Contents(), s, r);
      } else {
        NothingChanges(Contents(), Some(s));
      }
      RollbackStatements(s, r);
    }

    method RollbackStatements(s: SubmissionId, r: ReleaseId)
      modifies this
      ensures Contents() == Rollback(old(Contents()), s, r) && listings == old(listings)
    {
      if SubmissionIs(Contents(), s, SubReviewing) {
        submissions := submissions[s := submissions[s].(status := SubPending, resolvedAt := None)];
      }
      if ReleaseIs(Contents(), r, Reviewing) {
        releases := releases[r := releases[r].(status := Pending)];
      }
    }

    /** The yank is not guarded.  On a published release the tables stay sound exactly when it is not current. */
    method YankRelease(r: ReleaseId)
      requires Valid()
      modifies this`releases
      ensures Contents() == Yank(old(Contents()), r)
      ensures ReleaseIs(old(Contents()), r, Published) ==>
        (Valid() <==> CurrentOf(old(Contents()), old(releases)[r].extension) != Some(r))
      ensures Retired(old(Contents()), r) ==> Valid() && Keeps(old(Contents()), Contents(), None)
    {
      ghost var db := Contents();
      if r in releases {
        releases := releases[r := releases[r].(status := Yanked)];
      }
      if ReleaseIs(db, r, Published) {
        YankKeepsTablesIff(db, r);
      }
      if Retired(db, r) {
        YankKeeps(db, r);
      }
    }

    /** A published listing is suspended and keeps its current release; any other is left alone. */
    method SuspendListing(e: ExtensionId) returns (ok: bool)
      requires Valid()
      modifies this`listings
      ensures Valid() && Keeps(old(Contents()), Contents(), None)
      ensures forall f :: CurrentOf(Contents(), f) == CurrentOf(old(Contents()), f)
      ensures ok ==> e in listings && listings[e].status == ListingSuspended && listings[e].current.Some?
      ensures !ok ==> Contents() == old(Contents())
      ensures Suspend(old(Contents()), e) == Batch(Contents(), ok)
    {
      SuspendKeeps(Contents(), e);
      assert e in listings ==> ListingOk(Contents(), e);
      ok := e in listings && listings[e].status == ListingPublished;
      if ok {
        listings := listings[e := listings[e].(status := ListingSuspended)];
      }
    }

    /** The sweep takes back exactly the expired claims. */
    method SweepClaims(now: nat)
      requires Valid()
      modifies this
      ensures Valid() && Evolves(old(Contents()), Contents())
      ensures Contents() == Sweep(old(Contents()), now)
      ensures forall s | s in old(submissions) ::
        if Expired(old(Contents()), s, now) then SubmissionIs(Contents(), s, SubPending) else HoldKept(old(Contents()), Contents(), s)
    {
      SweepKeeps(Contents(), now);
      SweepStatements(now);
    }

    method SweepStatements(now: nat)
      modifies this
      ensures Contents() == Sweep(old(Contents()), now)
    {
      submissions := map s | s in submissions ::
        if LeaseExpired(submissions[s], now) then submissions[s].(status := SubPending, resolvedAt := None) else submissions[s];
      var swept := Contents();
      releases := map r | r in releases ::
        if releases[r].status == Reviewing && HasPendingSubmission(swept, r) then releases[r].(status := Pending) else releases[r];
    }
  }

  /** The artifact is one of the release, and the seen current release is older. */
  predicate Publishable(db: Database, r: ReleaseId, seen: Option<ReleaseId>, artifact: Artifact) {
    && r in db.releases && ArtifactOf(db.releases[r].(artifact := Some(artifact)))
    && (seen.Some? ==> seen.value in db.releases && Gt(db.releases[r].version, db.releases[seen.value].version))
  }

  lemma {:induction false} SubmittedIs(db: Database, release: ReleaseId, extension: ExtensionId, s: SubmissionId,
                                       now: nat)
    requires release in db.releases
    ensures var db' := Submitted(db, release, extension, s, now); ReleaseIs(db', release, Pending) && HasPendingSubmission(db', release)
  {
    var db' := Submitted(db, release, extension, s, now);
    assert s in db'.submissions && db'.submissions[s].release == release && db'.submissions[s].status == SubPending;
  }

  lemma {:induction false} SubmitCollides(db: Database, release: ReleaseId, extension: ExtensionId, seenKey: ObjectKey,
                                          seenCurrent: Option<ReleaseId>, newId: SubmissionId, now: nat)
    requires !HasSubmission(db, release) && newId in db.submissions
    ensures SubmitGuard(db, release, seenKey, seenCurrent) ==>
      Submit(db, release, extension, seenKey, seenCurrent, newId, now) == Batch(db, false)
  {
    if SubmitGuard(db, release, seenKey, seenCurrent) {
      var db1 := SetRelease(db, release, db.releases[release].(status := Pending, submittedAt := Some(now)));
      assert forall u :: SubmissionFor(db1, u, release) ==> SubmissionFor(db, u, release);
      assert !HasPendingSubmission(db1, release) by {
        forall t | t in db1.submissions ensures db1.submissions[t].release != release {
          assert db1.submissions[t].release == release ==> SubmissionFor(db, t, release);
        }
      }
    }
  }

  /** What a submission leaves for its caller. */
  lemma {:induction false} SubmitIs(db: Database, release: ReleaseId, extension: ExtensionId, seenKey: ObjectKey,
                                    seenCurrent: Option<ReleaseId>, newId: SubmissionId, now: nat)
    requires TablesOk(db)
    ensures var b := Submit(db, release, extension, seenKey, seenCurrent, newId, now);
      && (b.ok ==> ReleaseIs(b.db, release, Pending) && HasPendingSubmission(b.db, release))
      && (!b.ok ==> b.db.releases == db.releases && b.db.submissions == db.submissions)
  {
    if !SubmitGuard(db, release, seenKey, seenCurrent) {
      SubmitMisses(db, release, extension, seenKey, seenCurrent, newId, now);
    } else if HasSubmission(db, release) || newId !in db.submissions {
      var s := SubmitHits(db, release, extension, seenKey, seenCurrent, newId, now);
      SubmittedIs(db, release, extension, s, now);
    } else {
      SubmitCollides(db, release, extension, seenKey, seenCurrent, newId, now);
    }
  }
}
