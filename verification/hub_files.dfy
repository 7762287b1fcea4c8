/** What reaches the public: the files of every published package, traced back to the upload that wrote
    them.  A claim compares the status of its rows and not the package key that was read before it, so
    the files are those of the key the release names exactly when that key is still the one read. */
module HubFiles {
  import opened Options
  import opened HubDatabase
  import opened HubInvariant
  import opened HubProtocol
  import opened HubSafety
  import opened HubRuns
  import opened HubStaging
  import opened HubTrail
  import opened HubTrailSteps

  /** No staged object expires. */
  predicate NothingExpires(events: seq<Event>) {
    forall i | 0 <= i < |events| :: !events[i].ExpireStaging?
  }

  /** Different uploads bring different files. */
  ghost predicate UploadsDiffer(written: map<ObjectKey, Blob>) {
    forall j, k :: j in written && k in written && j != k ==> written[j].files != written[k].files
  }

  /** A published or yanked release's package object is stored under the key its descriptor names, was
      built for that extension and version, has the hash the descriptor gives, and holds the files that
      were written under the key its review had read. */
  lemma {:induction false} PublishedPackageIsStored(sha: Blob -> string, events: seq<Event>, r: ReleaseId)
    requires RunWithinLease(sha, events)
    requires var db := Run(sha, events).db; r in db.releases && Final(db.releases[r].status)
    ensures var s, t := Run(sha, events), TrailOf(sha, events);
            var row := s.db.releases[r];
            && row.artifact.Some? && r in t.claims
            && var d := row.artifact.value.descriptor;
               && d.extension == row.extension && d.version == row.version
               && d.packageUrl in s.store && sha(s.store[d.packageUrl]) == d.sha256
               && s.store[d.packageUrl].extension == row.extension && s.store[d.packageUrl].version == row.version
               && HoldsFilesOf(t.written, t.claims[r].read, s.store[d.packageUrl])
  {
    ReachableIsSound(sha, events);
    ReachableIsTraced(sha, events);
    var s := Run(sha, events);
    assert PackageStored(sha, s.store, s.db.releases[r]);
    assert FinalTraced(s.store, TrailOf(sha, events), r, s.db.releases[r]);
  }

  /** The published files are the ones written under the key the release names, which is the key it named
      at the claim, exactly when the review that claimed it had read that key. */
  lemma {:induction false} PublishedFilesAreNamedIff(sha: Blob -> string, events: seq<Event>, r: ReleaseId)
    requires RunWithinLease(sha, events)
    requires var db := Run(sha, events).db; r in db.releases && Final(db.releases[r].status)
    ensures var s, t := Run(sha, events), TrailOf(sha, events);
            var row := s.db.releases[r];
            && row.artifact.Some? && row.artifact.value.packageKey in s.store
            && r in t.claims && t.claims[r].named == row.stagingKey
            && var official := s.store[row.artifact.value.packageKey];
               && (t.claims[r].read == t.claims[r].named ==> HoldsFilesOf(t.written, row.stagingKey, official))
               && (UploadsDiffer(t.written) ==>
                     (HoldsFilesOf(t.written, row.stagingKey, official) <==> t.claims[r].read == t.claims[r].named))
  {
    ReachableIsTraced(sha, events);
    var s, t := Run(sha, events), TrailOf(sha, events);
    assert FinalTraced(s.store, t, r, s.db.releases[r]);
  }

  /** As long as nothing expires, the package of a release that is not published is in the store under the
      key its row names: one of its extension and version, with the files that were written there. */
  lemma {:induction false} OpenReleaseIsStaged(sha: Blob -> string, events: seq<Event>, r: ReleaseId)
    requires RunWithinLease(sha, events) && NothingExpires(events)
    requires var db := Run(sha, events).db; r in db.releases && !Final(db.releases[r].status)
    ensures var s, t := Run(sha, events), TrailOf(sha, events);
            var row := s.db.releases[r];
            && row.stagingKey.Some? && row.stagingKey.value in s.store && row.stagingKey.value in t.written
            && s.store[row.stagingKey.value] == t.written[row.stagingKey.value]
            && s.store[row.stagingKey.value].Staged?
            && s.store[row.stagingKey.value].extension == row.extension && s.store[row.stagingKey.value].version == row.version
  {
    ReachableStagingOk(sha, events);
    ReachableIsTraced(sha, events);
    var s, t := Run(sha, events), TrailOf(sha, events);
    assert RowStaged(s.store, r, s.db.releases[r]) && StoreTraced(s.store, t.written);
  }

  /** An approval builds a package exactly when the object it read about is still stored, and the package
      then holds the files written there; what it claimed is on record. */
  lemma {:induction false} ApprovalBuildsIff(sha: Blob -> string, events: seq<Event>, id: RequestId, signature: string)
    requires RunWithinLease(sha, events)
    requires var s := Run(sha, events); id in s.requests && s.requests[id].VersionChecked?
    ensures var s, t := Run(sha, events), TrailOf(sha, events);
            var snap := s.requests[id].snap;
            var next := BuildStep(s, id, s.requests[id], signature).requests[id];
            && (next.Built? <==> snap.stagingKey.Some? && snap.stagingKey.value in s.store)
            && (next.Built? ==> BuiltFor(snap, next.official) && HoldsFilesOf(t.written, snap.stagingKey, next.official))
            && (!next.Built? ==> next.ReviewFailed?)
            && snap.release in t.claims && t.claims[snap.release] == ClaimKeys(snap.stagingKey, KeyNamed(s.db, snap.release))
  {
    ReachableIsSound(sha, events);
    ReachableIsTraced(sha, events);
    var s, t := Run(sha, events), TrailOf(sha, events);
    assert RequestOk(sha, s.db, s.store, id, s.requests[id]) && RequestTraced(s.db, t, id, s.requests[id]);
    assert StoreTraced(s.store, t.written);
  }

  /** So, as long as nothing expires, an approval whose claim found the key that was read never fails for
      want of its package, and builds from the files the release names. */
  lemma {:induction false} ApprovalFindsItsPackage(sha: Blob -> string, events: seq<Event>, id: RequestId,
                                                   signature: string)
    requires RunWithinLease(sha, events) && NothingExpires(events)
    requires var s := Run(sha, events); id in s.requests && s.requests[id].VersionChecked?
    ensures var s, t := Run(sha, events), TrailOf(sha, events);
            var snap := s.requests[id].snap;
            var next := BuildStep(s, id, s.requests[id], signature).requests[id];
            && snap.release in t.claims
            && (t.claims[snap.release].read == t.claims[snap.release].named ==>
                  next.Built? && HoldsFilesOf(t.written, KeyNamed(s.db, snap.release), next.official))
            && (UploadsDiffer(t.written) && next.Built? ==>
                  (HoldsFilesOf(t.written, KeyNamed(s.db, snap.release), next.official)
                   <==> t.claims[snap.release].read == t.claims[snap.release].named))
  {
    var s := Run(sha, events);
    var snap := s.requests[id].snap;
    ApprovalBuildsIff(sha, events, id, signature);
    ReachableIsSound(sha, events);
    HolderStands(sha, s, id);
    assert SubmissionOk(s.db, snap.submission);
    OpenReleaseIsStaged(sha, events, snap.release);
  }
}
