/** A run past the lease in which a published package disappears: two reviews build the same package for one
    release, the second one publishes it, and the first one, refused, deletes the object as its own. */
module HubLateDelete {
  import opened Options
  import opened SemVer
  import opened HubDatabase
  import opened HubInvariant
  import opened HubReviews
  import opened HubProtocol
  import opened HubSafety
  import opened HubSteps
  import opened HubRuns
  import opened HubClaims
  import opened HubTrail
  import opened HubTrailSteps
  import opened HubStaleKey
  import opened HubStaleRun

  /** A review has stored its package, holds its claim, and nothing has changed since it read. */
  ghost predicate HasStored(sha: Blob -> string, s: State, a: RequestId, snap: Snapshot, claimedAt: nat, signature: string) {
    && TablesOk(s.db) && a in s.requests && a < s.next && s.next !in s.requests && claimedAt <= s.clock
    && HoldOk(s.db, snap, claimedAt) && s.db.releases[snap.release].stagingKey == snap.stagingKey
    && CurrentOf(s.db, snap.extension) == snap.current && IsAbove(s.db, snap.release)
    && StagedFor(s, snap)
    && s.requests[a].Stored? && s.requests[a].snap == snap && s.requests[a].official == OfficialFor(s, snap, signature)
    && KeyOf(sha, s, snap, signature) in s.store && s.store[KeyOf(sha, s, snap, signature)] == OfficialFor(s, snap, signature)
  }

  function KeyOf(sha: Blob -> string, s: State, snap: Snapshot, signature: string): ObjectKey
    requires StagedFor(s, snap)
  {
    PackageKeyOf(sha, snap, OfficialFor(s, snap, signature))
  }

  // ---- The tables ----

  /** Past the lease the sweep takes the claim back. */
  lemma {:induction false} SweptIsPending(db: Database, snap: Snapshot, claimedAt: nat, now: nat)
    requires TablesOk(db) && HoldOk(db, snap, claimedAt) && claimedAt + LEASE < now && IsAbove(db, snap.release)
    ensures var db' := Sweep(db, now);
      && TablesOk(db') && SnapOk(db', snap) && SubmissionIs(db', snap.submission, SubPending) && ReleaseIs(db', snap.release, Pending)
      && db'.releases[snap.release].stagingKey == db.releases[snap.release].stagingKey
      && db'.listings == db.listings && IsAbove(db', snap.release)
  {
    var db' := Sweep(db, now);
    SweepKeeps(db, now);
    SweepRow(db, snap.submission, snap.release, now);
    SnapStable(db, db', snap);
    StaysAbove(db, db', snap.release);
  }

  lemma {:induction false} StaysAbove(db: Database, db': Database, r: ReleaseId)
    requires TablesOk(db) && Evolves(db, db') && IsAbove(db, r) && db'.listings == db.listings
    ensures IsAbove(db', r)
  {
    var e := db.releases[r].extension;
    assert ReleaseEvolves(db, db', r);
    if CurrentOf(db, e).Some? {
      assert ListingOk(db, e) && ReleaseEvolves(db, db', CurrentOf(db, e).value);
    }
  }

  lemma {:induction false} ClaimedAgain(db: Database, snap: Snapshot, now: nat)
    requires TablesOk(db) && SnapOk(db, snap) && SubmissionIs(db, snap.submission, SubPending) && IsAbove(db, snap.release)
    requires CurrentOf(db, snap.extension) == snap.current
    ensures var b := Claim(db, snap.submission, snap.release, now);
      && b.ok && TablesOk(b.db) && HoldOk(b.db, snap, now) && b.db.listings == db.listings && MayApprove(b.db, snap)
  {
    ClaimAllOrNone(db, snap.submission, snap.release, now);
    ClaimFacts(db, snap, now);
    var db' := Claim(db, snap.submission, snap.release, now).db;
    StaysAbove(db, db', snap.release);
    if snap.current.Some? {
      assert ListingOk(db', snap.extension);
    }
  }

  /** The approval goes through, and a second one of the same snapshot is refused and changes nothing. */
  lemma {:induction false} ApprovedOnce(db: Database, snap: Snapshot, claimedAt: nat, artifact: Artifact,
                                        late: Artifact, now: nat, later: nat)
    requires TablesOk(db) && HoldOk(db, snap, claimedAt) && CurrentOf(db, snap.extension) == snap.current
    ensures var b := Approve(db, snap.submission, snap.release, snap.extension, snap.current, artifact, now);
      && b.ok && ReleaseIs(b.db, snap.release, Published) && b.db.releases[snap.release].artifact == Some(artifact)
      && Approve(b.db, snap.submission, snap.release, snap.extension, snap.current, late, later) == Batch(b.db, false)
  {
    OnlySubmission(db, snap.submission, snap.release);
    ApproveAllOrNone(db, snap.submission, snap.release, snap.extension, snap.current, artifact, now);
  }

  // ---- The steps ----

  /** The states of the second review, from the sweep on. */
  function SweptState(s: State, now: nat): State {
    s.(clock := now, db := Sweep(s.db, now))
  }

  function HeldState(s: State, snap: Snapshot, now: nat, request: Request): State {
    s.(clock := now, db := Claim(Sweep(s.db, now), snap.submission, snap.release, now).db,
       requests := s.requests[s.next := request], next := s.next + 1)
  }

  lemma {:induction false} SweptSteps(sha: Blob -> string, s: State)
    ensures var now := s.clock + LEASE + 1;
      Apply(sha, Apply(sha, s, Tick(LEASE + 1)), RunSweep(now)) == SweptState(s, now)
  {
  }

  /** The swept tables let a second review read the same snapshot, claim and approve. */
  ghost predicate Reclaimable(s: State, snap: Snapshot, now: nat) {
    var swept := Sweep(s.db, now);
    var b := Claim(swept, snap.submission, snap.release, now);
    && SnapOk(swept, snap) && SubmissionIs(swept, snap.submission, SubPending) && ReleaseIs(swept, snap.release, Pending)
    && swept.releases[snap.release].stagingKey == snap.stagingKey && CurrentOf(swept, snap.extension) == snap.current
    && b.ok && TablesOk(b.db) && HoldOk(b.db, snap, now) && MayApprove(b.db, snap) && CurrentOf(b.db, snap.extension) == snap.current
  }

  lemma {:induction false} ReadAgain(s: State, snap: Snapshot, now: nat)
    requires Reclaimable(s, snap, now)
    ensures Opened(SweptState(s, now).db, StartReview(snap.submission, Approval)) == Some(ReviewRead(snap, Approval))
  {
  }

  lemma {:induction false} ClaimsAgain(sha: Blob -> string, s: State, snap: Snapshot, now: nat)
    requires Claim(Sweep(s.db, now), snap.submission, snap.release, now).ok
    ensures var read := Start(SweptState(s, now), ReviewRead(snap, Approval));
      Apply(sha, read, CommitClaim(s.next, now)) == HeldState(s, snap, now, Claimed(snap, now, Approval))
  {
    var read := Start(SweptState(s, now), ReviewRead(snap, Approval));
    ClaimStepIs(sha, read, s.next);
    assert read.requests[s.next := Claimed(snap, now, Approval)] == s.requests[s.next := Claimed(snap, now, Approval)];
  }

  lemma {:induction false} ChecksAgain(sha: Blob -> string, s: State, snap: Snapshot, now: nat)
    requires MayApprove(Claim(Sweep(s.db, now), snap.submission, snap.release, now).db, snap)
    ensures Apply(sha, HeldState(s, snap, now, Claimed(snap, now, Approval)), CheckApproval(s.next))
         == HeldState(s, snap, now, VersionChecked(snap, now))
  {
    var held := HeldState(s, snap, now, Claimed(snap, now, Approval));
    assert held.requests[s.next := VersionChecked(snap, now)] == s.requests[s.next := VersionChecked(snap, now)];
  }

  lemma {:induction false} BuildsAgain(sha: Blob -> string, s: State, snap: Snapshot, now: nat, signature: string)
    requires StagedFor(s, snap)
    ensures Apply(sha, HeldState(s, snap, now, VersionChecked(snap, now)), BuildPackage(s.next, signature))
         == HeldState(s, snap, now, Built(snap, now, OfficialFor(s, snap, signature), now))
  {
    var held := HeldState(s, snap, now, VersionChecked(snap, now));
    var built := Built(snap, now, OfficialFor(s, snap, signature), now);
    assert held.requests[s.next := built] == s.requests[s.next := built];
  }

  lemma {:induction false} StoresAgain(sha: Blob -> string, s: State, snap: Snapshot, now: nat, official: Blob)
    requires PackageKeyOf(sha, snap, official) in s.store && s.store[PackageKeyOf(sha, snap, official)] == official
    ensures Apply(sha, HeldState(s, snap, now, Built(snap, now, official, now)), PutPackage(s.next))
         == HeldState(s, snap, now, Stored(snap, now, official, now))
  {
    var held := HeldState(s, snap, now, Built(snap, now, official, now));
    var stored := Stored(snap, now, official, now);
    assert held.requests[s.next := stored] == s.requests[s.next := stored];
    assert s.store[PackageKeyOf(sha, snap, official) := official] == s.store;
  }

  /** What is left of a state after both approvals and the deletion. */
  ghost predicate Gone(sha: Blob -> string, s: State, snap: Snapshot, key: ObjectKey) {
    && ReleaseIs(s.db, snap.release, Published) && s.db.releases[snap.release].artifact.Some?
    && s.db.releases[snap.release].artifact.value.packageKey == key && key !in s.store
  }

  lemma {:induction false} PublishAndDelete(sha: Blob -> string, s: State, a: RequestId, b: RequestId,
                                            snap: Snapshot, claimedAt: nat)
    requires TablesOk(s.db) && a in s.requests && b in s.requests && a != b && s.requests[a].Stored? && s.requests[b].Stored?
    requires s.requests[a].snap == snap && s.requests[b].snap == snap && s.requests[a].official == s.requests[b].official
    requires HoldOk(s.db, snap, claimedAt) && CurrentOf(s.db, snap.extension) == snap.current
    ensures var s1 := Apply(sha, s, CommitApproval(b));
            var s2 := Apply(sha, s1, CommitApproval(a));
      Gone(sha, Apply(sha, s2, DeletePackage(a, true)), snap, PackageKeyOf(sha, snap, s.requests[a].official))
  {
    var p, q := s.requests[a], s.requests[b];
    var s1 := Apply(sha, s, CommitApproval(b));
    FirstApproval(sha, s, a, b, snap, claimedAt);
    RefusedDeletes(sha, s1, a, p, snap);
  }

  lemma {:induction false} FirstApproval(sha: Blob -> string, s: State, a: RequestId, b: RequestId, snap: Snapshot,
                                         claimedAt: nat)
    requires TablesOk(s.db) && a in s.requests && b in s.requests && a != b && s.requests[a].Stored? && s.requests[b].Stored?
    requires s.requests[a].snap == snap && s.requests[b].snap == snap && s.requests[a].official == s.requests[b].official
    requires HoldOk(s.db, snap, claimedAt) && CurrentOf(s.db, snap.extension) == snap.current
    ensures var p, q := s.requests[a], s.requests[b];
            var s1 := Apply(sha, s, CommitApproval(b));
      && ReleaseIs(s1.db, snap.release, Published)
      && s1.db.releases[snap.release].artifact == Some(ArtifactFor(sha, snap, q.official, q.publishedAt))
      && a in s1.requests && s1.requests[a] == p && ApprovalBatch(sha, s1, p) == Batch(s1.db, false)
  {
    var p, q := s.requests[a], s.requests[b];
    ApprovedOnce(s.db, snap, claimedAt, ArtifactFor(sha, snap, q.official, q.publishedAt), ArtifactFor(sha, snap, p.official, p.publishedAt),
                 q.publishedAt, p.publishedAt);
    ApprovalStepIs(sha, s, b);
    AfterTheFirst(s, a, b, ApprovalBatch(sha, s, q));
  }

  lemma {:induction false} ApprovalStepIs(sha: Blob -> string, s: State, b: RequestId)
    requires b in s.requests && s.requests[b].Stored?
    ensures Apply(sha, s, CommitApproval(b)) == AfterApproval(s, b, s.requests[b], ApprovalBatch(sha, s, s.requests[b]))
  {
  }

  lemma {:induction false} AfterTheFirst(s: State, a: RequestId, b: RequestId, batch: Batch)
    requires a in s.requests && b in s.requests && a != b && s.requests[b].Stored?
    ensures var s1 := AfterApproval(s, b, s.requests[b], batch); s1.db == batch.db && a in s1.requests && s1.requests[a] == s.requests[a]
  {
  }

  lemma {:induction false} RefusedDeletes(sha: Blob -> string, s: State, a: RequestId, p: Request, snap: Snapshot)
    requires a in s.requests && s.requests[a] == p && p.Stored? && p.snap == snap && ApprovalBatch(sha, s, p) == Batch(s.db, false)
    ensures var s2 := Apply(sha, s, CommitApproval(a));
            var s3 := Apply(sha, s2, DeletePackage(a, true));
      s3.db == s.db && PackageKeyOf(sha, snap, p.official) !in s3.store
  {
    var s2 := Apply(sha, s, CommitApproval(a));
    assert s2 == AfterApproval(s, a, p, Batch(s.db, false));
  }

  // ---- The run ----

  /** The tables of the second review. */
  lemma {:induction false} SecondTables(sha: Blob -> string, s: State, a: RequestId, snap: Snapshot, claimedAt: nat,
                                        signature: string)
    requires HasStored(sha, s, a, snap, claimedAt, signature)
    ensures Reclaimable(s, snap, s.clock + LEASE + 1)
  {
    var now := s.clock + LEASE + 1;
    SweptIsPending(s.db, snap, claimedAt, now);
    ClaimedAgain(Sweep(s.db, now), snap, now);
  }

  lemma {:induction false} SweepAndRead(sha: Blob -> string, events: seq<Event>, s: State, snap: Snapshot, now: nat)
    returns (after: seq<Event>)
    requires Run(sha, events) == s && now == s.clock + LEASE + 1
    requires Opened(SweptState(s, now).db, StartReview(snap.submission, Approval)) == Some(ReviewRead(snap, Approval))
    ensures events <= after && Run(sha, after) == Start(SweptState(s, now), ReviewRead(snap, Approval))
  {
    var ticked := events + [Tick(LEASE + 1)];
    RunSnoc(sha, events, Tick(LEASE + 1));
    RunSnoc(sha, ticked, RunSweep(now));
    SweptSteps(sha, s);
    var swept := ticked + [RunSweep(now)];
    RunSnoc(sha, swept, StartReview(snap.submission, Approval));
    after := swept + [StartReview(snap.submission, Approval)];
  }

  /** After the lease a second review builds and stores the same package. */
  lemma {:induction false} Overtaken(sha: Blob -> string, events: seq<Event>, s: State, snap: Snapshot, now: nat,
                                     signature: string)
    returns (after: seq<Event>)
    requires Run(sha, events) == s && now == s.clock + LEASE + 1 && Reclaimable(s, snap, now) && StagedFor(s, snap)
    requires KeyOf(sha, s, snap, signature) in s.store && s.store[KeyOf(sha, s, snap, signature)] == OfficialFor(s, snap, signature)
    ensures events <= after
    ensures Run(sha, after) == HeldState(s, snap, now, Stored(snap, now, OfficialFor(s, snap, signature), now))
  {
    ReadAgain(s, snap, now);
    var read := SweepAndRead(sha, events, s, snap, now);
    after := SecondReview(sha, read, s, snap, now, signature);
  }

  lemma {:induction false} SecondReview(sha: Blob -> string, events: seq<Event>, s: State, snap: Snapshot, now: nat,
                                        signature: string)
    returns (after: seq<Event>)
    requires Run(sha, events) == Start(SweptState(s, now), ReviewRead(snap, Approval)) && StagedFor(s, snap)
    requires Reclaimable(s, snap, now)
    requires KeyOf(sha, s, snap, signature) in s.store && s.store[KeyOf(sha, s, snap, signature)] == OfficialFor(s, snap, signature)
    ensures events <= after
    ensures Run(sha, after) == HeldState(s, snap, now, Stored(snap, now, OfficialFor(s, snap, signature), now))
  {
    ClaimsAgain(sha, s, snap, now);
    RunSnoc(sha, events, CommitClaim(s.next, now));
    var claimed := events + [CommitClaim(s.next, now)];
    ChecksAgain(sha, s, snap, now);
    RunSnoc(sha, claimed, CheckApproval(s.next));
    var checked := claimed + [CheckApproval(s.next)];
    BuildsAgain(sha, s, snap, now, signature);
    RunSnoc(sha, checked, BuildPackage(s.next, signature));
    var built := checked + [BuildPackage(s.next, signature)];
    StoresAgain(sha, s, snap, now, OfficialFor(s, snap, signature));
    RunSnoc(sha, built, PutPackage(s.next));
    after := built + [PutPackage(s.next)];
  }

  lemma {:induction false} BothApprove(sha: Blob -> string, events: seq<Event>, a: RequestId, b: RequestId,
                                       snap: Snapshot, claimedAt: nat)
    returns (after: seq<Event>)
    requires var s := Run(sha, events);
      && TablesOk(s.db) && a in s.requests && b in s.requests && a != b && s.requests[a].Stored? && s.requests[b].Stored?
      && s.requests[a].snap == snap && s.requests[b].snap == snap && s.requests[a].official == s.requests[b].official
      && HoldOk(s.db, snap, claimedAt) && CurrentOf(s.db, snap.extension) == snap.current
    ensures events <= after && Gone(sha, Run(sha, after), snap, PackageKeyOf(sha, snap, Run(sha, events).requests[a].official))
  {
    PublishAndDelete(sha, Run(sha, events), a, b, snap, claimedAt);
    RunSnoc(sha, events, CommitApproval(b));
    var one := events + [CommitApproval(b)];
    RunSnoc(sha, one, CommitApproval(a));
    var two := one + [CommitApproval(a)];
    RunSnoc(sha, two, DeletePackage(a, true));
    after := two + [DeletePackage(a, true)];
  }

  /** A review that has stored its package, and a second one past the lease, end with a published release whose
      package is gone. */
  lemma {:induction false} OvertakenDeletes(sha: Blob -> string, events: seq<Event>, a: RequestId, snap: Snapshot,
                                            claimedAt: nat, signature: string)
    returns (after: seq<Event>)
    requires HasStored(sha, Run(sha, events), a, snap, claimedAt, signature)
    ensures events <= after && Gone(sha, Run(sha, after), snap, KeyOf(sha, Run(sha, events), snap, signature))
  {
    var s := Run(sha, events);
    SecondTables(sha, s, a, snap, claimedAt, signature);
    after := OvertakenGone(sha, events, s, a, snap, s.clock + LEASE + 1, signature);
  }

  lemma {:induction false} OvertakenGone(sha: Blob -> string, events: seq<Event>, s: State, a: RequestId,
                                         snap: Snapshot, now: nat, signature: string)
    returns (after: seq<Event>)
    requires Run(sha, events) == s && now == s.clock + LEASE + 1 && Reclaimable(s, snap, now) && StagedFor(s, snap)
    requires KeyOf(sha, s, snap, signature) in s.store && s.store[KeyOf(sha, s, snap, signature)] == OfficialFor(s, snap, signature)
    requires a in s.requests && a < s.next && s.requests[a].Stored? && s.requests[a].snap == snap
    requires s.requests[a].official == OfficialFor(s, snap, signature)
    ensures events <= after && Gone(sha, Run(sha, after), snap, KeyOf(sha, s, snap, signature))
  {
    var both := Overtaken(sha, events, s, snap, now, signature);
    assert Run(sha, both).requests[a] == s.requests[a];
    after := BothApprove(sha, both, a, s.next, snap, now);
  }

  // ---- From a pending submission ----

  /** A review has claimed what it read, and may approve it. */
  ghost predicate ClaimedToApprove(s: State, s0: State, t: SubmissionId)
    requires MayReview(s0.db, t)
  {
    var snap := ReadReview(s0.db, t);
    && s0.next in s.requests && s.requests[s0.next] == Claimed(snap, s0.clock, Approval) && s.clock == s0.clock
    && HoldOk(s.db, snap, s0.clock) && KeyNamed(s.db, snap.release) == snap.stagingKey
    && CurrentOf(s.db, snap.extension) == snap.current && IsAbove(s.db, snap.release) && MayApprove(s.db, snap)
    && StagedFor(s, snap)
  }

  lemma {:induction false} FirstClaim(sha: Blob -> string, events: seq<Event>, t: SubmissionId)
    returns (after: seq<Event>)
    requires RunWithinLease(sha, events) && SubmissionIs(Run(sha, events).db, t, SubPending) && MayReview(Run(sha, events).db, t)
    requires IsAbove(Run(sha, events).db, Run(sha, events).db.submissions[t].release)
    requires StagedFor(Run(sha, events), ReadReview(Run(sha, events).db, t))
    ensures events <= after && RunWithinLease(sha, after) && ClaimedToApprove(Run(sha, after), Run(sha, events), t)
  {
    var s := Run(sha, events);
    var snap := ReadReview(s.db, t);
    var read := GoRead(sha, events, StartReview(t, Approval));
    after := GoClaim(sha, read, s.next);
    ClaimKeepsRow(s.db, snap, s.clock);
    AboveInRead(sha, events, read, snap);
    MayStillApprove(sha, read, after, s.next);
    AboveStays(sha, read, after, snap.release);
  }

  /** A review reads, claims, builds and stores, all in time. */
  lemma {:induction false} FirstReview(sha: Blob -> string, events: seq<Event>, t: SubmissionId, signature: string)
    returns (after: seq<Event>, snap: Snapshot)
    requires RunWithinLease(sha, events) && SubmissionIs(Run(sha, events).db, t, SubPending)
    requires var s := Run(sha, events);
             var r := s.db.submissions[t].release;
      && r in s.db.releases && IsAbove(s.db, r)
      && s.db.releases[r].stagingKey.Some? && s.db.releases[r].stagingKey.value in s.store
    ensures events <= after && snap.submission == t && snap.release == Run(sha, events).db.submissions[t].release
    ensures HasStored(sha, Run(sha, after), Run(sha, events).next, snap, Run(sha, events).clock, signature)
  {
    var s := Run(sha, events);
    PendingRow(sha, events, t);
    snap := ReadReview(s.db, t);
    StagedFits(sha, events, t);
    var claimed := FirstClaim(sha, events, t);
    after := GoStored(sha, claimed, s.next, signature);
    GoStoredHasStored(sha, after, Run(sha, claimed), s.next, snap, s.clock, signature);
  }

  lemma {:induction false} AboveInRead(sha: Blob -> string, events: seq<Event>, read: seq<Event>, snap: Snapshot)
    requires Run(sha, read).db == Run(sha, events).db && IsAbove(Run(sha, events).db, snap.release)
    ensures IsAbove(Run(sha, read).db, snap.release)
  {
  }

  lemma {:induction false} GoStoredHasStored(sha: Blob -> string, events: seq<Event>, s: State, a: RequestId,
                                             snap: Snapshot, claimedAt: nat, signature: string)
    requires RunWithinLease(sha, events) && a in s.requests && s.requests[a] == Claimed(snap, claimedAt, Approval) && StagedFor(s, snap)
    requires Run(sha, events) == PackageState(sha, s, a, s.requests[a], signature)
    requires HoldOk(s.db, snap, claimedAt) && KeyNamed(s.db, snap.release) == snap.stagingKey && claimedAt <= s.clock
    requires CurrentOf(s.db, snap.extension) == snap.current && IsAbove(s.db, snap.release)
    ensures HasStored(sha, Run(sha, events), a, snap, claimedAt, signature)
  {
    ReachableIsSound(sha, events);
    NextIsFree(sha, Run(sha, events));
    assert a in Run(sha, events).requests;
  }

  /** The release is published, and the package object its descriptor names is not in the store. */
  predicate PackageIsGone(s: State, r: ReleaseId) {
    ReleaseIs(s.db, r, Published) && s.db.releases[r].artifact.Some? && s.db.releases[r].artifact.value.packageKey !in s.store
  }

  /** The lease is needed for the packages too: from every reachable state in which a release above the current
      one is pending and its package stored, the run can go on, past the lease, to a state in which the release
      is published and its package is gone. */
  lemma {:induction false} LateReviewDeletesPackage(sha: Blob -> string, events: seq<Event>, t: SubmissionId,
                                                    signature: string)
    returns (after: seq<Event>)
    requires RunWithinLease(sha, events) && SubmissionIs(Run(sha, events).db, t, SubPending)
    requires var s := Run(sha, events);
             var r := s.db.submissions[t].release;
      && r in s.db.releases && IsAbove(s.db, r)
      && s.db.releases[r].stagingKey.Some? && s.db.releases[r].stagingKey.value in s.store
    ensures events <= after && PackageIsGone(Run(sha, after), Run(sha, events).db.submissions[t].release)
  {
    var stored, snap := FirstReview(sha, events, t, signature);
    after := OvertakenDeletes(sha, stored, Run(sha, events).next, snap, Run(sha, events).clock, signature);
  }

  /** Such a run starts from the empty tables. */
  lemma {:induction false} PackageGoneRun(sha: Blob -> string, e: ExtensionId, r: ReleaseId, t: SubmissionId,
                                          version: Version,
                                          files: string, signature: string) returns (events: seq<Event>)
    ensures PackageIsGone(Run(sha, events), r)
  {
    var pending := FirstSubmission(sha, e, r, t, version, files);
    events := LateReviewDeletesPackage(sha, pending, t, signature);
  }
}
