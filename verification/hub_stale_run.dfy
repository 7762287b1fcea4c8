/** A run in which the public gets other files than the release names.  Between the read and the claim of
    one review, another review sends the release back and the publisher replaces its package; the claim
    succeeds, and as the clean-up of the replaced object is still to come the approval builds from it. */
module HubStaleRun {
  import opened Options
  import opened SemVer
  import opened HubDatabase
  import opened HubInvariant
  import opened HubReviews
  import opened HubProtocol
  import opened HubSafety
  import opened HubSteps
  import opened HubRuns
  import opened HubClaims
  import opened HubStaleKey
  import opened HubTrail
  import opened HubTrailSteps

  // ---- Runs that go on ----

  lemma {:induction false} Extend(sha: Blob -> string, events: seq<Event>, e: Event)
    requires RunWithinLease(sha, events) && WithinLease(Apply(sha, Run(sha, events), e))
    ensures RunWithinLease(sha, events + [e]) && Run(sha, events + [e]) == Apply(sha, Run(sha, events), e)
  {
    RunSnoc(sha, events, e);
    var longer := events + [e];
    forall n | 0 <= n <= |longer| ensures WithinLease(Run(sha, longer[..n])) {
      if n <= |events| {
        assert longer[..n] == events[..n];
      } else {
        assert longer[..n] == longer;
      }
    }
  }

  /** A step to a given state at the same time. */
  lemma {:induction false} GoTo(sha: Blob -> string, events: seq<Event>, e: Event, s': State)
    returns (after: seq<Event>)
    requires RunWithinLease(sha, events) && Apply(sha, Run(sha, events), e) == s' && WithinLease(s')
    ensures after == events + [e] && RunWithinLease(sha, after) && Run(sha, after) == s'
  {
    Extend(sha, events, e);
    after := events + [e];
  }

  /** The claims of the requests that stay are as old as before, and a new one is of this moment. */
  lemma {:induction false} LeaseStays(s: State, s': State, id: RequestId)
    requires WithinLease(s) && s'.clock == s.clock
    requires forall j :: j in s'.requests && j != id ==> j in s.requests && s'.requests[j] == s.requests[j]
    requires id in s'.requests && s'.requests[id].Holds() ==> s'.requests[id].claimedAt == s.clock
    ensures WithinLease(s')
  {
  }

  /** A read that is accepted. */
  lemma {:induction false} GoRead(sha: Blob -> string, events: seq<Event>, e: Event) returns (after: seq<Event>)
    requires RunWithinLease(sha, events) && !IsRequestStep(e) && Opened(Run(sha, events).db, e).Some?
    ensures after == events + [e] && RunWithinLease(sha, after)
    ensures Run(sha, after) == Start(Run(sha, events), Opened(Run(sha, events).db, e).value)
  {
    var s := Run(sha, events);
    assert WithinLease(s) by { assert events[..|events|] == events; }
    var request := Opened(s.db, e).value;
    assert Apply(sha, s, e) == Start(s, request) && !request.Holds();
    LeaseStays(s, Start(s, request), s.next);
    after := GoTo(sha, events, e, Start(s, request));
  }

  /** A step of a request. */
  lemma {:induction false} GoStep(sha: Blob -> string, events: seq<Event>, e: Event, s': State)
    returns (after: seq<Event>)
    requires RunWithinLease(sha, events) && IsRequestStep(e) && e.id in Run(sha, events).requests
    requires s' == StepRequest(sha, Run(sha, events), e, e.id, Run(sha, events).requests[e.id]) && s'.clock == Run(sha, events).clock
    requires forall j :: j in s'.requests && j != e.id ==> j in Run(sha, events).requests && s'.requests[j] == Run(sha, events).requests[j]
    requires e.id in s'.requests && s'.requests[e.id].Holds() ==> s'.requests[e.id].claimedAt == s'.clock
    ensures after == events + [e] && RunWithinLease(sha, after) && Run(sha, after) == s'
  {
    assert WithinLease(Run(sha, events)) by { assert events[..|events|] == events; }
    LeaseStays(Run(sha, events), s', e.id);
    after := GoTo(sha, events, e, s');
  }

  // ---- First stretch: a review reads, another one sends the release back ----

  /** After the read of the first review and the whole of the second. */
  function SentBackState(s: State, snap: Snapshot): State {
    s.(db := SentBack(s.db, snap.submission, snap.release, s.clock, s.clock),
       requests := s.requests[s.next := ReviewRead(snap, Approval)], next := s.next + 2)
  }

  lemma {:induction false} ReadTwice(sha: Blob -> string, events: seq<Event>, t: SubmissionId)
    returns (after: seq<Event>)
    requires RunWithinLease(sha, events) && MayReview(Run(sha, events).db, t)
    ensures events <= after && RunWithinLease(sha, after)
    ensures var s := Run(sha, events);
      Run(sha, after) == Start(Start(s, ReviewRead(ReadReview(s.db, t), Approval)), ReviewRead(ReadReview(s.db, t), ChangeRequest))
  {
    var one := GoRead(sha, events, StartReview(t, Approval));
    after := GoRead(sha, one, StartReview(t, ChangeRequest));
  }

  /** The state after a claim at this moment. */
  function ClaimState(s: State, id: RequestId): State
    requires id in s.requests && s.requests[id].ReviewRead?
  {
    var snap := s.requests[id].snap;
    Go(s.(db := Claim(s.db, snap.submission, snap.release, s.clock).db), id, Claimed(snap, s.clock, s.requests[id].decision))
  }

  lemma {:induction false} ClaimSucceeds(sha: Blob -> string, events: seq<Event>, id: RequestId)
    requires RunWithinLease(sha, events)
    requires var s := Run(sha, events);
      id in s.requests && s.requests[id].ReviewRead? && SubmissionIs(s.db, s.requests[id].snap.submission, SubPending)
    ensures var s := Run(sha, events);
            var snap := s.requests[id].snap;
            var b := Claim(s.db, snap.submission, snap.release, s.clock);
      b.ok && HoldOk(b.db, snap, s.clock)
  {
    var s := Run(sha, events);
    ReachableIsSound(sha, events);
    ReadIsOk(sha, s, id);
    ClaimAllOrNone(s.db, s.requests[id].snap.submission, s.requests[id].snap.release, s.clock);
    ClaimFacts(s.db, s.requests[id].snap, s.clock);
  }

  lemma {:induction false} ClaimStepIs(sha: Blob -> string, s: State, id: RequestId)
    requires id in s.requests && s.requests[id].ReviewRead?
    requires Claim(s.db, s.requests[id].snap.submission, s.requests[id].snap.release, s.clock).ok
    ensures StepRequest(sha, s, CommitClaim(id, s.clock), id, s.requests[id]) == ClaimState(s, id)
  {
    var snap := s.requests[id].snap;
    ClaimedIs(s, id, Claim(s.db, snap.submission, snap.release, s.clock));
  }

  lemma {:induction false} ClaimedIs(s: State, id: RequestId, b: Batch)
    requires id in s.requests && s.requests[id].ReviewRead? && b.ok
    ensures AfterClaim(s, id, s.requests[id], s.clock, b) == Go(s.(db := b.db), id, Claimed(s.requests[id].snap, s.clock, s.requests[id].decision))
  {
  }

  lemma {:induction false} GoClaim(sha: Blob -> string, events: seq<Event>, id: RequestId) returns (after: seq<Event>)
    requires RunWithinLease(sha, events)
    requires var s := Run(sha, events);
      id in s.requests && s.requests[id].ReviewRead? && SubmissionIs(s.db, s.requests[id].snap.submission, SubPending)
    ensures events <= after && RunWithinLease(sha, after) && Run(sha, after) == ClaimState(Run(sha, events), id)
    ensures HoldOk(Run(sha, after).db, Run(sha, events).requests[id].snap, Run(sha, events).clock)
  {
    var s := Run(sha, events);
    ClaimSucceeds(sha, events, id);
    ClaimStepIs(sha, s, id);
    after := GoStep(sha, events, CommitClaim(id, s.clock), ClaimState(s, id));
  }

  lemma {:induction false} ReturnSucceeds(sha: Blob -> string, events: seq<Event>, id: RequestId)
    requires RunWithinLease(sha, events)
    requires var s := Run(sha, events); id in s.requests && s.requests[id].Claimed? && HoldOk(s.db, s.requests[id].snap, s.clock)
    ensures var s := Run(sha, events);
            var snap := s.requests[id].snap;
      Decide(s.db, false, snap.submission, snap.release, snap.extension, s.clock).ok
  {
    ReachableIsSound(sha, events);
    ChangesFacts(Run(sha, events).db, Run(sha, events).requests[id].snap, Run(sha, events).clock, Run(sha, events).clock);
  }

  lemma {:induction false} ReturnStepIs(sha: Blob -> string, s: State, id: RequestId)
    requires id in s.requests && s.requests[id].Claimed? && s.requests[id].decision.ChangeRequest?
    requires var snap := s.requests[id].snap; Decide(s.db, false, snap.submission, snap.release, snap.extension, s.clock).ok
    ensures var snap := s.requests[id].snap;
      StepRequest(sha, s, CommitDecision(id, s.clock), id, s.requests[id])
      == Done(s.(db := Decide(s.db, false, snap.submission, snap.release, snap.extension, s.clock).db), id)
  {
    var snap := s.requests[id].snap;
    ReturnedIs(s, id, Decide(s.db, false, snap.submission, snap.release, snap.extension, s.clock));
  }

  lemma {:induction false} ReturnedIs(s: State, id: RequestId, b: Batch)
    requires id in s.requests && s.requests[id].Claimed? && b.ok
    ensures AfterDecision(s, id, s.requests[id], b) == Done(s.(db := b.db), id)
  {
  }

  lemma {:induction false} GoReturn(sha: Blob -> string, events: seq<Event>, id: RequestId) returns (after: seq<Event>)
    requires RunWithinLease(sha, events)
    requires var s := Run(sha, events); id in s.requests && s.requests[id].Claimed? && s.requests[id].decision.ChangeRequest?
    requires HoldOk(Run(sha, events).db, Run(sha, events).requests[id].snap, Run(sha, events).clock)
    ensures events <= after && RunWithinLease(sha, after)
    ensures var s := Run(sha, events);
            var snap := s.requests[id].snap;
      Run(sha, after) == Done(s.(db := Decide(s.db, false, snap.submission, snap.release, snap.extension, s.clock).db), id)
  {
    var s := Run(sha, events);
    var snap := s.requests[id].snap;
    ReturnSucceeds(sha, events, id);
    ReturnStepIs(sha, s, id);
    after := GoStep(sha, events, CommitDecision(id, s.clock),
                    Done(s.(db := Decide(s.db, false, snap.submission, snap.release, snap.extension, s.clock).db), id));
  }

  lemma {:induction false} ClaimAndReturn(sha: Blob -> string, events: seq<Event>, id: RequestId)
    returns (after: seq<Event>)
    requires RunWithinLease(sha, events)
    requires var s := Run(sha, events);
      && id in s.requests && s.requests[id].ReviewRead? && s.requests[id].decision.ChangeRequest?
      && SubmissionIs(s.db, s.requests[id].snap.submission, SubPending) && SnapOk(s.db, s.requests[id].snap)
    ensures events <= after && RunWithinLease(sha, after)
    ensures var s := Run(sha, events);
      Run(sha, after) == Done(s.(db := SentBack(s.db, s.requests[id].snap.submission, s.requests[id].snap.release, s.clock, s.clock)), id)
  {
    var claimed := GoClaim(sha, events, id);
    after := GoReturn(sha, claimed, id);
    assert Run(sha, claimed).requests - {id} == Run(sha, events).requests - {id};
  }

  lemma {:induction false} SendBack(sha: Blob -> string, events: seq<Event>, t: SubmissionId)
    returns (after: seq<Event>)
    requires RunWithinLease(sha, events) && SubmissionIs(Run(sha, events).db, t, SubPending)
    ensures MayReview(Run(sha, events).db, t)
    ensures events <= after && RunWithinLease(sha, after)
    ensures Run(sha, after) == SentBackState(Run(sha, events), ReadReview(Run(sha, events).db, t))
  {
    var s := Run(sha, events);
    ReachableIsSound(sha, events);
    NextIsFree(sha, s);
    OnlySubmission(s.db, t, s.db.submissions[t].release);
    var read := ReadTwice(sha, events, t);
    after := ClaimAndReturn(sha, read, s.next + 1);
    SecondIsDone(s, ReviewRead(ReadReview(s.db, t), Approval), ReviewRead(ReadReview(s.db, t), ChangeRequest));
  }

  lemma {:induction false} SecondIsDone(s: State, one: Request, two: Request)
    requires s.next !in s.requests && s.next + 1 !in s.requests
    ensures Start(Start(s, one), two).requests - {s.next + 1} == s.requests[s.next := one]
  {
  }

  // ---- Second stretch: the publisher replaces the package and submits it again ----

  /** The release as it stands is the only one of its version, was sent back, and is above the current one. */
  ghost predicate Returned(s: State, r: ReleaseId, key: ObjectKey) {
    && TablesOk(s.db) && r in s.db.releases && s.db.releases[r].status == Changes && s.db.releases[r].stagingKey == Some(key)
    && IsAbove(s.db, r)
  }

  /** The release is above the one that is current for its extension. */
  predicate IsAbove(db: Database, r: ReleaseId) {
    && r in db.releases
    && var current := CurrentOf(db, db.releases[r].extension);
       current.Some? && current.value in db.releases ==> Gt(db.releases[r].version, db.releases[current.value].version)
  }

  /** An upload for the release that sees its extension as it stands. */
  function UploadFor(s: State, r: ReleaseId, files: string): Upload
    requires r in s.db.releases
  {
    Upload(s.db.releases[r].extension, s.db.releases[r].version, files, CurrentOf(s.db, s.db.releases[r].extension))
  }

  /** After the upload has stored its package under its own key, with the batch still to come. */
  function StoredState(s: State, r: ReleaseId, key: ObjectKey, files: string): State
    requires r in s.db.releases
  {
    var upload := UploadFor(s, r, files);
    s.(store := s.store[StagingKey(upload.extension, r, s.next) := StagedOf(upload)],
       requests := s.requests[s.next := UploadStored(upload, Replace(Existing(r, Some(key))))], next := s.next + 1)
  }

  lemma {:induction false} PlanFindsRow(s: State, id: RequestId, r: ReleaseId, key: ObjectKey, files: string)
    requires Returned(s, r, key)
    ensures PlanUpload(s, id, UploadFor(s, r, files), "") == Go(s, id, UploadPlanned(UploadFor(s, r, files), Replace(Existing(r, Some(key)))))
  {
    var row := s.db.releases[r];
    forall q | q in s.db.releases && s.db.releases[q].extension == row.extension && s.db.releases[q].version == row.version
      ensures q == r
    {
      assert SameSlot(s.db, q, r);
    }
  }

  lemma {:induction false} GoUpload(sha: Blob -> string, events: seq<Event>, r: ReleaseId, key: ObjectKey,
                                    files: string)
    returns (after: seq<Event>)
    requires RunWithinLease(sha, events) && Returned(Run(sha, events), r, key)
    ensures events <= after && RunWithinLease(sha, after)
    ensures var s := Run(sha, events); Run(sha, after) == Go(Start(s, UploadStarted(UploadFor(s, r, files))), s.next, UploadChecked(UploadFor(s, r, files)))
  {
    var s := Run(sha, events);
    var upload := UploadFor(s, r, files);
    assert ReleaseOk(s.db, r);
    assert Opened(s.db, StartUpload(upload.extension, upload.version, files)) == Some(UploadStarted(upload));
    var started := GoRead(sha, events, StartUpload(upload.extension, upload.version, files));
    after := GoStep(sha, started, CheckUploadVersion(s.next), Go(Start(s, UploadStarted(upload)), s.next, UploadChecked(upload)));
  }

  lemma {:induction false} GoPlan(sha: Blob -> string, events: seq<Event>, s: State, r: ReleaseId, key: ObjectKey,
                                  files: string)
    returns (after: seq<Event>)
    requires RunWithinLease(sha, events) && Returned(s, r, key)
    requires Run(sha, events) == Go(Start(s, UploadStarted(UploadFor(s, r, files))), s.next, UploadChecked(UploadFor(s, r, files)))
    ensures events <= after && RunWithinLease(sha, after)
    ensures Run(sha, after) == Go(Run(sha, events), s.next, UploadPlanned(UploadFor(s, r, files), Replace(Existing(r, Some(key)))))
  {
    var s2 := Run(sha, events);
    PlanFindsRow(s2, s.next, r, key, files);
    after := GoStep(sha, events, ReadExisting(s.next, ""), Go(s2, s.next, UploadPlanned(UploadFor(s, r, files), Replace(Existing(r, Some(key))))));
  }

  lemma {:induction false} StorePackage(sha: Blob -> string, events: seq<Event>, r: ReleaseId, key: ObjectKey,
                                        files: string)
    returns (after: seq<Event>)
    requires RunWithinLease(sha, events) && Returned(Run(sha, events), r, key)
    ensures events <= after && RunWithinLease(sha, after)
    ensures Run(sha, after) == StoredState(Run(sha, events), r, key, files)
  {
    var s := Run(sha, events);
    var checked := GoUpload(sha, events, r, key, files);
    var planned := GoPlan(sha, checked, s, r, key, files);
    after := PutStored(sha, planned, Run(sha, checked), s.next, UploadFor(s, r, files), Replace(Existing(r, Some(key))));
    StoredStateIs(s, r, key, files);
  }

  lemma {:induction false} StoredStateIs(s: State, r: ReleaseId, key: ObjectKey, files: string)
    requires r in s.db.releases
    ensures var upload := UploadFor(s, r, files);
      StoredState(s, r, key, files)
      == Go(Go(Start(s, UploadStarted(upload)), s.next, UploadChecked(upload))
              .(store := s.store[StagingKey(upload.extension, r, s.next) := StagedOf(upload)]),
            s.next, UploadStored(upload, Replace(Existing(r, Some(key)))))
  {
    var upload := UploadFor(s, r, files);
    var stored := UploadStored(upload, Replace(Existing(r, Some(key))));
    assert s.requests[s.next := UploadStarted(upload)][s.next := UploadChecked(upload)][s.next := stored] == s.requests[s.next := stored];
  }

  lemma {:induction false} PutStored(sha: Blob -> string, events: seq<Event>, s: State, id: RequestId,
                                     upload: Upload, plan: Plan)
    returns (after: seq<Event>)
    requires RunWithinLease(sha, events) && Run(sha, events) == Go(s, id, UploadPlanned(upload, plan))
    ensures events <= after && RunWithinLease(sha, after)
    ensures Run(sha, after) == Go(s.(store := s.store[StagingKey(upload.extension, PlannedRelease(plan), id) := StagedOf(upload)]),
                                  id, UploadStored(upload, plan))
  {
    var s1 := Run(sha, events);
    var s2 := PutStagingStep(s1, id, s1.requests[id]);
    assert s1.requests[id := UploadStored(upload, plan)] == s.requests[id := UploadStored(upload, plan)];
    after := GoStep(sha, events, PutStaging(id), s2);
  }

  lemma {:induction false} GoReplace(sha: Blob -> string, events: seq<Event>, id: RequestId, key: ObjectKey)
    returns (after: seq<Event>)
    requires RunWithinLease(sha, events)
    requires var s := Run(sha, events);
      && id in s.requests && s.requests[id].UploadStored? && s.requests[id].plan.Replace?
      && s.requests[id].plan.existing.stagingKey == Some(key) && UploadBatch(s, id, s.requests[id]).ok
    ensures events <= after && RunWithinLease(sha, after)
    ensures var s := Run(sha, events);
      Run(sha, after) == Go(s.(db := UploadBatch(s, id, s.requests[id]).db), id, StagingCleanup(key))
  {
    var s := Run(sha, events);
    ReplaceStepIs(s, id, key, UploadBatch(s, id, s.requests[id]));
    after := GoStep(sha, events, CommitUpload(id), Go(s.(db := UploadBatch(s, id, s.requests[id]).db), id, StagingCleanup(key)));
  }

  lemma {:induction false} ReplaceStepIs(s: State, id: RequestId, key: ObjectKey, b: Batch)
    requires id in s.requests && s.requests[id].UploadStored? && s.requests[id].plan.Replace?
    requires s.requests[id].plan.existing.stagingKey == Some(key) && b.ok
    ensures AfterUpload(s, id, s.requests[id], b) == Go(s.(db := b.db), id, StagingCleanup(key))
  {
  }

  lemma {:induction false} GoSubmit(sha: Blob -> string, events: seq<Event>, r: ReleaseId, key: ObjectKey)
    returns (after: seq<Event>)
    requires RunWithinLease(sha, events)
    requires var db := Run(sha, events).db;
      r in db.releases && db.releases[r].stagingKey == Some(key) && Resubmittable(db.releases[r].status)
    ensures events <= after && RunWithinLease(sha, after)
    ensures var s := Run(sha, events);
            var extension := s.db.releases[r].extension;
      Run(sha, after) == s.(db := Submit(s.db, r, extension, key, CurrentOf(s.db, extension), "", s.clock).db, next := s.next + 1)
  {
    var s := Run(sha, events);
    var request := SubmitRead(r, s.db.releases[r].extension, key, CurrentOf(s.db, s.db.releases[r].extension));
    ReachableIsSound(sha, events);
    NextIsFree(sha, s);
    assert Opened(s.db, StartSubmit(r)) == Some(request);
    var read := GoRead(sha, events, StartSubmit(r));
    SubmitStepIs(sha, s, request);
    after := GoStep(sha, read, CommitSubmit(s.next, "", s.clock), SubmitStep(Start(s, request), s.next, request, "", s.clock));
  }

  lemma {:induction false} SubmitStepIs(sha: Blob -> string, s: State, request: Request)
    requires request.SubmitRead? && s.next !in s.requests
    ensures var s1 := Start(s, request);
            var s2 := SubmitStep(s1, s.next, request, "", s.clock);
      && s2 == StepRequest(sha, s1, CommitSubmit(s.next, "", s.clock), s.next, request)
      && s2 == s.(db := Submit(s.db, request.release, request.extension, request.seenKey, request.seenCurrent, "", s.clock).db, next := s.next + 1)
  {
    assert Start(s, request).requests - {s.next} == s.requests;
  }

  /** The release as a draft with the package that replaced the one the review read. */
  function DraftOf(row: Release, own: ObjectKey): Release {
    row.(stagingKey := Some(own), status := Draft, submittedAt := None)
  }

  /** After the upload's batch: the release is a draft with the new key. */
  lemma {:induction false} Replaced(sha: Blob -> string, events: seq<Event>, t: SubmissionId, r: ReleaseId,
                                    release: Release, key: ObjectKey, files: string)
    returns (after: seq<Event>)
    requires RunWithinLease(sha, events) && Returned(Run(sha, events), r, key)
    requires Stands(Run(sha, events).db, t, r, release, SubChanges)
    ensures events <= after && RunWithinLease(sha, after)
    ensures var s := Run(sha, events);
            var s' := Run(sha, after);
            var own := StagingKey(release.extension, r, s.next);
      && Stands(s'.db, t, r, DraftOf(release, own), SubChanges)
      && CurrentOf(s'.db, release.extension) == CurrentOf(s.db, release.extension)
      && s'.store == s.store[own := StagedOf(UploadFor(s, r, files))]
      && s'.requests == s.requests[s.next := StagingCleanup(key)] && s'.next == s.next + 1
  {
    var s := Run(sha, events);
    var own := StagingKey(release.extension, r, s.next);
    KeyIsNew(sha, events, r);
    BatchStands(s, t, r, release, key, files);
    var stored := StorePackage(sha, events, r, key, files);
    after := ReplaceStored(sha, stored, s, r, key, files);
  }

  lemma {:induction false} ReplaceStored(sha: Blob -> string, events: seq<Event>, s: State, r: ReleaseId,
                                         key: ObjectKey, files: string)
    returns (after: seq<Event>)
    requires r in s.db.releases && RunWithinLease(sha, events) && Run(sha, events) == StoredState(s, r, key, files)
    requires var upload := UploadFor(s, r, files);
      ReplaceRelease(s.db, r, StagingKey(upload.extension, r, s.next), Some(key), upload.seenCurrent, s.clock).ok
    ensures events <= after && RunWithinLease(sha, after)
    ensures var upload := UploadFor(s, r, files);
            var s' := Run(sha, after);
      && s'.db == ReplaceRelease(s.db, r, StagingKey(upload.extension, r, s.next), Some(key), upload.seenCurrent, s.clock).db
      && s'.store == Run(sha, events).store
      && s'.requests == s.requests[s.next := StagingCleanup(key)] && s'.next == s.next + 1
  {
    StoredBatch(s, r, key, files);
    after := GoReplace(sha, events, s.next, key);
    assert Run(sha, events).requests[s.next := StagingCleanup(key)] == s.requests[s.next := StagingCleanup(key)];
  }

  lemma {:induction false} BatchStands(s: State, t: SubmissionId, r: ReleaseId, release: Release, key: ObjectKey,
                                       files: string)
    requires Stands(s.db, t, r, release, SubChanges) && release.status == Changes && release.stagingKey == Some(key)
    requires Some(key) != Some(StagingKey(release.extension, r, s.next))
    ensures var upload := UploadFor(s, r, files);
            var own := StagingKey(release.extension, r, s.next);
            var b := ReplaceRelease(s.db, r, own, Some(key), upload.seenCurrent, s.clock);
      && b.ok && Stands(b.db, t, r, release.(stagingKey := Some(own), status := Draft, submittedAt := None), SubChanges)
      && CurrentOf(b.db, release.extension) == CurrentOf(s.db, release.extension)
  {
    ReplacedStands(s.db, t, r, release, StagingKey(release.extension, r, s.next), s.clock);
  }

  lemma {:induction false} StoredBatch(s: State, r: ReleaseId, key: ObjectKey, files: string)
    requires r in s.db.releases
    ensures var s' := StoredState(s, r, key, files);
            var upload := UploadFor(s, r, files);
      && s.next in s'.requests && s'.requests[s.next] == UploadStored(upload, Replace(Existing(r, Some(key))))
      && UploadBatch(s', s.next, s'.requests[s.next])
         == ReplaceRelease(s.db, r, StagingKey(upload.extension, r, s.next), Some(key), upload.seenCurrent, s.clock)
  {
  }

  lemma {:induction false} KeyIsNew(sha: Blob -> string, events: seq<Event>, r: ReleaseId)
    requires RunWithinLease(sha, events) && r in Run(sha, events).db.releases
    ensures var s := Run(sha, events); s.db.releases[r].stagingKey != Some(StagingKey(s.db.releases[r].extension, r, s.next))
  {
    ReachableIsSound(sha, events);
    assert KeyIssued(Run(sha, events).db.releases[r], Run(sha, events).next);
  }

  // ---- Third stretch: the first review claims and approves ----

  /** The review checks the version and builds. */
  lemma {:induction false} GoBuilt(sha: Blob -> string, events: seq<Event>, id: RequestId, signature: string)
    returns (after: seq<Event>)
    requires RunWithinLease(sha, events)
    requires var s := Run(sha, events);
      && id in s.requests && s.requests[id].Claimed? && s.requests[id].decision.Approval? && s.requests[id].claimedAt == s.clock
      && MayApprove(s.db, s.requests[id].snap) && StagedFor(s, s.requests[id].snap)
    ensures events <= after && RunWithinLease(sha, after)
    ensures var s := Run(sha, events);
            var snap := s.requests[id].snap;
      Run(sha, after) == Go(s, id, Built(snap, s.clock, OfficialFor(s, snap, signature), s.clock))
  {
    var s := Run(sha, events);
    var snap := s.requests[id].snap;
    var s1 := Go(s, id, VersionChecked(snap, s.clock));
    var s2 := Go(s, id, Built(snap, s.clock, OfficialFor(s, snap, signature), s.clock));
    assert Go(s1, id, s2.requests[id]) == s2;
    var checked := GoStep(sha, events, CheckApproval(id), s1);
    after := GoStep(sha, checked, BuildPackage(id, signature), s2);
  }

  lemma {:induction false} GoStored(sha: Blob -> string, events: seq<Event>, id: RequestId, signature: string)
    returns (after: seq<Event>)
    requires RunWithinLease(sha, events)
    requires var s := Run(sha, events);
      && id in s.requests && s.requests[id].Claimed? && s.requests[id].decision.Approval? && s.requests[id].claimedAt == s.clock
      && MayApprove(s.db, s.requests[id].snap) && StagedFor(s, s.requests[id].snap)
    ensures events <= after && RunWithinLease(sha, after)
    ensures var s := Run(sha, events); Run(sha, after) == PackageState(sha, s, id, s.requests[id], signature)
  {
    var s := Run(sha, events);
    var built := GoBuilt(sha, events, id, signature);
    PackageStateIs(sha, s, id, s.requests[id], signature);
    after := GoStep(sha, built, PutPackage(id), PackageState(sha, s, id, s.requests[id], signature));
  }

  lemma {:induction false} PackageStateIs(sha: Blob -> string, s: State, id: RequestId, request: Request,
                                          signature: string)
    requires request.Claimed? && StagedFor(s, request.snap)
    ensures var built := Built(request.snap, s.clock, OfficialFor(s, request.snap, signature), s.clock);
      PutPackageStep(sha, Go(s, id, built), id, built) == PackageState(sha, s, id, request, signature)
  {
    var official := OfficialFor(s, request.snap, signature);
    var stored := Stored(request.snap, s.clock, official, s.clock);
    assert Go(s, id, Built(request.snap, s.clock, official, s.clock)).requests[id := stored] == s.requests[id := stored];
  }

  function OfficialFor(s: State, snap: Snapshot, signature: string): Blob
    requires StagedFor(s, snap)
  {
    Official(snap.extension, snap.version, s.store[snap.stagingKey.value].files, signature)
  }

  function PackageState(sha: Blob -> string, s: State, id: RequestId, request: Request, signature: string): State
    requires request.Claimed? && StagedFor(s, request.snap)
  {
    var official := OfficialFor(s, request.snap, signature);
    Go(s.(store := s.store[PackageKeyOf(sha, request.snap, official) := official]),
       id, Stored(request.snap, s.clock, official, s.clock))
  }

  lemma {:induction false} GoPublish(sha: Blob -> string, events: seq<Event>, id: RequestId) returns (after: seq<Event>)
    requires RunWithinLease(sha, events)
    requires var s := Run(sha, events);
      id in s.requests && s.requests[id].Stored? && CurrentOf(s.db, s.requests[id].snap.extension) == s.requests[id].snap.current
    ensures events <= after && RunWithinLease(sha, after)
    ensures var s := Run(sha, events);
            var s' := Run(sha, after);
            var q := s.requests[id];
      && s'.store == s.store && q.snap.release in s.db.releases && ReleaseIs(s'.db, q.snap.release, Published)
      && s'.db.releases[q.snap.release].stagingKey == s.db.releases[q.snap.release].stagingKey
      && s'.db.releases[q.snap.release].artifact == Some(ArtifactFor(sha, q.snap, q.official, q.publishedAt))
  {
    var s := Run(sha, events);
    var q := s.requests[id];
    ReachableIsSound(sha, events);
    HolderStands(sha, s, id);
    assert ReleaseOk(s.db, q.snap.release);
    OnlySubmission(s.db, q.snap.submission, q.snap.release);
    ApproveAllOrNone(s.db, q.snap.submission, q.snap.release, q.snap.extension, q.snap.current,
                     ArtifactFor(sha, q.snap, q.official, q.publishedAt), q.publishedAt);
    after := GoCommit(sha, events, id, ApprovalBatch(sha, s, q));
  }

  lemma {:induction false} GoCommit(sha: Blob -> string, events: seq<Event>, id: RequestId, b: Batch)
    returns (after: seq<Event>)
    requires RunWithinLease(sha, events)
    requires var s := Run(sha, events); id in s.requests && s.requests[id].Stored? && b == ApprovalBatch(sha, s, s.requests[id]) && b.ok
    ensures events <= after && RunWithinLease(sha, after)
    ensures Run(sha, after).db == b.db && Run(sha, after).store == Run(sha, events).store
  {
    var s := Run(sha, events);
    after := GoStep(sha, events, CommitApproval(id), AfterApproval(s, id, s.requests[id], b));
  }

  // ---- The whole run ----

  lemma {:induction false} AboveStays(sha: Blob -> string, events: seq<Event>, after: seq<Event>, r: ReleaseId)
    requires RunWithinLease(sha, after) && events <= after && r in Run(sha, events).db.releases && IsAbove(Run(sha, events).db, r)
    requires var e := Run(sha, events).db.releases[r].extension; CurrentOf(Run(sha, after).db, e) == CurrentOf(Run(sha, events).db, e)
    ensures IsAbove(Run(sha, after).db, r)
    ensures var a, b := Run(sha, events).db.releases[r], Run(sha, after).db.releases[r]; b.extension == a.extension && b.version == a.version
  {
    assert after[..|events|] == events && after[..|after|] == after;
    StatesEvolve(sha, after, |events|, |after|);
    var a, b := Run(sha, events).db, Run(sha, after).db;
    assert ReleaseEvolves(a, b, r);
    var current := CurrentOf(a, a.releases[r].extension);
    if current.Some? {
      assert ListingOk(a, a.releases[r].extension) && ReleaseEvolves(a, b, current.value);
    }
  }

  /** What the first review stands before when it claims: its submission is pending again, the release names
      another key, and both objects are stored. */
  ghost predicate Stale(s: State, s': State, t: SubmissionId, id: RequestId, key: ObjectKey, own: ObjectKey, files: string)
    requires MayReview(s.db, t)
  {
    var snap := ReadReview(s.db, t);
    && id in s'.requests && s'.requests[id] == ReviewRead(snap, Approval)
    && SubmissionIs(s'.db, t, SubPending)
    && KeyNamed(s'.db, snap.release) == Some(own) && own.StagingKey? && own in s'.store && s'.store[own].files == files
    && key in s'.store && key in s.store && s'.store[key] == s.store[key]
    && CurrentOf(s'.db, snap.extension) == snap.current
  }

  lemma {:induction false} PendingRow(sha: Blob -> string, events: seq<Event>, t: SubmissionId)
    requires RunWithinLease(sha, events) && SubmissionIs(Run(sha, events).db, t, SubPending)
    ensures MayReview(Run(sha, events).db, t)
    ensures var db := Run(sha, events).db;
            var r := db.submissions[t].release;
      Stands(db, t, r, db.releases[r], SubPending) && Run(sha, events).next !in Run(sha, events).requests
  {
    ReachableIsSound(sha, events);
    var db := Run(sha, events).db;
    OnlySubmission(db, t, db.submissions[t].release);
    NextIsFree(sha, Run(sha, events));
  }

  /** The release is sent back while the first review waits. */
  lemma {:induction false} SentBackIsReturned(sha: Blob -> string, events: seq<Event>, t: SubmissionId, r: ReleaseId,
                                              row: Release)
    returns (after: seq<Event>)
    requires RunWithinLease(sha, events) && SubmissionIs(Run(sha, events).db, t, SubPending)
    requires var db := Run(sha, events).db; r == db.submissions[t].release && r in db.releases && row == db.releases[r] && IsAbove(db, r)
    requires row.stagingKey.Some?
    ensures MayReview(Run(sha, events).db, t) && events <= after && RunWithinLease(sha, after)
    ensures var s, s' := Run(sha, events), Run(sha, after);
      && s'.store == s.store && s'.next == s.next + 2
      && s'.requests == s.requests[s.next := ReviewRead(ReadReview(s.db, t), Approval)]
      && CurrentOf(s'.db, row.extension) == CurrentOf(s.db, row.extension)
    ensures Returned(Run(sha, after), r, row.stagingKey.value)
    ensures Stands(Run(sha, after).db, t, r, row.(status := Changes), SubChanges)
  {
    var s := Run(sha, events);
    PendingRow(sha, events, t);
    after := SendBack(sha, events, t);
    SentBackStands(s.db, t, r, row, s.clock, s.clock);
    AboveStays(sha, events, after, r);
  }

  /** Between the read of the first review and its claim the publisher replaces the package. */
  ghost predicate Meanwhile(s: State, s': State, t: SubmissionId, r: ReleaseId, row: Release, own: ObjectKey, files: string)
    requires MayReview(s.db, t)
  {
    && Stands(s'.db, t, r, DraftOf(row, own), SubChanges)
    && CurrentOf(s'.db, row.extension) == CurrentOf(s.db, row.extension)
    && own in s'.store && s'.store == s.store[own := s'.store[own]] && s'.store[own].files == files
    && row.stagingKey.Some?
    && s'.requests == s.requests[s.next := ReviewRead(ReadReview(s.db, t), Approval)][s.next + 2 := StagingCleanup(row.stagingKey.value)]
  }

  lemma {:induction false} IsMeanwhile(s: State, back: State, s': State, t: SubmissionId, r: ReleaseId, row: Release,
                                       own: ObjectKey, files: string)
    requires MayReview(s.db, t) && row.stagingKey.Some?
    requires back.store == s.store && back.next == s.next + 2
    requires back.requests == s.requests[s.next := ReviewRead(ReadReview(s.db, t), Approval)]
    requires Stands(s'.db, t, r, DraftOf(row, own), SubChanges)
    requires CurrentOf(s'.db, row.extension) == CurrentOf(s.db, row.extension)
    requires own in s'.store && s'.store == back.store[own := s'.store[own]] && s'.store[own].files == files
    requires s'.requests == back.requests[back.next := StagingCleanup(row.stagingKey.value)]
    ensures Meanwhile(s, s', t, r, row, own, files)
  {
  }

  lemma {:induction false} ReplacedMeanwhile(sha: Blob -> string, events: seq<Event>, t: SubmissionId, files: string)
    returns (after: seq<Event>)
    requires RunWithinLease(sha, events) && SubmissionIs(Run(sha, events).db, t, SubPending)
    requires var db := Run(sha, events).db;
      var r := db.submissions[t].release; r in db.releases && IsAbove(db, r) && db.releases[r].stagingKey.Some?
    ensures MayReview(Run(sha, events).db, t) && events <= after && RunWithinLease(sha, after)
    ensures var s := Run(sha, events);
            var r := s.db.submissions[t].release;
            var row := s.db.releases[r];
      Meanwhile(s, Run(sha, after), t, r, row, StagingKey(row.extension, r, s.next + 2), files)
  {
    var s := Run(sha, events);
    var r := s.db.submissions[t].release;
    var row := s.db.releases[r];
    var own := StagingKey(row.extension, r, s.next + 2);
    var back := SentBackIsReturned(sha, events, t, r, row);
    after := ReplacedThen(sha, back, s, t, r, row, files);
  }

  lemma {:induction false} ReplacedThen(sha: Blob -> string, events: seq<Event>, s: State, t: SubmissionId,
                                        r: ReleaseId, row: Release, files: string)
    returns (after: seq<Event>)
    requires RunWithinLease(sha, events) && MayReview(s.db, t) && row.stagingKey.Some?
    requires Returned(Run(sha, events), r, row.stagingKey.value) && Stands(Run(sha, events).db, t, r, row.(status := Changes), SubChanges)
    requires Run(sha, events).store == s.store && Run(sha, events).next == s.next + 2
    requires Run(sha, events).requests == s.requests[s.next := ReviewRead(ReadReview(s.db, t), Approval)]
    requires CurrentOf(Run(sha, events).db, row.extension) == CurrentOf(s.db, row.extension)
    ensures events <= after && RunWithinLease(sha, after)
    ensures Meanwhile(s, Run(sha, after), t, r, row, StagingKey(row.extension, r, s.next + 2), files)
  {
    var own := StagingKey(row.extension, r, s.next + 2);
    after := Replaced(sha, events, t, r, row.(status := Changes), row.stagingKey.value, files);
    assert DraftOf(row.(status := Changes), own) == DraftOf(row, own);
    IsMeanwhile(s, Run(sha, events), Run(sha, after), t, r, row, own, files);
  }

  lemma {:induction false} Resubmitted(sha: Blob -> string, events: seq<Event>, t: SubmissionId, r: ReleaseId,
                                       draft: Release, own: ObjectKey)
    returns (after: seq<Event>)
    requires RunWithinLease(sha, events) && Stands(Run(sha, events).db, t, r, draft, SubChanges)
    requires draft.status == Draft && draft.stagingKey == Some(own)
    ensures events <= after && RunWithinLease(sha, after)
    ensures var s, s' := Run(sha, events), Run(sha, after);
      && SubmissionIs(s'.db, t, SubPending) && KeyNamed(s'.db, r) == Some(own)
      && CurrentOf(s'.db, draft.extension) == CurrentOf(s.db, draft.extension)
      && s'.store == s.store && s'.requests == s.requests
  {
    var s := Run(sha, events);
    ResubmittedStands(s.db, t, r, draft, own, "", s.clock);
    after := GoSubmit(sha, events, r, own);
  }

  /** The publisher replaces the package and submits the release again, all before the first review claims. */
  lemma {:induction false} BecomesStale(sha: Blob -> string, events: seq<Event>, t: SubmissionId, files: string)
    returns (after: seq<Event>)
    requires RunWithinLease(sha, events) && SubmissionIs(Run(sha, events).db, t, SubPending)
    requires var s := Run(sha, events);
             var r := s.db.submissions[t].release;
      && r in s.db.releases && IsAbove(s.db, r)
      && s.db.releases[r].stagingKey.Some? && s.db.releases[r].stagingKey.value in s.store
    ensures MayReview(Run(sha, events).db, t) && events <= after && RunWithinLease(sha, after)
    ensures var s := Run(sha, events);
            var row := s.db.releases[s.db.submissions[t].release];
      Stale(s, Run(sha, after), t, s.next, row.stagingKey.value, StagingKey(row.extension, s.db.submissions[t].release, s.next + 2), files)
  {
    var s := Run(sha, events);
    var r := s.db.submissions[t].release;
    var own := StagingKey(s.db.releases[r].extension, r, s.next + 2);
    KeyIsOlder(sha, events, r);
    after := StaleFrom(sha, events, s, t, r, s.db.releases[r], own, files);
  }

  lemma {:induction false} StaleFrom(sha: Blob -> string, events: seq<Event>, s: State, t: SubmissionId,
                                     r: ReleaseId, row: Release, own: ObjectKey,
                                     files: string) returns (after: seq<Event>)
    requires RunWithinLease(sha, events) && s == Run(sha, events) && SubmissionIs(s.db, t, SubPending)
    requires r == s.db.submissions[t].release && r in s.db.releases && row == s.db.releases[r] && IsAbove(s.db, r)
    requires row.stagingKey.Some? && row.stagingKey.value in s.store && Some(own) != row.stagingKey
    requires own == StagingKey(row.extension, r, s.next + 2)
    ensures MayReview(s.db, t) && events <= after && RunWithinLease(sha, after)
    ensures Stale(s, Run(sha, after), t, s.next, row.stagingKey.value, own, files)
  {
    var replaced := ReplacedMeanwhile(sha, events, t, files);
    after := SubmittedAgain(sha, replaced, s, t, r, row, own, files);
  }

  lemma {:induction false} SubmittedAgain(sha: Blob -> string, events: seq<Event>, s: State, t: SubmissionId,
                                          r: ReleaseId, row: Release, own: ObjectKey,
                                          files: string) returns (after: seq<Event>)
    requires RunWithinLease(sha, events) && MayReview(s.db, t) && r == s.db.submissions[t].release && row == s.db.releases[r]
    requires Meanwhile(s, Run(sha, events), t, r, row, own, files)
    requires row.stagingKey.value in s.store && own.StagingKey? && Some(own) != row.stagingKey
    ensures events <= after && RunWithinLease(sha, after)
    ensures Stale(s, Run(sha, after), t, s.next, row.stagingKey.value, own, files)
  {
    after := Resubmitted(sha, events, t, r, DraftOf(row, own), own);
    BecameStale(s, Run(sha, events), Run(sha, after), t, r, row, own, files);
  }

  lemma {:induction false} BecameStale(s: State, replaced: State, s': State, t: SubmissionId, r: ReleaseId,
                                       row: Release, own: ObjectKey, files: string)
    requires MayReview(s.db, t) && r == s.db.submissions[t].release && row == s.db.releases[r]
    requires Meanwhile(s, replaced, t, r, row, own, files)
    requires row.stagingKey.value in s.store && own.StagingKey? && Some(own) != row.stagingKey
    requires SubmissionIs(s'.db, t, SubPending) && KeyNamed(s'.db, r) == Some(own)
    requires CurrentOf(s'.db, row.extension) == CurrentOf(replaced.db, row.extension)
    requires s'.store == replaced.store && s'.requests == replaced.requests
    ensures Stale(s, s', t, s.next, row.stagingKey.value, own, files)
  {
  }

  lemma {:induction false} KeyIsOlder(sha: Blob -> string, events: seq<Event>, r: ReleaseId)
    requires RunWithinLease(sha, events) && r in Run(sha, events).db.releases
    ensures var s := Run(sha, events); s.db.releases[r].stagingKey != Some(StagingKey(s.db.releases[r].extension, r, s.next + 2))
  {
    ReachableIsSound(sha, events);
    assert KeyIssued(Run(sha, events).db.releases[r], Run(sha, events).next);
  }

  lemma {:induction false} ClaimKeepsRow(db: Database, snap: Snapshot, at: nat)
    ensures var db' := Claim(db, snap.submission, snap.release, at).db;
      && KeyNamed(db', snap.release) == KeyNamed(db, snap.release) && (forall e :: CurrentOf(db', e) == CurrentOf(db, e))
  {
  }

  lemma {:induction false} MayStillApprove(sha: Blob -> string, events: seq<Event>, claimed: seq<Event>, id: RequestId)
    requires RunWithinLease(sha, claimed) && events <= claimed
    requires var s := Run(sha, events);
      && id in s.requests && s.requests[id].ReviewRead? && Run(sha, claimed) == ClaimState(s, id)
      && var snap := s.requests[id].snap;
         && CurrentOf(s.db, snap.extension) == snap.current && CurrentOf(Run(sha, claimed).db, snap.extension) == snap.current
         && snap.release in s.db.releases && IsAbove(s.db, snap.release) && HoldOk(Run(sha, claimed).db, snap, s.clock)
    ensures MayApprove(Run(sha, claimed).db, Run(sha, events).requests[id].snap)
  {
    var snap := Run(sha, events).requests[id].snap;
    var db := Run(sha, claimed).db;
    assert claimed[..|events|] == events && claimed[..|claimed|] == claimed;
    StatesEvolve(sha, claimed, |events|, |claimed|);
    assert ReleaseEvolves(Run(sha, events).db, db, snap.release);
    AboveStays(sha, events, claimed, snap.release);
    if snap.current.Some? {
      assert ListingOk(db, snap.extension);
    }
  }

  /** The review that read before claims now, and its approval goes through. */
  lemma {:induction false} StaleApproval(sha: Blob -> string, events: seq<Event>, id: RequestId, signature: string)
    returns (after: seq<Event>)
    requires RunWithinLease(sha, events)
    requires var s := Run(sha, events);
      && id in s.requests && s.requests[id].ReviewRead? && s.requests[id].decision.Approval?
      && var snap := s.requests[id].snap;
         && SubmissionIs(s.db, snap.submission, SubPending) && CurrentOf(s.db, snap.extension) == snap.current
         && snap.release in s.db.releases && IsAbove(s.db, snap.release) && StagedFor(s, snap)
    ensures events <= after && RunWithinLease(sha, after)
    ensures var s := Run(sha, events);
            var s' := Run(sha, after);
            var snap := s.requests[id].snap;
      && ReleaseIs(s'.db, snap.release, Published) && KeyNamed(s'.db, snap.release) == KeyNamed(s.db, snap.release)
      && var artifact := s'.db.releases[snap.release].artifact;
         && artifact.Some? && artifact.value.packageKey in s'.store
         && s'.store[artifact.value.packageKey].files == s.store[snap.stagingKey.value].files
    ensures var s, s' := Run(sha, events), Run(sha, after);
      forall k :: k in s.store && k.StagingKey? ==> k in s'.store && s'.store[k] == s.store[k]
  {
    var s := Run(sha, events);
    var claimed := GoClaim(sha, events, id);
    ClaimKeepsRow(s.db, s.requests[id].snap, s.clock);
    MayStillApprove(sha, events, claimed, id);
    var stored := GoStored(sha, claimed, id, signature);
    after := GoPublish(sha, stored, id);
  }

  lemma {:induction false} StagedFits(sha: Blob -> string, events: seq<Event>, t: SubmissionId)
    requires RunWithinLease(sha, events) && MayReview(Run(sha, events).db, t)
    requires var s := Run(sha, events);
      var key := ReadReview(s.db, t).stagingKey; key.Some? && key.value in s.store
    ensures StagedFor(Run(sha, events), ReadReview(Run(sha, events).db, t))
  {
    var s := Run(sha, events);
    ReachableIsSound(sha, events);
    ReachableIsTraced(sha, events);
    var r := s.db.submissions[t].release;
    assert RowTraced(TrailOf(sha, events).written, s.db.releases[r]) && KeyIssued(s.db.releases[r], s.next);
    assert StoreTraced(s.store, TrailOf(sha, events).written);
  }

  lemma {:induction false} StaleIsStaged(s: State, s': State, t: SubmissionId, id: RequestId, key: ObjectKey,
                                         own: ObjectKey, files: string)
    requires MayReview(s.db, t) && Stale(s, s', t, id, key, own, files)
    requires StagedFor(s, ReadReview(s.db, t)) && ReadReview(s.db, t).stagingKey == Some(key)
    ensures StagedFor(s', ReadReview(s.db, t))
  {
  }

  /** From every reachable state in which a release above the current one is pending and its package is
      stored, and for any files, the run can go on so that the release is published with the package that
      is stored now while it names another one, with those files. */
  lemma {:induction false} StaleFilesArePublished(sha: Blob -> string, events: seq<Event>, t: SubmissionId,
                                                  files: string, signature: string)
    returns (after: seq<Event>)
    requires RunWithinLease(sha, events) && SubmissionIs(Run(sha, events).db, t, SubPending)
    requires var s := Run(sha, events);
             var r := s.db.submissions[t].release;
      && r in s.db.releases && IsAbove(s.db, r)
      && s.db.releases[r].stagingKey.Some? && s.db.releases[r].stagingKey.value in s.store
    ensures events <= after && RunWithinLease(sha, after)
    ensures var s, s' := Run(sha, events), Run(sha, after);
            var r := s.db.submissions[t].release;
      && ReleaseIs(s'.db, r, Published)
      && var row := s'.db.releases[r];
         && row.stagingKey.Some? && row.stagingKey.value in s'.store && s'.store[row.stagingKey.value].files == files
         && row.artifact.Some? && row.artifact.value.packageKey in s'.store
         && s'.store[row.artifact.value.packageKey].files == s.store[s.db.releases[r].stagingKey.value].files
  {
    var s := Run(sha, events);
    var r := s.db.submissions[t].release;
    var row := s.db.releases[r];
    var own := StagingKey(row.extension, r, s.next + 2);
    var stale := BecomesStale(sha, events, t, files);
    StagedFits(sha, events, t);
    StaleIsStaged(s, Run(sha, stale), t, s.next, row.stagingKey.value, own, files);
    AboveStays(sha, events, stale, r);
    after := StaleApproval(sha, stale, s.next, signature);
  }

  // ---- Such a state is reached from the start ----

  /** The tables after the first upload. */
  function DraftTables(e: ExtensionId, r: ReleaseId, version: Version): Database {
    Database(map[e := Listing(ListingDraft, None)],
             map[r := Release(e, version, Some(StagingKey(e, r, 0)), None, Draft, None)], map[])
  }

  function DraftState(e: ExtensionId, r: ReleaseId, version: Version, files: string): State {
    State(DraftTables(e, r, version), map[StagingKey(e, r, 0) := Staged(e, version, files)], map[], 1, 0)
  }

  /** An extension without releases, and the first upload to it. */
  function FirstState(e: ExtensionId, request: Request): State {
    State(Database(map[e := Listing(ListingDraft, None)], map[], map[]), map[], map[0 := request], 1, 0)
  }

  function ListedState(e: ExtensionId): State {
    State(Database(map[e := Listing(ListingDraft, None)], map[], map[]), map[], map[], 0, 0)
  }

  lemma {:induction false} GoListed(sha: Blob -> string, e: ExtensionId) returns (events: seq<Event>)
    ensures RunWithinLease(sha, events) && Run(sha, events) == ListedState(e)
  {
    assert Run(sha, []) == INITIAL && RunWithinLease(sha, []);
    assert Apply(sha, INITIAL, CreateExtension(e)) == ListedState(e);
    events := GoTo(sha, [], CreateExtension(e), ListedState(e));
  }

  lemma {:induction false} GoStarted(sha: Blob -> string, events: seq<Event>, e: ExtensionId, version: Version,
                                     files: string)
    returns (after: seq<Event>)
    requires RunWithinLease(sha, events) && Run(sha, events) == ListedState(e)
    ensures RunWithinLease(sha, after) && Run(sha, after) == FirstState(e, UploadStarted(Upload(e, version, files, None)))
  {
    assert Opened(ListedState(e).db, StartUpload(e, version, files)) == Some(UploadStarted(Upload(e, version, files, None)));
    after := GoRead(sha, events, StartUpload(e, version, files));
  }

  /** The steps of the first upload on the tables it finds. */
  lemma {:induction false} FirstSteps(sha: Blob -> string, e: ExtensionId, r: ReleaseId, upload: Upload)
    requires upload.extension == e
    ensures StepRequest(sha, FirstState(e, UploadStarted(upload)), CheckUploadVersion(0), 0, UploadStarted(upload))
         == FirstState(e, UploadChecked(upload))
    ensures StepRequest(sha, FirstState(e, UploadChecked(upload)), ReadExisting(0, r), 0, UploadChecked(upload))
         == FirstState(e, UploadPlanned(upload, Insert(r)))
  {
  }

  lemma {:induction false} GoChecked(sha: Blob -> string, events: seq<Event>, e: ExtensionId, upload: Upload)
    returns (after: seq<Event>)
    requires RunWithinLease(sha, events) && Run(sha, events) == FirstState(e, UploadStarted(upload)) && upload.extension == e
    ensures RunWithinLease(sha, after) && Run(sha, after) == FirstState(e, UploadChecked(upload))
  {
    FirstSteps(sha, e, "", upload);
    after := GoStep(sha, events, CheckUploadVersion(0), FirstState(e, UploadChecked(upload)));
  }

  lemma {:induction false} GoPlanned(sha: Blob -> string, events: seq<Event>, e: ExtensionId, r: ReleaseId,
                                     upload: Upload)
    returns (after: seq<Event>)
    requires RunWithinLease(sha, events) && Run(sha, events) == FirstState(e, UploadChecked(upload)) && upload.extension == e
    ensures RunWithinLease(sha, after) && Run(sha, after) == FirstState(e, UploadPlanned(upload, Insert(r)))
  {
    FirstSteps(sha, e, r, upload);
    after := GoStep(sha, events, ReadExisting(0, r), FirstState(e, UploadPlanned(upload, Insert(r))));
  }

  lemma {:induction false} FirstPlan(sha: Blob -> string, e: ExtensionId, r: ReleaseId, version: Version, files: string)
    returns (events: seq<Event>)
    ensures RunWithinLease(sha, events)
    ensures Run(sha, events) == FirstState(e, UploadPlanned(Upload(e, version, files, None), Insert(r)))
  {
    var upload := Upload(e, version, files, None);
    var listed := GoListed(sha, e);
    var started := GoStarted(sha, listed, e, version, files);
    var checked := GoChecked(sha, started, e, upload);
    events := GoPlanned(sha, checked, e, r, upload);
  }

  lemma {:induction false} FirstUpload(sha: Blob -> string, e: ExtensionId, r: ReleaseId, version: Version,
                                       files: string)
    returns (events: seq<Event>)
    ensures RunWithinLease(sha, events) && Run(sha, events) == DraftState(e, r, version, files)
  {
    var upload := Upload(e, version, files, None);
    var stored := UploadStored(upload, Insert(r));
    events := FirstPlan(sha, e, r, version, files);
    events := GoStep(sha, events, PutStaging(0), FirstState(e, stored).(store := map[StagingKey(e, r, 0) := StagedOf(upload)]));
    events := GoStep(sha, events, CommitUpload(0), DraftState(e, r, version, files));
  }

  /** An extension whose first release is uploaded and submitted. */
  lemma {:induction false} FirstSubmission(sha: Blob -> string, e: ExtensionId, r: ReleaseId, t: SubmissionId,
                                           version: Version, files: string)
    returns (events: seq<Event>)
    ensures RunWithinLease(sha, events) && IsSubmitted(Run(sha, events), e, r, t, version, files)
  {
    var s := DraftState(e, r, version, files);
    var request := SubmitRead(r, e, StagingKey(e, r, 0), None);
    var uploaded := FirstUpload(sha, e, r, version, files);
    assert Opened(s.db, StartSubmit(r)) == Some(request);
    var read := GoRead(sha, uploaded, StartSubmit(r));
    events := GoStep(sha, read, CommitSubmit(1, t, 0), SubmitStep(Start(s, request), 1, request, t, 0));
    DraftIsSubmitted(e, r, t, version, files);
  }

  /** The first submission is pending, and the package of its release is stored. */
  ghost predicate IsSubmitted(s: State, e: ExtensionId, r: ReleaseId, t: SubmissionId, version: Version, files: string) {
    && SubmissionIs(s.db, t, SubPending) && s.db.submissions[t].release == r
    && r in s.db.releases && IsAbove(s.db, r)
    && s.db.releases[r].stagingKey == Some(StagingKey(e, r, 0)) && s.store == map[StagingKey(e, r, 0) := Staged(e, version, files)]
  }

  lemma {:induction false} DraftIsSubmitted(e: ExtensionId, r: ReleaseId, t: SubmissionId, version: Version,
                                            files: string)
    ensures var request := SubmitRead(r, e, StagingKey(e, r, 0), None);
      IsSubmitted(SubmitStep(Start(DraftState(e, r, version, files), request), 1, request, t, 0), e, r, t, version, files)
  {
    DraftSubmits(e, r, t, version);
  }

  lemma {:induction false} DraftSubmits(e: ExtensionId, r: ReleaseId, t: SubmissionId, version: Version)
    ensures var db := Submit(DraftTables(e, r, version), r, e, StagingKey(e, r, 0), None, t, 0).db;
      && SubmissionIs(db, t, SubPending) && db.submissions[t].release == r
      && r in db.releases && IsAbove(db, r) && db.releases[r].stagingKey == Some(StagingKey(e, r, 0))
  {
  }

  /** So for any two uploads there is a run in which the first is published while the release names the second. */
  lemma {:induction false} StaleRun(sha: Blob -> string, e: ExtensionId, r: ReleaseId, t: SubmissionId,
                                    version: Version,
                                    first: string, second: string, signature: string) returns (events: seq<Event>)
    ensures RunWithinLease(sha, events)
    ensures var s := Run(sha, events);
      && ReleaseIs(s.db, r, Published)
      && var row := s.db.releases[r];
         && row.stagingKey.Some? && row.stagingKey.value in s.store && s.store[row.stagingKey.value].files == second
         && row.artifact.Some? && row.artifact.value.packageKey in s.store
         && s.store[row.artifact.value.packageKey].files == first
  {
    var pending := FirstSubmission(sha, e, r, t, version, first);
    events := StaleFilesArePublished(sha, pending, t, second, signature);
  }
}
