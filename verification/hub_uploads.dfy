/** An upload that commits names a version above the release that is current at that moment,
    although the release it saw, the version test and the batch are three separate moments. */
module HubUploads {
  import opened Options
  import opened SemVer
  import opened HubDatabase
  import opened HubInvariant
  import opened HubProtocol
  import opened HubSafety
  import opened HubSteps
  import opened HubRuns

  /** The current release is the one the upload saw, or a newer one. */
  predicate SeenOrNewer(db: Database, upload: Upload) {
    upload.seenCurrent.Some? ==>
      || CurrentOf(db, upload.extension) == upload.seenCurrent
      || Newer(db, CurrentOf(db, upload.extension), upload.seenCurrent)
  }

  /** The upload's version is above that of the release it saw. */
  predicate AboveSeen(db: Database, upload: Upload) {
    upload.seenCurrent.Some? ==>
      upload.seenCurrent.value in db.releases && Gt(upload.version, db.releases[upload.seenCurrent.value].version)
  }

  /** The row an upload will replace is one of its extension and version. */
  predicate PlanFits(db: Database, upload: Upload, plan: Plan) {
    plan.Replace? ==>
      && plan.existing.release in db.releases
      && db.releases[plan.existing.release].extension == upload.extension
      && db.releases[plan.existing.release].version == upload.version
  }

  predicate UploadOk(db: Database, request: Request) {
    match request
    case UploadStarted(upload) => SeenOrNewer(db, upload)
    case UploadChecked(upload) => AboveSeen(db, upload)
    case UploadPlanned(upload, plan) => AboveSeen(db, upload) && PlanFits(db, upload, plan)
    case UploadStored(upload, plan) => AboveSeen(db, upload) && PlanFits(db, upload, plan)
    case _ => true
  }

  ghost predicate UploadsOk(s: State) {
    forall id :: id in s.requests ==> UploadOk(s.db, s.requests[id])
  }

  lemma {:induction false} CurrentIsARelease(db: Database, e: ExtensionId)
    requires TablesOk(db) && CurrentOf(db, e).Some?
    ensures e in db.listings && CurrentOf(db, e).value in db.releases
  {
    assert ListingOk(db, e);
  }

  lemma {:induction false} SeenStable(db: Database, db': Database, upload: Upload)
    requires TablesOk(db) && Evolves(db, db') && SeenOrNewer(db, upload)
    ensures SeenOrNewer(db', upload)
  {
    if upload.seenCurrent.Some? {
      var e := upload.extension;
      var x, y, z := upload.seenCurrent, CurrentOf(db, e), CurrentOf(db', e);
      CurrentIsARelease(db, e);
      assert ListingEvolves(db, db', e) && ReleaseEvolves(db, db', x.value) && ReleaseEvolves(db, db', y.value);
      if x != y && y != z {
        GtIsTransitive(db'.releases[z.value].version, db'.releases[y.value].version, db'.releases[x.value].version);
      }
    }
  }

  lemma {:induction false} AboveStable(db: Database, db': Database, upload: Upload)
    requires Evolves(db, db') && AboveSeen(db, upload)
    ensures AboveSeen(db', upload)
  {
    if upload.seenCurrent.Some? {
      assert ReleaseEvolves(db, db', upload.seenCurrent.value);
    }
  }

  lemma {:induction false} PlanStable(db: Database, db': Database, upload: Upload, plan: Plan)
    requires Evolves(db, db') && PlanFits(db, upload, plan)
    ensures PlanFits(db', upload, plan)
  {
    if plan.Replace? {
      assert ReleaseEvolves(db, db', plan.existing.release);
    }
  }

  lemma {:induction false} UploadStable(db: Database, db': Database, request: Request)
    requires TablesOk(db) && Evolves(db, db') && UploadOk(db, request)
    ensures UploadOk(db', request)
  {
    match request
    case UploadStarted(upload) => SeenStable(db, db', upload);
    case UploadChecked(upload) => AboveStable(db, db', upload);
    case UploadPlanned(upload, plan) => AboveStable(db, db', upload); PlanStable(db, db', upload, plan);
    case UploadStored(upload, plan) => AboveStable(db, db', upload); PlanStable(db, db', upload, plan);
    case _ =>
  }

  /** The version test is against the release that is current then, which is the one seen or a newer one. */
  lemma {:induction false} CheckedIsAbove(db: Database, upload: Upload)
    requires TablesOk(db) && SeenOrNewer(db, upload) && MayUpload(db, upload)
    ensures AboveSeen(db, upload)
  {
    if upload.seenCurrent.Some? {
      var x, y := upload.seenCurrent, CurrentOf(db, upload.extension);
      CurrentIsARelease(db, upload.extension);
      if x != y {
        GtIsTransitive(upload.version, db.releases[y.value].version, db.releases[x.value].version);
      }
    }
  }

  /** What a step leaves of request `id`: nothing, or a request that is in order with respect to the tables before it. */
  ghost predicate MovesUpload(s: State, s': State, id: RequestId) {
    && (forall j :: j in s'.requests && j != id ==> j in s.requests && s'.requests[j] == s.requests[j])
    && (id in s'.requests ==> UploadOk(s.db, s'.requests[id]))
  }

  lemma {:induction false} PlanUploadMoves(s: State, id: RequestId, upload: Upload, newRelease: ReleaseId)
    requires AboveSeen(s.db, upload)
    ensures MovesUpload(s, PlanUpload(s, id, upload, newRelease), id)
  {
  }

  lemma {:induction false} PublisherMovesUpload(s: State, e: Event, id: RequestId, request: Request)
    requires TablesOk(s.db) && id in s.requests && s.requests[id] == request && UploadOk(s.db, request)
    ensures MovesUpload(s, StepPublisher(s, e, id, request), id)
  {
    if e.CheckUploadVersion? {
      if request.UploadStarted? && MayUpload(s.db, request.upload) { CheckedIsAbove(s.db, request.upload); }
    } else if e.ReadExisting? {
      if request.UploadChecked? { PlanUploadMoves(s, id, request.upload, e.newRelease); }
    } else {
      LaterMovesUpload(s, e, id, request);
    }
  }

  lemma {:induction false} LaterMovesUpload(s: State, e: Event, id: RequestId, request: Request)
    requires id in s.requests && s.requests[id] == request && UploadOk(s.db, request)
    requires !e.CheckUploadVersion? && !e.ReadExisting?
    ensures MovesUpload(s, StepPublisher(s, e, id, request), id)
  {
  }

  lemma {:induction false} ReviewMovesUpload(sha: Blob -> string, s: State, e: Event, id: RequestId, request: Request)
    requires id in s.requests && s.requests[id] == request && UploadOk(s.db, request)
    ensures MovesUpload(s, StepReview(sha, s, e, id, request), id)
  {
  }

  lemma {:induction false} OpenedMovesUpload(s: State, e: Event)
    requires Opened(s.db, e).Some?
    ensures MovesUpload(s, Start(s, Opened(s.db, e).value), s.next)
  {
  }

  /** The request an event moves. */
  function MovedBy(s: State, e: Event): RequestId {
    if IsRequestStep(e) then e.id else s.next
  }

  lemma {:induction false} EventMovesUpload(sha: Blob -> string, s: State, e: Event)
    requires TablesOk(s.db) && UploadsOk(s)
    ensures MovesUpload(s, Apply(sha, s, e), MovedBy(s, e))
  {
    if IsRequestStep(e) {
      if e.id in s.requests {
        if IsReviewStep(e) {
          ReviewMovesUpload(sha, s, e, e.id, s.requests[e.id]);
        } else {
          PublisherMovesUpload(s, e, e.id, s.requests[e.id]);
        }
      }
    } else if Opened(s.db, e).Some? {
      OpenedMovesUpload(s, e);
    }
  }

  lemma {:induction false} ApplyKeepsUploads(sha: Blob -> string, s: State, e: Event)
    requires StateOk(sha, s) && WithinLease(s) && UploadsOk(s)
    ensures UploadsOk(Apply(sha, s, e))
  {
    var s' := Apply(sha, s, e);
    ApplyKeeps(sha, s, e);
    EventMovesUpload(sha, s, e);
    forall id | id in s'.requests ensures UploadOk(s'.db, s'.requests[id]) {
      assert UploadOk(s.db, s'.requests[id]);
      UploadStable(s.db, s'.db, s'.requests[id]);
    }
  }

  lemma {:induction false} ReachableUploadsOk(sha: Blob -> string, events: seq<Event>)
    requires RunWithinLease(sha, events)
    ensures UploadsOk(Run(sha, events))
  {
    if events != [] {
      var n := |events| - 1;
      PrefixWithinLease(sha, events, n);
      ReachableUploadsOk(sha, events[..n]);
      ReachableIsSound(sha, events[..n]);
      ApplyKeepsUploads(sha, Run(sha, events[..n]), events[n]);
    }
  }

  /** The batch of an upload commits only a version above the release that is current then, on a
      draft of the extension and version that was uploaded. */
  lemma {:induction false} CommittedUploadIsNewer(sha: Blob -> string, events: seq<Event>, id: RequestId)
    requires RunWithinLease(sha, events)
    requires var s := Run(sha, events); id in s.requests && s.requests[id].UploadStored? && UploadBatch(s, id, s.requests[id]).ok
    ensures var s := Run(sha, events);
            var request := s.requests[id];
            var r := PlannedRelease(request.plan);
            var current := CurrentOf(s.db, request.upload.extension);
            var releases := UploadBatch(s, id, request).db.releases;
            && r in releases && releases[r].status == Draft && releases[r].stagingKey == Some(StagingKeyOf(id, request))
            && releases[r].extension == request.upload.extension && releases[r].version == request.upload.version
            && (current.Some? ==> current.value in s.db.releases && HasPrecedence(request.upload.version, s.db.releases[current.value].version))
  {
    ReachableUploadsOk(sha, events);
    var s := Run(sha, events);
    assert UploadOk(s.db, s.requests[id]);
    var current := CurrentOf(s.db, s.requests[id].upload.extension);
    if current.Some? {
      GtIff(s.requests[id].upload.version, s.db.releases[current.value].version);
    }
  }
}
