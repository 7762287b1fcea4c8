/** The release pipeline as a transition system.  A request is a sequence of steps, each
    one read, one object-store operation or one batch; steps of different requests
    interleave freely and a request keeps the snapshot it read.  An event whose request
    is not at the step it names changes nothing. */
module HubProtocol {
  import opened Options
  import opened SemVer
  import opened HubDatabase

  type RequestId = nat

  datatype Decision = Approval | Rejection | ChangeRequest

  /** The row a review reads before it claims. */
  datatype Snapshot = Snapshot(submission: SubmissionId, release: ReleaseId, extension: ExtensionId, version: Version,
                               stagingKey: Option<ObjectKey>, current: Option<ReleaseId>)

  /** Stored objects.  A package names the extension and version it was built for. */
  datatype Blob =
    | Staged(extension: ExtensionId, version: Version, files: string)
    | Official(extension: ExtensionId, version: Version, files: string, signature: string)

  datatype Upload = Upload(extension: ExtensionId, version: Version, files: string, seenCurrent: Option<ReleaseId>)

  datatype Existing = Existing(release: ReleaseId, stagingKey: Option<ObjectKey>)

  /** An upload's target: the row found for this version, or a new release id. */
  datatype Plan = Replace(existing: Existing) | Insert(newRelease: ReleaseId)

  function PlannedRelease(plan: Plan): ReleaseId {
    match plan
    case Replace(existing) => existing.release
    case Insert(newRelease) => newRelease
  }

  datatype Request =
    | UploadStarted(upload: Upload)
    | UploadChecked(upload: Upload)
    | UploadPlanned(upload: Upload, plan: Plan)
    | UploadStored(upload: Upload, plan: Plan)
    | StagingCleanup(key: ObjectKey)
    | SubmitRead(release: ReleaseId, extension: ExtensionId, seenKey: ObjectKey, seenCurrent: Option<ReleaseId>)
    | ReviewRead(snap: Snapshot, decision: Decision)
    | Claimed(snap: Snapshot, claimedAt: nat, decision: Decision)
    | VersionChecked(snap: Snapshot, claimedAt: nat)
    | Built(snap: Snapshot, claimedAt: nat, official: Blob, publishedAt: nat)
    | Stored(snap: Snapshot, claimedAt: nat, official: Blob, publishedAt: nat)
    | PublishFailed(snap: Snapshot, claimedAt: nat, official: Blob)
    | ReviewFailed(snap: Snapshot, claimedAt: nat)
    | YankRead(release: ReleaseId)
  {
    /** Between a successful claim and the batch that ends the review. */
    predicate Holds() {
      Claimed? || VersionChecked? || Built? || Stored? || PublishFailed? || ReviewFailed?
    }
  }

  datatype State = State(db: Database, store: map<ObjectKey, Blob>, requests: map<RequestId, Request>,
                         next: RequestId, clock: nat)

  const INITIAL := State(EMPTY, map[], map[], 0, 0)

  /** A handler reads the clock before the batch that stores the time, so a batch carries a time that
      is not after its own; a sweep carries the time its cut-off was computed from. */
  datatype Event =
    | CreateExtension(extension: ExtensionId)
    | StartUpload(extension: ExtensionId, version: Version, files: string)
    | CheckUploadVersion(id: RequestId)
    | ReadExisting(id: RequestId, newRelease: ReleaseId)
    | PutStaging(id: RequestId)
    | CommitUpload(id: RequestId)
    | UploadThrows(id: RequestId)
    | DeleteStaging(id: RequestId, works: bool)
    | StartSubmit(release: ReleaseId)
    | CommitSubmit(id: RequestId, newSubmission: SubmissionId, at: nat)
    | StartReview(submission: SubmissionId, decision: Decision)
    | CommitClaim(id: RequestId, at: nat)
    | CheckApproval(id: RequestId)
    | BuildPackage(id: RequestId, signature: string)
    | PutPackage(id: RequestId)
    | CommitApproval(id: RequestId)
    | CommitDecision(id: RequestId, at: nat)
    | ReviewThrows(id: RequestId)
    | DeletePackage(id: RequestId, works: bool)
    | CommitRollback(id: RequestId)
    | StartYank(release: ReleaseId)
    | CommitYank(id: RequestId)
    | SuspendExtension(extension: ExtensionId)
    | RunSweep(at: nat)
    | ExpireStaging(key: ObjectKey)
    | Abandon(id: RequestId)
    | Tick(minutes: nat)

  function Start(s: State, request: Request): State {
    s.(requests := s.requests[s.next := request], next := s.next + 1)
  }

  function Go(s: State, id: RequestId, request: Request): State {
    s.(requests := s.requests[id := request])
  }

  function Done(s: State, id: RequestId): State {
    s.(requests := s.requests - {id})
  }

  // ---- Upload ----

  function StagingKeyOf(id: RequestId, request: Request): ObjectKey
    requires request.UploadPlanned? || request.UploadStored?
  {
    StagingKey(request.upload.extension, PlannedRelease(request.plan), id)
  }

  /** The version test of an upload, against the current release at that moment. */
  predicate MayUpload(db: Database, upload: Upload) {
    var current := CurrentOf(db, upload.extension);
    current.Some? && current.value in db.releases ==> Gt(upload.version, db.releases[current.value].version)
  }

  ghost function PlanUpload(s: State, id: RequestId, upload: Upload, newRelease: ReleaseId): State {
    if exists r :: r in s.db.releases && s.db.releases[r].extension == upload.extension && s.db.releases[r].version == upload.version then
      var r :| r in s.db.releases && s.db.releases[r].extension == upload.extension && s.db.releases[r].version == upload.version;
      if Resubmittable(s.db.releases[r].status)
      then Go(s, id, UploadPlanned(upload, Replace(Existing(r, s.db.releases[r].stagingKey))))
      else Done(s, id)
    else Go(s, id, UploadPlanned(upload, Insert(newRelease)))
  }

  function UploadBatch(s: State, id: RequestId, request: Request): Batch
    requires request.UploadStored?
  {
    var key := StagingKeyOf(id, request);
    match request.plan
    case Replace(existing) =>
      ReplaceRelease(s.db, existing.release, key, existing.stagingKey, request.upload.seenCurrent, s.clock)
    case Insert(newRelease) =>
      InsertRelease(s.db, newRelease, request.upload.extension, request.upload.version, key, request.upload.seenCurrent)
  }

  function CommitUploadStep(s: State, id: RequestId, request: Request): State
    requires request.UploadStored?
  {
    AfterUpload(s, id, request, UploadBatch(s, id, request))
  }

  /** An upload batch that throws commits nothing; the staged object is left to delete. */
  function UploadThrowsStep(s: State, id: RequestId, request: Request): State
    requires request.UploadStored?
  {
    AfterUpload(s, id, request, Batch(s.db, false))
  }

  function AfterUpload(s: State, id: RequestId, request: Request, batch: Batch): State
    requires request.UploadStored?
  {
    var s' := s.(db := batch.db);
    if !batch.ok then Go(s', id, StagingCleanup(StagingKeyOf(id, request)))
    else if request.plan.Replace? && request.plan.existing.stagingKey.Some?
    then Go(s', id, StagingCleanup(request.plan.existing.stagingKey.value))
    else Done(s', id)
  }

  // ---- Review ----

  predicate MayReview(db: Database, submission: SubmissionId) {
    && SubmissionIs(db, submission, SubPending)
    && ReleaseIs(db, db.submissions[submission].release, Pending)
  }

  function ReadReview(db: Database, submission: SubmissionId): Snapshot
    requires MayReview(db, submission)
  {
    var r := db.submissions[submission].release;
    var row := db.releases[r];
    Snapshot(submission, r, row.extension, row.version, row.stagingKey, CurrentOf(db, row.extension))
  }

  /** The version test of an approval: the current release of the snapshot must still be
      published and older. */
  predicate MayApprove(db: Database, snap: Snapshot) {
    snap.current.Some? ==>
      ReleaseIs(db, snap.current.value, Published) && Gt(snap.version, db.releases[snap.current.value].version)
  }

  /** The staged object an approval builds from, when it is there and matches the row. */
  predicate StagedFor(s: State, snap: Snapshot) {
    && snap.stagingKey.Some? && snap.stagingKey.value in s.store
    && var blob := s.store[snap.stagingKey.value];
       blob.Staged? && blob.extension == snap.extension && blob.version == snap.version
  }

  function PackageKeyOf(sha: Blob -> string, snap: Snapshot, official: Blob): ObjectKey {
    PackageKey(snap.extension, snap.version, sha(official))
  }

  function ArtifactFor(sha: Blob -> string, snap: Snapshot, official: Blob, publishedAt: nat): Artifact {
    var key := PackageKeyOf(sha, snap, official);
    Artifact(key, sha(official), Descriptor(snap.extension, snap.version, key, sha(official), publishedAt))
  }

  function ApprovalBatch(sha: Blob -> string, s: State, request: Request): Batch
    requires request.Stored?
  {
    var snap := request.snap;
    Approve(s.db, snap.submission, snap.release, snap.extension, snap.current,
            ArtifactFor(sha, snap, request.official, request.publishedAt), request.publishedAt)
  }

  function AfterApproval(s: State, id: RequestId, request: Request, batch: Batch): State
    requires request.Stored?
  {
    var s' := s.(db := batch.db);
    if !batch.ok then Go(s', id, PublishFailed(request.snap, request.claimedAt, request.official))
    else if request.snap.stagingKey.Some? then Go(s', id, StagingCleanup(request.snap.stagingKey.value))
    else Done(s', id)
  }

  function CommitApprovalStep(sha: Blob -> string, s: State, id: RequestId, request: Request): State
    requires request.Stored?
  {
    AfterApproval(s, id, request, ApprovalBatch(sha, s, request))
  }

  function CommitDecisionStep(s: State, id: RequestId, request: Request, at: nat): State
    requires request.Claimed?
  {
    var snap := request.snap;
    AfterDecision(s, id, request, Decide(s.db, request.decision.Rejection?, snap.submission, snap.release, snap.extension, at))
  }

  function AfterDecision(s: State, id: RequestId, request: Request, batch: Batch): State
    requires request.Claimed?
  {
    var s' := s.(db := batch.db);
    if batch.ok then Done(s', id) else Go(s', id, ReviewFailed(request.snap, request.claimedAt))
  }

  /** A claimed review throws: its package object, if stored, is still to be deleted. */
  function ThrowStep(s: State, id: RequestId, request: Request): State
    requires request.Holds()
  {
    match request
    case Stored(snap, at, official, _) => Go(s, id, PublishFailed(snap, at, official))
    case Claimed(snap, at, _) => Go(s, id, ReviewFailed(snap, at))
    case VersionChecked(snap, at) => Go(s, id, ReviewFailed(snap, at))
    case Built(snap, at, _, _) => Go(s, id, ReviewFailed(snap, at))
    case _ => s
  }

  predicate MayYank(db: Database, release: ReleaseId) {
    ReleaseIs(db, release, Published) && CurrentOf(db, db.releases[release].extension) != Some(release)
  }

  ghost function SubmitStep(s: State, id: RequestId, request: Request, newSubmission: SubmissionId, at: nat): State
    requires request.SubmitRead?
  {
    Done(s.(db := Submit(s.db, request.release, request.extension, request.seenKey, request.seenCurrent,
                         newSubmission, at).db), id)
  }

  function YankStep(s: State, id: RequestId, request: Request): State
    requires request.YankRead?
  {
    Done(s.(db := Yank(s.db, request.release)), id)
  }

  function CheckUploadStep(s: State, id: RequestId, request: Request): State
    requires request.UploadStarted?
  {
    if MayUpload(s.db, request.upload) then Go(s, id, UploadChecked(request.upload)) else Done(s, id)
  }

  function PutStagingStep(s: State, id: RequestId, request: Request): State
    requires request.UploadPlanned?
  {
    var upload := request.upload;
    Go(s.(store := s.store[StagingKeyOf(id, request) := Staged(upload.extension, upload.version, upload.files)]),
       id, UploadStored(upload, request.plan))
  }

  function DeleteStagingStep(s: State, id: RequestId, request: Request, works: bool): State
    requires request.StagingCleanup?
  {
    Done(if works then s.(store := s.store - {request.key}) else s, id)
  }

  /** One step of a publisher's request: upload, submit or yank. */
  ghost function StepPublisher(s: State, e: Event, id: RequestId, request: Request): State {
    match e
    case CheckUploadVersion(_) => if request.UploadStarted? then CheckUploadStep(s, id, request) else s
    case ReadExisting(_, newRelease) => if request.UploadChecked? then PlanUpload(s, id, request.upload, newRelease) else s
    case PutStaging(_) => if request.UploadPlanned? then PutStagingStep(s, id, request) else s
    case CommitUpload(_) => if request.UploadStored? then CommitUploadStep(s, id, request) else s
    case UploadThrows(_) => if request.UploadStored? then UploadThrowsStep(s, id, request) else s
    case DeleteStaging(_, works) => if request.StagingCleanup? then DeleteStagingStep(s, id, request, works) else s
    case CommitSubmit(_, newSubmission, at) => if request.SubmitRead? && at <= s.clock then SubmitStep(s, id, request, newSubmission, at) else s
    case CommitYank(_) => if request.YankRead? then YankStep(s, id, request) else s
    case Abandon(_) => Done(s, id)
    case _ => s
  }

  function ClaimStep(s: State, id: RequestId, request: Request, at: nat): State
    requires request.ReviewRead?
  {
    AfterClaim(s, id, request, at, Claim(s.db, request.snap.submission, request.snap.release, at))
  }

  function AfterClaim(s: State, id: RequestId, request: Request, at: nat, batch: Batch): State
    requires request.ReviewRead?
  {
    var s' := s.(db := batch.db);
    if batch.ok then Go(s', id, Claimed(request.snap, at, request.decision)) else Done(s', id)
  }

  function RollbackStep(s: State, id: RequestId, request: Request): State
    requires request.ReviewFailed?
  {
    Done(s.(db := Rollback(s.db, request.snap.submission, request.snap.release)), id)
  }

  function CheckApprovalStep(s: State, id: RequestId, request: Request): State
    requires request.Claimed?
  {
    Go(s, id, if MayApprove(s.db, request.snap) then VersionChecked(request.snap, request.claimedAt)
              else ReviewFailed(request.snap, request.claimedAt))
  }

  function BuildStep(s: State, id: RequestId, request: Request, signature: string): State
    requires request.VersionChecked?
  {
    var snap := request.snap;
    if StagedFor(s, snap) then
      var official := Official(snap.extension, snap.version, s.store[snap.stagingKey.value].files, signature);
      Go(s, id, Built(snap, request.claimedAt, official, s.clock))
    else Go(s, id, ReviewFailed(snap, request.claimedAt))
  }

  function PutPackageStep(sha: Blob -> string, s: State, id: RequestId, request: Request): State
    requires request.Built?
  {
    Go(s.(store := s.store[PackageKeyOf(sha, request.snap, request.official) := request.official]),
       id, Stored(request.snap, request.claimedAt, request.official, request.publishedAt))
  }

  function DeletePackageStep(sha: Blob -> string, s: State, id: RequestId, request: Request, works: bool): State
    requires request.PublishFailed?
  {
    Go(if works then s.(store := s.store - {PackageKeyOf(sha, request.snap, request.official)}) else s,
       id, ReviewFailed(request.snap, request.claimedAt))
  }

  /** One step of a review. */
  function StepReview(sha: Blob -> string, s: State, e: Event, id: RequestId, request: Request): State {
    match e
    case CommitClaim(_, at) => if request.ReviewRead? && at <= s.clock then ClaimStep(s, id, request, at) else s
    case CheckApproval(_) => if request.Claimed? && request.decision.Approval? then CheckApprovalStep(s, id, request) else s
    case BuildPackage(_, signature) => if request.VersionChecked? then BuildStep(s, id, request, signature) else s
    case PutPackage(_) => if request.Built? then PutPackageStep(sha, s, id, request) else s
    case CommitApproval(_) => if request.Stored? then CommitApprovalStep(sha, s, id, request) else s
    case CommitDecision(_, at) =>
      if request.Claimed? && !request.decision.Approval? && at <= s.clock then CommitDecisionStep(s, id, request, at) else s
    case ReviewThrows(_) => if request.Holds() then ThrowStep(s, id, request) else s
    case DeletePackage(_, works) => if request.PublishFailed? then DeletePackageStep(sha, s, id, request, works) else s
    case CommitRollback(_) => if request.ReviewFailed? then RollbackStep(s, id, request) else s
    case _ => s
  }

  predicate IsReviewStep(e: Event) {
    e.CommitClaim? || e.CheckApproval? || e.BuildPackage? || e.PutPackage? || e.CommitApproval?
    || e.CommitDecision? || e.ReviewThrows? || e.DeletePackage? || e.CommitRollback?
  }

  /** The batches of a review. */
  predicate IsReviewCommit(e: Event) {
    e.CommitClaim? || e.CommitApproval? || e.CommitDecision? || e.CommitRollback?
  }

  ghost function StepRequest(sha: Blob -> string, s: State, e: Event, id: RequestId, request: Request): State {
    if IsReviewStep(e) then StepReview(sha, s, e, id, request) else StepPublisher(s, e, id, request)
  }

  predicate IsRequestStep(e: Event) {
    !e.CreateExtension? && !e.StartUpload? && !e.StartSubmit? && !e.StartReview? && !e.StartYank?
    && !e.SuspendExtension? && !e.RunSweep? && !e.ExpireStaging? && !e.Tick?
  }

  /** The new request an opening read starts, if the read accepts. */
  function Opened(db: Database, e: Event): Option<Request> {
    match e
    case StartUpload(extension, version, files) =>
      if extension in db.listings
      then Some(UploadStarted(Upload(extension, version, files, db.listings[extension].current))) else None
    case StartSubmit(release) =>
      if release in db.releases && db.releases[release].stagingKey.Some? && Resubmittable(db.releases[release].status)
      then Some(SubmitRead(release, db.releases[release].extension, db.releases[release].stagingKey.value,
                           CurrentOf(db, db.releases[release].extension)))
      else None
    case StartReview(submission, decision) =>
      if MayReview(db, submission) then Some(ReviewRead(ReadReview(db, submission), decision)) else None
    case StartYank(release) => if MayYank(db, release) then Some(YankRead(release)) else None
    case _ => None
  }

  ghost function Apply(sha: Blob -> string, s: State, e: Event): State {
    if IsRequestStep(e) then
      if e.id in s.requests then StepRequest(sha, s, e, e.id, s.requests[e.id]) else s
    else
      match e
      case CreateExtension(extension) => s.(db := CreateListing(s.db, extension).db)
      case SuspendExtension(extension) => s.(db := Suspend(s.db, extension).db)
      case RunSweep(at) => if at <= s.clock then s.(db := Sweep(s.db, at)) else s
      case ExpireStaging(key) => if key.StagingKey? then s.(store := s.store - {key}) else s
      case Tick(minutes) => s.(clock := s.clock + minutes)
      case _ =>
        var request := Opened(s.db, e);
        if request.Some? then Start(s, request.value) else s
  }

  /** The state after a sequence of events. */
  ghost function Run(sha: Blob -> string, events: seq<Event>): State {
    if events == [] then INITIAL else Apply(sha, Run(sha, events[..|events| - 1]), events[|events| - 1])
  }

  /** No review outlives its lease: every claim in progress is younger than LEASE. */
  predicate WithinLease(s: State) {
    forall id :: id in s.requests && s.requests[id].Holds() ==> s.clock <= s.requests[id].claimedAt + LEASE
  }

  ghost predicate RunWithinLease(sha: Blob -> string, events: seq<Event>) {
    forall n | 0 <= n <= |events| :: WithinLease(Run(sha, events[..n]))
  }
}
