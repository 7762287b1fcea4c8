/** Safety of the release pipeline over every interleaving in which no review outlives
    its lease: the state invariant, its preservation event by event, and what it says. */
module HubSafety {
  import opened Options
  import opened SemVer
  import opened HubDatabase
  import opened HubInvariant
  import opened HubBatches
  import opened HubReviews
  import opened HubProtocol

  // ---- The state invariant ----

  predicate SnapOk(db: Database, snap: Snapshot) {
    && SubmissionFor(db, snap.submission, snap.release)
    && snap.release in db.releases
    && db.releases[snap.release].extension == snap.extension
    && db.releases[snap.release].version == snap.version
  }

  /** The claim of an in-flight review still stands. */
  predicate HoldOk(db: Database, snap: Snapshot, claimedAt: nat) {
    && SnapOk(db, snap)
    && SubmissionIs(db, snap.submission, SubReviewing)
    && db.submissions[snap.submission].resolvedAt == Some(claimedAt)
  }

  predicate NewerThanSeen(db: Database, snap: Snapshot) {
    snap.current.Some? ==>
      snap.current.value in db.releases && Gt(snap.version, db.releases[snap.current.value].version)
  }

  predicate BuiltFor(snap: Snapshot, official: Blob) {
    official.Official? && official.extension == snap.extension && official.version == snap.version
  }

  predicate UsesNonce(release: Release, id: RequestId) {
    release.stagingKey.Some? && release.stagingKey.value.StagingKey? && release.stagingKey.value.nonce == id
  }

  ghost predicate NonceUnused(db: Database, id: RequestId) {
    forall r :: r in db.releases ==> !UsesNonce(db.releases[r], id)
  }

  ghost predicate RequestOk(sha: Blob -> string, db: Database, store: map<ObjectKey, Blob>, id: RequestId, request: Request) {
    match request
    case UploadStarted(_) => NonceUnused(db, id)
    case UploadChecked(_) => NonceUnused(db, id)
    case UploadPlanned(_, _) => NonceUnused(db, id)
    case UploadStored(_, _) => NonceUnused(db, id)
    case StagingCleanup(key) => key.StagingKey?
    case SubmitRead(_, _, _, _) => true
    case ReviewRead(snap, _) => SnapOk(db, snap) && (snap.stagingKey.Some? ==> snap.stagingKey.value.StagingKey?)
    case Claimed(snap, at, _) => HoldOk(db, snap, at) && (snap.stagingKey.Some? ==> snap.stagingKey.value.StagingKey?)
    case VersionChecked(snap, at) =>
      HoldOk(db, snap, at) && NewerThanSeen(db, snap) && (snap.stagingKey.Some? ==> snap.stagingKey.value.StagingKey?)
    case Built(snap, at, official, _) =>
      HoldOk(db, snap, at) && NewerThanSeen(db, snap) && (snap.stagingKey.Some? ==> snap.stagingKey.value.StagingKey?)
      && BuiltFor(snap, official)
    case Stored(snap, at, official, _) =>
      HoldOk(db, snap, at) && NewerThanSeen(db, snap) && (snap.stagingKey.Some? ==> snap.stagingKey.value.StagingKey?)
      && BuiltFor(snap, official)
      && PackageKeyOf(sha, snap, official) in store && store[PackageKeyOf(sha, snap, official)] == official
    case PublishFailed(snap, at, official) => HoldOk(db, snap, at)
    case ReviewFailed(snap, at) => HoldOk(db, snap, at)
    case YankRead(release) => Retired(db, release)
  }

  predicate SameClaim(requests: map<RequestId, Request>, a: RequestId, b: RequestId) {
    && a in requests && b in requests && requests[a].Holds() && requests[b].Holds()
    && requests[a].snap.submission == requests[b].snap.submission
  }

  /** At most one request holds a claim on a submission. */
  ghost predicate ClaimsExclusive(requests: map<RequestId, Request>) {
    forall a, b :: SameClaim(requests, a, b) ==> a == b
  }

  /** The package object a published release names is stored and has its hash. */
  predicate PackageStored(sha: Blob -> string, store: map<ObjectKey, Blob>, release: Release) {
    && ArtifactOf(release)
    && var a := release.artifact.value;
       && a.packageKey in store && store[a.packageKey].Official?
       && store[a.packageKey].extension == release.extension && store[a.packageKey].version == release.version
       && sha(store[a.packageKey]) == a.sha256
  }

  ghost predicate StoreOk(sha: Blob -> string, db: Database, store: map<ObjectKey, Blob>) {
    forall r :: r in db.releases && Final(db.releases[r].status) ==> PackageStored(sha, store, db.releases[r])
  }

  predicate KeyIssued(release: Release, next: RequestId) {
    release.stagingKey.Some? ==> release.stagingKey.value.StagingKey? && release.stagingKey.value.nonce < next
  }

  ghost predicate KeysIssued(db: Database, next: RequestId) {
    forall r :: r in db.releases ==> KeyIssued(db.releases[r], next)
  }

  ghost predicate RequestsOk(sha: Blob -> string, s: State) {
    forall id :: id in s.requests ==> id < s.next && RequestOk(sha, s.db, s.store, id, s.requests[id])
  }

  ghost predicate StateOk(sha: Blob -> string, s: State) {
    && TablesOk(s.db)
    && RequestsOk(sha, s)
    && ClaimsExclusive(s.requests)
    && StoreOk(sha, s.db, s.store)
    && KeysIssued(s.db, s.next)
  }

  /** A sound step: the next state is sound and the tables only evolved. */
  ghost predicate Sound(sha: Blob -> string, s: State, s': State) {
    StateOk(sha, s') && Evolves(s.db, s'.db)
  }

  // ---- What a step leaves alone ----

  /** Objects other requests and published releases rely on survive. */
  predicate ObjectKept(store: map<ObjectKey, Blob>, store': map<ObjectKey, Blob>, key: ObjectKey) {
    key in store ==> key in store' && store'[key] == store[key]
  }

  predicate NonceKept(db: Database, db': Database, r: ReleaseId, own: RequestId)
    requires r in db'.releases
  {
    (r in db.releases && db'.releases[r].stagingKey == db.releases[r].stagingKey) || UsesNonce(db'.releases[r], own)
  }

  /** Staging keys are only ever replaced by the key of the writing request. */
  ghost predicate NoncesKept(db: Database, db': Database, own: RequestId) {
    forall r :: r in db'.releases ==> NonceKept(db, db', r, own)
  }

  /** Every object but the package objects of `key` survives. */
  ghost predicate StoreKept(store: map<ObjectKey, Blob>, store': map<ObjectKey, Blob>, key: Option<ObjectKey>) {
    forall k :: k in store && k.PackageKey? && key != Some(k) ==> ObjectKept(store, store', k)
  }

  lemma {:induction false} SnapStable(db: Database, db': Database, snap: Snapshot)
    requires SnapOk(db, snap) && Evolves(db, db')
    ensures SnapOk(db', snap)
    ensures NewerThanSeen(db, snap) ==> NewerThanSeen(db', snap)
  {
    assert SubmissionEvolves(db, db', snap.submission) && ReleaseEvolves(db, db', snap.release);
    if snap.current.Some? && snap.current.value in db.releases {
      assert ReleaseEvolves(db, db', snap.current.value);
    }
  }

  /** A request stays sound across a step of another request that keeps its claim. */
  lemma {:induction false} RequestStable(sha: Blob -> string, db: Database, db': Database, store: map<ObjectKey, Blob>,
                      store': map<ObjectKey, Blob>, id: RequestId, request: Request, own: RequestId)
    requires RequestOk(sha, db, store, id, request)
    requires Evolves(db, db') && NoncesKept(db, db', own) && own != id
    requires request.Holds() ==> request.snap.submission in db.submissions && HoldKept(db, db', request.snap.submission)
    requires request.Stored? ==> ObjectKept(store, store', PackageKeyOf(sha, request.snap, request.official))
    ensures RequestOk(sha, db', store', id, request)
  {
    if request.ReviewRead? || request.Holds() {
      SnapStable(db, db', request.snap);
    }
    if NonceUnused(db, id) {
      forall r | r in db'.releases ensures !UsesNonce(db'.releases[r], id) {
        assert NonceKept(db, db', r, own);
      }
    }
    if request.YankRead? {
      assert ReleaseEvolves(db, db', request.release);
    }
  }

  lemma {:induction false} FinalPackagesStable(sha: Blob -> string, db: Database, db': Database,
                                               store: map<ObjectKey, Blob>, store': map<ObjectKey, Blob>)
    requires StoreOk(sha, db, store) && Evolves(db, db')
    requires forall r :: r in db'.releases && Final(db'.releases[r].status) ==> r in db.releases && Final(db.releases[r].status)
    requires forall r :: r in db.releases && Final(db.releases[r].status) && db.releases[r].artifact.Some? ==>
               ObjectKept(store, store', db.releases[r].artifact.value.packageKey)
    ensures StoreOk(sha, db', store')
  {
    forall r | r in db'.releases && Final(db'.releases[r].status) ensures PackageStored(sha, store', db'.releases[r]) {
      assert PackageStored(sha, store, db.releases[r]) && ReleaseEvolves(db, db', r);
    }
  }

  /** No other request holds a claim on this submission. */
  ghost predicate OthersDiffer(s: State, id: RequestId, submission: SubmissionId) {
    forall j :: j in s.requests && j != id && s.requests[j].Holds() ==> s.requests[j].snap.submission != submission
  }

  /** The package objects other requests have stored survive. */
  ghost predicate OthersPackagesKept(sha: Blob -> string, s: State, s': State, id: RequestId) {
    forall j :: j in s.requests && j != id && s.requests[j].Stored? ==>
      ObjectKept(s.store, s'.store, PackageKeyOf(sha, s.requests[j].snap, s.requests[j].official))
  }

  /** The request table changes at most at `id`, where it holds a sound request. */
  ghost predicate OneRequestMoves(sha: Blob -> string, s: State, s': State, id: RequestId) {
    && (forall j :: j in s'.requests && j != id ==> j in s.requests && s'.requests[j] == s.requests[j])
    && (id in s'.requests ==>
          && id < s'.next
          && RequestOk(sha, s'.db, s'.store, id, s'.requests[id])
          && (s'.requests[id].Holds() ==> OthersDiffer(s, id, s'.requests[id].snap.submission)))
  }

  /** A step of request `id` that owns at most the claim `own` keeps the state sound. */
  lemma {:induction false} StepKeeps(sha: Blob -> string, s: State, s': State, id: RequestId, own: Option<SubmissionId>)
    requires StateOk(sha, s)
    requires Keeps(s.db, s'.db, own) && NoncesKept(s.db, s'.db, id)
    requires own.Some? ==> OthersDiffer(s, id, own.value)
    requires OneRequestMoves(sha, s, s', id) && OthersPackagesKept(sha, s, s', id)
    requires StoreOk(sha, s'.db, s'.store) && KeysIssued(s'.db, s'.next) && s.next <= s'.next
    ensures Sound(sha, s, s')
  {
    forall j | j in s'.requests ensures j < s'.next && RequestOk(sha, s'.db, s'.store, j, s'.requests[j]) {
      if j != id {
        var request := s.requests[j];
        if request.Holds() {
          assert SubmissionOk(s.db, request.snap.submission);
          assert HoldKept(s.db, s'.db, request.snap.submission);
        }
        RequestStable(sha, s.db, s'.db, s.store, s'.store, j, request, id);
      }
    }
    forall a, b | SameClaim(s'.requests, a, b) ensures a == b {
      if a != id && b != id {
        assert SameClaim(s.requests, a, b);
      }
    }
  }

  /** With the tables unchanged. */
  lemma {:induction false} QuietStep(sha: Blob -> string, s: State, s': State, id: RequestId)
    requires StateOk(sha, s)
    requires s'.db == s.db && s.next <= s'.next
    requires OneRequestMoves(sha, s, s', id) && OthersPackagesKept(sha, s, s', id)
    requires StoreOk(sha, s.db, s'.store)
    ensures Sound(sha, s, s')
  {
    NothingChanges(s.db, None);
    assert forall r :: r in s.db.releases ==> NonceKept(s.db, s'.db, r, id);
    assert forall r :: r in s.db.releases && KeyIssued(s.db.releases[r], s.next) ==> KeyIssued(s.db.releases[r], s'.next);
    StepKeeps(sha, s, s', id, None);
  }

  /** With the tables and the store unchanged. */
  lemma {:induction false} MoveOnly(sha: Blob -> string, s: State, s': State, id: RequestId)
    requires StateOk(sha, s)
    requires s'.db == s.db && s'.store == s.store && s.next <= s'.next
    requires OneRequestMoves(sha, s, s', id)
    ensures Sound(sha, s, s')
  {
    QuietStep(sha, s, s', id);
  }

  /** Staging objects come and go freely. */
  lemma {:induction false} StagingStep(sha: Blob -> string, s: State, s': State, id: RequestId)
    requires StateOk(sha, s)
    requires s'.db == s.db && s.next == s'.next
    requires forall k :: k in s.store && k.PackageKey? ==> k in s'.store && s'.store[k] == s.store[k]
    requires OneRequestMoves(sha, s, s', id)
    ensures Sound(sha, s, s')
  {
    forall r | r in s.db.releases && Final(s.db.releases[r].status) ensures PackageStored(sha, s'.store, s.db.releases[r]) {
      assert PackageStored(sha, s.store, s.db.releases[r]);
    }
    QuietStep(sha, s, s', id);
  }

  lemma {:induction false} ClaimIsExclusive(s: State, id: RequestId)
    requires ClaimsExclusive(s.requests) && id in s.requests && s.requests[id].Holds()
    ensures OthersDiffer(s, id, s.requests[id].snap.submission)
  {
    forall j | j in s.requests && j != id && s.requests[j].Holds()
      ensures s.requests[j].snap.submission != s.requests[id].snap.submission
    {
      assert s.requests[j].snap.submission == s.requests[id].snap.submission ==> SameClaim(s.requests, j, id);
    }
  }

  /** Nothing but the review that holds a release can touch a package object of its
      version: neither a published release nor another review uses that key. */
  lemma {:induction false} PackageKeyIsPrivate(sha: Blob -> string, s: State, id: RequestId, key: ObjectKey)
    requires StateOk(sha, s) && id in s.requests && s.requests[id].Holds()
    requires key.PackageKey? && key.extension == s.requests[id].snap.extension && key.version == s.requests[id].snap.version
    ensures forall r :: r in s.db.releases && Final(s.db.releases[r].status) && s.db.releases[r].artifact.Some? ==>
              s.db.releases[r].artifact.value.packageKey != key
    ensures forall j :: j in s.requests && j != id && s.requests[j].Stored? ==>
              PackageKeyOf(sha, s.requests[j].snap, s.requests[j].official) != key
  {
    var snap := s.requests[id].snap;
    OnlySubmission(s.db, snap.submission, snap.release);
    ClaimIsExclusive(s, id);
    forall r | r in s.db.releases && Final(s.db.releases[r].status) && s.db.releases[r].artifact.Some?
      ensures s.db.releases[r].artifact.value.packageKey != key
    {
      assert PackageStored(sha, s.store, s.db.releases[r]);
      assert !SameSlot(s.db, r, snap.release);
    }
    forall j | j in s.requests && j != id && s.requests[j].Stored?
      ensures PackageKeyOf(sha, s.requests[j].snap, s.requests[j].official) != key
    {
      var other := s.requests[j].snap;
      assert RequestOk(sha, s.db, s.store, j, s.requests[j]);
      assert !SameSlot(s.db, other.release, snap.release);
    }
  }

  /** The review that holds a release writes or deletes its package object. */
  lemma {:induction false} PackageStep(sha: Blob -> string, s: State, s': State, id: RequestId, key: ObjectKey)
    requires StateOk(sha, s) && id in s.requests && s.requests[id].Holds()
    requires key.PackageKey? && key.extension == s.requests[id].snap.extension && key.version == s.requests[id].snap.version
    requires s'.db == s.db && s.next == s'.next
    requires forall k :: k in s.store && k != key ==> k in s'.store && s'.store[k] == s.store[k]
    requires OneRequestMoves(sha, s, s', id)
    ensures Sound(sha, s, s')
  {
    PackageKeyIsPrivate(sha, s, id, key);
    forall r | r in s.db.releases && Final(s.db.releases[r].status) ensures PackageStored(sha, s'.store, s.db.releases[r]) {
      assert PackageStored(sha, s.store, s.db.releases[r]);
    }
    QuietStep(sha, s, s', id);
  }
}
