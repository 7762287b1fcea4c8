/** What a run of the release pipeline leaves behind it: the package written under each staging key,
    and the keys each claim found.  The trail is read off the events alone; the invariant below ties the
    stored objects, the rows and the requests in flight to it. */
module HubTrail {
  import opened Options
  import opened SemVer
  import opened HubDatabase
  import opened HubInvariant
  import opened HubReviews
  import opened HubProtocol
  import opened HubSafety
  import opened HubSteps
  import opened HubStaging

  /** The keys at a claim that succeeds: the one its review read before, and the one the release names. */
  datatype ClaimKeys = ClaimKeys(read: Option<ObjectKey>, named: Option<ObjectKey>)

  datatype Trail = Trail(written: map<ObjectKey, Blob>, claims: map<ReleaseId, ClaimKeys>)

  function StagedOf(upload: Upload): Blob {
    Staged(upload.extension, upload.version, upload.files)
  }

  predicate Puts(s: State, e: Event) {
    e.PutStaging? && e.id in s.requests && s.requests[e.id].UploadPlanned?
  }

  /** The claim is reported as committed. */
  predicate Claims(s: State, e: Event) {
    && e.CommitClaim? && e.id in s.requests && s.requests[e.id].ReviewRead? && e.at <= s.clock
    && Claim(s.db, s.requests[e.id].snap.submission, s.requests[e.id].snap.release, e.at).ok
  }

  function KeyNamed(db: Database, r: ReleaseId): Option<ObjectKey> {
    if r in db.releases then db.releases[r].stagingKey else None
  }

  function Record(s: State, e: Event, t: Trail): Trail {
    if Puts(s, e) then
      t.(written := t.written[StagingKeyOf(e.id, s.requests[e.id]) := StagedOf(s.requests[e.id].upload)])
    else if Claims(s, e) then RecordClaim(s.db, s.requests[e.id].snap, t)
    else t
  }

  function RecordClaim(db: Database, snap: Snapshot, t: Trail): Trail {
    t.(claims := t.claims[snap.release := ClaimKeys(snap.stagingKey, KeyNamed(db, snap.release))])
  }

  ghost function TrailOf(sha: Blob -> string, events: seq<Event>): Trail {
    if events == [] then Trail(map[], map[])
    else
      var before := events[..|events| - 1];
      Record(Run(sha, before), events[|events| - 1], TrailOf(sha, before))
  }

  // ---- The invariant ----

  /** The package written under the key, if there is a key, is one of this extension and version. */
  predicate KeyFits(written: map<ObjectKey, Blob>, key: Option<ObjectKey>, extension: ExtensionId, version: Version) {
    key.Some? ==>
      && key.value in written && written[key.value].Staged?
      && written[key.value].extension == extension && written[key.value].version == version
  }

  /** The object holds the files that were written under the key. */
  predicate HoldsFilesOf(written: map<ObjectKey, Blob>, key: Option<ObjectKey>, blob: Blob) {
    key.Some? && key.value in written && blob.files == written[key.value].files
  }

  predicate RowTraced(written: map<ObjectKey, Blob>, row: Release) {
    KeyFits(written, row.stagingKey, row.extension, row.version)
  }

  predicate ClaimTraced(db: Database, t: Trail, snap: Snapshot) {
    && snap.release in db.releases && snap.release in t.claims
    && t.claims[snap.release] == ClaimKeys(snap.stagingKey, db.releases[snap.release].stagingKey)
  }

  predicate RequestTraced(db: Database, t: Trail, id: RequestId, request: Request) {
    && (request.UploadStored? ==>
          StagingKeyOf(id, request) in t.written && t.written[StagingKeyOf(id, request)] == StagedOf(request.upload))
    && (request.ReviewRead? || request.Holds() ==>
          KeyFits(t.written, request.snap.stagingKey, request.snap.extension, request.snap.version))
    && (request.Holds() ==> ClaimTraced(db, t, request.snap))
    && (request.Built? || request.Stored? ==> HoldsFilesOf(t.written, request.snap.stagingKey, request.official))
  }

  predicate FinalTraced(store: map<ObjectKey, Blob>, t: Trail, r: ReleaseId, row: Release) {
    && row.artifact.Some? && row.artifact.value.packageKey in store
    && r in t.claims && t.claims[r].named == row.stagingKey
    && HoldsFilesOf(t.written, t.claims[r].read, store[row.artifact.value.packageKey])
  }

  /** The upload has not stored its package yet. */
  predicate BeforePut(request: Request) {
    request.UploadStarted? || request.UploadChecked? || request.UploadPlanned?
  }

  predicate KeyTaken(s: State, key: ObjectKey) {
    key.StagingKey? && key.nonce < s.next && (key.nonce in s.requests ==> !BeforePut(s.requests[key.nonce]))
  }

  ghost predicate RowsTraced(db: Database, written: map<ObjectKey, Blob>) {
    forall r :: r in db.releases ==> RowTraced(written, db.releases[r])
  }

  ghost predicate RequestsTraced(s: State, t: Trail) {
    forall id :: id in s.requests ==> RequestTraced(s.db, t, id, s.requests[id])
  }

  ghost predicate FinalsTraced(db: Database, store: map<ObjectKey, Blob>, t: Trail) {
    forall r :: r in db.releases && Final(db.releases[r].status) ==> FinalTraced(store, t, r, db.releases[r])
  }

  /** What stands under a staging key is what was written there. */
  ghost predicate StoreTraced(store: map<ObjectKey, Blob>, written: map<ObjectKey, Blob>) {
    forall k :: k in store && k.StagingKey? ==> k in written && store[k] == written[k]
  }

  /** Every key is written at most once: its upload is past the write. */
  ghost predicate KeysTaken(s: State, written: map<ObjectKey, Blob>) {
    forall k :: k in written ==> KeyTaken(s, k)
  }

  ghost predicate TrailOk(s: State, t: Trail) {
    && StoreTraced(s.store, t.written) && KeysTaken(s, t.written)
    && RowsTraced(s.db, t.written) && RequestsTraced(s, t) && FinalsTraced(s.db, s.store, t)
  }

  // ---- Steps that add nothing to the trail ----

  /** Staged objects may go, none comes or changes. */
  ghost predicate StagingLeft(store: map<ObjectKey, Blob>, store': map<ObjectKey, Blob>) {
    forall k :: k in store' && k.StagingKey? ==> k in store && store'[k] == store[k]
  }

  /** The packages of published releases stay. */
  ghost predicate FinalsKept(db: Database, store: map<ObjectKey, Blob>, store': map<ObjectKey, Blob>) {
    forall r :: r in db.releases && Final(db.releases[r].status) && db.releases[r].artifact.Some? ==>
      ObjectKept(store, store', db.releases[r].artifact.value.packageKey)
  }

  /** The other requests are the ones before, and no upload is before its write that was past it. */
  ghost predicate OthersTraced(s: State, s': State, id: RequestId) {
    && s.next <= s'.next
    && (forall j :: j in s'.requests && j != id ==> j in s.requests && s'.requests[j] == s.requests[j])
    && (id in s'.requests && BeforePut(s'.requests[id]) ==> id >= s.next || (id in s.requests && BeforePut(s.requests[id])))
  }

  lemma {:induction false} TakenStays(s: State, s': State, id: RequestId, written: map<ObjectKey, Blob>)
    requires KeysTaken(s, written) && OthersTraced(s, s', id)
    ensures KeysTaken(s', written)
  {
    forall k | k in written ensures KeyTaken(s', k) {
      assert KeyTaken(s, k);
    }
  }

  lemma {:induction false} InPlaceKeepsKeys(db: Database, db': Database)
    requires InPlace(db, db')
    ensures KeysSame(db, db')
  {
    forall r | r in db'.releases ensures r in db.releases && db'.releases[r].stagingKey == db.releases[r].stagingKey {
      assert StaysPut(db, db', r);
    }
  }

  lemma {:induction false} RowsStayTraced(db: Database, db': Database, written: map<ObjectKey, Blob>)
    requires RowsTraced(db, written) && Evolves(db, db') && KeysSame(db, db')
    ensures RowsTraced(db', written)
  {
    forall r | r in db'.releases ensures RowTraced(written, db'.releases[r]) {
      assert RowTraced(written, db.releases[r]) && ReleaseEvolves(db, db', r);
    }
  }

  lemma {:induction false} FinalsStayTraced(db: Database, db': Database, store: map<ObjectKey, Blob>,
                                            store': map<ObjectKey, Blob>, t: Trail)
    requires FinalsTraced(db, store, t) && Evolves(db, db') && InPlace(db, db') && FinalsKept(db, store, store')
    ensures FinalsTraced(db', store', t)
  {
    forall r | r in db'.releases && Final(db'.releases[r].status) ensures FinalTraced(store', t, r, db'.releases[r]) {
      assert StaysPut(db, db', r) && ReleaseEvolves(db, db', r) && FinalTraced(store, t, r, db.releases[r]);
    }
  }

  lemma {:induction false} RequestStaysTraced(db: Database, db': Database, t: Trail, id: RequestId, request: Request)
    requires RequestTraced(db, t, id, request) && Evolves(db, db') && KeysSame(db, db')
    ensures RequestTraced(db', t, id, request)
  {
    if request.Holds() {
      assert ReleaseEvolves(db, db', request.snap.release);
    }
  }

  lemma {:induction false} QuietTrail(s: State, s': State, id: RequestId, t: Trail)
    requires TrailOk(s, t) && Evolves(s.db, s'.db) && InPlace(s.db, s'.db)
    requires StagingLeft(s.store, s'.store) && FinalsKept(s.db, s.store, s'.store)
    requires OthersTraced(s, s', id) && (id in s'.requests ==> RequestTraced(s'.db, t, id, s'.requests[id]))
    ensures TrailOk(s', t)
  {
    InPlaceKeepsKeys(s.db, s'.db);
    TakenStays(s, s', id, t.written);
    RowsStayTraced(s.db, s'.db, t.written);
    FinalsStayTraced(s.db, s'.db, s.store, s'.store, t);
    forall j | j in s'.requests ensures RequestTraced(s'.db, t, j, s'.requests[j]) {
      if j != id {
        RequestStaysTraced(s.db, s'.db, t, j, s.requests[j]);
      }
    }
  }

  /** With the tables unchanged. */
  lemma {:induction false} QuietTablesTrail(s: State, s': State, id: RequestId, t: Trail)
    requires TablesOk(s.db) && TrailOk(s, t) && s'.db == s.db
    requires StagingLeft(s.store, s'.store) && FinalsKept(s.db, s.store, s'.store)
    requires OthersTraced(s, s', id) && (id in s'.requests ==> RequestTraced(s.db, t, id, s'.requests[id]))
    ensures TrailOk(s', t)
  {
    NothingChanges(s.db, None);
    NothingMoves(s.db);
    QuietTrail(s, s', id, t);
  }

  /** A batch that writes rows in place and ends the request, or leaves it as one that adds nothing. */
  lemma {:induction false} BatchTrail(s: State, s': State, id: RequestId, t: Trail)
    requires TrailOk(s, t) && Evolves(s.db, s'.db) && InPlace(s.db, s'.db) && s'.store == s.store
    requires OthersTraced(s, s', id) && (id in s'.requests ==> RequestTraced(s.db, t, id, s'.requests[id]))
    ensures TrailOk(s', t)
  {
    InPlaceKeepsKeys(s.db, s'.db);
    if id in s'.requests {
      RequestStaysTraced(s.db, s'.db, t, id, s'.requests[id]);
    }
    QuietTrail(s, s', id, t);
  }

  // ---- Steps that add to it ----

  /** The trail only grows, and the claims of held and published releases stay. */
  ghost predicate Extends(t: Trail, t': Trail) {
    && (forall k :: k in t.written ==> k in t'.written && t'.written[k] == t.written[k])
  }

  lemma {:induction false} FitsLonger(t: Trail, t': Trail, key: Option<ObjectKey>, extension: ExtensionId,
                                      version: Version)
    requires Extends(t, t') && KeyFits(t.written, key, extension, version)
    ensures KeyFits(t'.written, key, extension, version)
  {
  }

  lemma {:induction false} RequestOfLonger(db: Database, t: Trail, t': Trail, id: RequestId, request: Request)
    requires RequestTraced(db, t, id, request) && Extends(t, t')
    requires request.Holds() ==> request.snap.release in t'.claims && t'.claims[request.snap.release] == t.claims[request.snap.release]
    ensures RequestTraced(db, t', id, request)
  {
    if request.ReviewRead? || request.Holds() {
      FitsLonger(t, t', request.snap.stagingKey, request.snap.extension, request.snap.version);
    }
  }

  lemma {:induction false} FinalOfLonger(store: map<ObjectKey, Blob>, t: Trail, t': Trail, r: ReleaseId, row: Release)
    requires FinalTraced(store, t, r, row) && Extends(t, t') && r in t'.claims && t'.claims[r] == t.claims[r]
    ensures FinalTraced(store, t', r, row)
  {
  }

  lemma {:induction false} RowsOfLonger(db: Database, t: Trail, t': Trail)
    requires RowsTraced(db, t.written) && Extends(t, t')
    ensures RowsTraced(db, t'.written)
  {
    forall r | r in db.releases ensures RowTraced(t'.written, db.releases[r]) {
      assert RowTraced(t.written, db.releases[r]);
      FitsLonger(t, t', db.releases[r].stagingKey, db.releases[r].extension, db.releases[r].version);
    }
  }

  /** The key of an upload that has not written its package yet is new. */
  lemma {:induction false} OwnKeyIsNew(s: State, id: RequestId, t: Trail)
    requires KeysTaken(s, t.written) && id in s.requests && s.requests[id].UploadPlanned?
    ensures StagingKeyOf(id, s.requests[id]) !in t.written
  {
    assert StagingKeyOf(id, s.requests[id]) in t.written ==> KeyTaken(s, StagingKeyOf(id, s.requests[id]));
  }

  function WithWritten(t: Trail, id: RequestId, request: Request): Trail
    requires request.UploadPlanned?
  {
    t.(written := t.written[StagingKeyOf(id, request) := StagedOf(request.upload)])
  }

  lemma {:induction false} PutTakesKeys(s: State, id: RequestId, t: Trail)
    requires TrailOk(s, t) && id in s.requests && id < s.next && s.requests[id].UploadPlanned?
    ensures KeysTaken(PutStagingStep(s, id, s.requests[id]), WithWritten(t, id, s.requests[id]).written)
  {
    var s' := PutStagingStep(s, id, s.requests[id]);
    forall k | k in WithWritten(t, id, s.requests[id]).written ensures KeyTaken(s', k) {
      assert k in t.written ==> KeyTaken(s, k);
    }
  }

  lemma {:induction false} PutRequestsTraced(s: State, id: RequestId, t: Trail, t': Trail)
    requires RequestsTraced(s, t) && Extends(t, t') && t'.claims == t.claims && id in s.requests && s.requests[id].UploadPlanned?
    requires StagingKeyOf(id, s.requests[id]) in t'.written
    requires t'.written[StagingKeyOf(id, s.requests[id])] == StagedOf(s.requests[id].upload)
    ensures RequestsTraced(PutStagingStep(s, id, s.requests[id]), t')
  {
    var s' := PutStagingStep(s, id, s.requests[id]);
    forall j | j in s'.requests ensures RequestTraced(s'.db, t', j, s'.requests[j]) {
      if j != id {
        assert RequestTraced(s.db, t, j, s.requests[j]);
        RequestOfLonger(s.db, t, t', j, s.requests[j]);
      }
    }
  }

  lemma {:induction false} PutTrail(s: State, id: RequestId, t: Trail)
    requires TablesOk(s.db) && TrailOk(s, t) && id in s.requests && id < s.next && s.requests[id].UploadPlanned?
    ensures TrailOk(PutStagingStep(s, id, s.requests[id]), WithWritten(t, id, s.requests[id]))
  {
    var s' := PutStagingStep(s, id, s.requests[id]);
    var t' := WithWritten(t, id, s.requests[id]);
    OwnKeyIsNew(s, id, t);
    PutTakesKeys(s, id, t);
    RowsOfLonger(s.db, t, t');
    PutRequestsTraced(s, id, t, t');
    PutFinals(s, s'.store, t, t', StagingKeyOf(id, s.requests[id]));
  }

  lemma {:induction false} PutFinals(s: State, store': map<ObjectKey, Blob>, t: Trail, t': Trail, key: ObjectKey)
    requires FinalsTraced(s.db, s.store, t) && Extends(t, t') && t'.claims == t.claims && key.StagingKey?
    requires forall k :: k in s.store && k != key ==> k in store' && store'[k] == s.store[k]
    requires TablesOk(s.db)
    ensures FinalsTraced(s.db, store', t')
  {
    forall r | r in s.db.releases && Final(s.db.releases[r].status) ensures FinalTraced(store', t', r, s.db.releases[r]) {
      assert FinalTraced(s.store, t, r, s.db.releases[r]) && ReleaseOk(s.db, r);
      FinalOfLonger(s.store, t, t', r, s.db.releases[r]);
    }
  }
}
