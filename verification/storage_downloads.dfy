/** The download list belongs to the main process: stale arrays in saved data never reach the
    file once the list is initialised. */
module StorageDownloads {
  import opened Options
  import opened StorageEngine
  import opened StorageWrites
  import opened StorageRuns
  import opened StorageAgreement
  import opened StorageOutcomes

  // ---- The list operations ----

  predicate DistinctDownloads(ds: seq<Download>) {
    forall i, j | 0 <= i < j < |ds| :: ds[i].id != ds[j].id
  }

  lemma {:induction false} WithoutDownloadHas(ds: seq<Download>, id: string, d: Download)
    ensures d in WithoutDownload(ds, id) <==> d in ds && d.id != id
  {
    if ds != [] {
      WithoutDownloadHas(ds[1..], id, d);
      assert ds == [ds[0]] + ds[1..];
    }
  }

  lemma {:induction false} WithoutDownloadDistinct(ds: seq<Download>, id: string)
    requires DistinctDownloads(ds)
    ensures DistinctDownloads(WithoutDownload(ds, id))
  {
    if ds != [] {
      WithoutDownloadDistinct(ds[1..], id);
      var rest := WithoutDownload(ds[1..], id);
      forall k | 0 <= k < |rest| ensures rest[k].id != ds[0].id {
        WithoutDownloadHas(ds[1..], id, rest[k]);
        assert rest[k] in ds[1..];
      }
    }
  }

  /** Where the entries of an upserted list come from, and which of the old ones are there when it was not full. */
  lemma {:induction false} UpsertHas(ds: seq<Download>, d: Download)
    ensures var up := UpsertInto(ds, d);
      && 0 < |up| <= MAX_DOWNLOADS && up[0] == d
      && (forall k | 0 < k < |up| :: up[k] in ds && up[k].id != d.id)
      && (|ds| < MAX_DOWNLOADS ==> forall x | x in ds && x.id != d.id :: x in up)
  {
    var rest := WithoutDownload(ds, d.id);
    var up := UpsertInto(ds, d);
    forall k | 0 < k < |up| ensures up[k] in ds && up[k].id != d.id {
      WithoutDownloadHas(ds, d.id, rest[k - 1]);
      assert up[k] == rest[k - 1];
    }
    WithoutIsShorter(ds, d.id);
    forall x | |ds| < MAX_DOWNLOADS && x in ds && x.id != d.id ensures x in up {
      WithoutDownloadHas(ds, d.id, x);
      assert up == [d] + rest;
    }
  }

  lemma {:induction false} UpsertIsDistinct(ds: seq<Download>, d: Download)
    requires DistinctDownloads(ds)
    ensures DistinctDownloads(UpsertInto(ds, d))
  {
    UpsertHas(ds, d);
    WithoutDownloadDistinct(ds, d.id);
  }

  /** An upsert puts the download first, drops every older entry of its id and keeps at most two hundred: what is
      left of the list follows in its order, and at two hundred it is the last one that falls out. */
  lemma {:induction false} UpsertIs(ds: seq<Download>, d: Download)
    ensures var up := UpsertInto(ds, d);
      && 0 < |up| <= MAX_DOWNLOADS && up[0] == d
      && (forall k | 0 < k < |up| :: up[k] in ds && up[k].id != d.id)
      && (DistinctDownloads(ds) ==> DistinctDownloads(up))
      && (|ds| < MAX_DOWNLOADS ==> forall x | x in ds && x.id != d.id :: x in up)
      && Upserted(ds, d, up)
  {
    UpsertHas(ds, d);
    UpsertIsUpserted(ds, d);
    if DistinctDownloads(ds) {
      UpsertIsDistinct(ds, d);
    }
  }

  lemma {:induction false} WithoutIsShorter(ds: seq<Download>, id: string)
    ensures |WithoutDownload(ds, id)| <= |ds|
  {
    if ds != [] {
      WithoutIsShorter(ds[1..], id);
    }
  }

  lemma {:induction false} UnfinishedHas(ds: seq<Download>, d: Download)
    ensures d in Unfinished(ds) <==> d in ds && !d.state.Finished? && !d.state.Cancelled?
  {
    if ds != [] {
      UnfinishedHas(ds[1..], d);
      assert ds == [ds[0]] + ds[1..];
    }
  }

  // ---- The list over a run ----

  /** What one task does to the list of the main process. */
  datatype Change = Put(download: Download) | Drop | Take(downloads: seq<Download>) | Leave

  function Changed(ds: seq<Download>, c: Change): seq<Download> {
    match c
    case Put(d) => UpsertInto(ds, d)
    case Drop => Unfinished(ds)
    case Take(list) => list
    case Leave => ds
  }

  /** The change of a task; whatever data a save carries, it is none. */
  function ChangeOf(task: Task, outcome: Outcome): Change {
    match task
    case SaveRenderer(_) => Leave
    case Save(_) => Leave
    case Commit(_, _) => Leave
    case Record(_, _) => Leave
    case Upsert(d) => Put(d)
    case ClearCompleted => Drop
    case Replace(data) => if outcome.Done? then Take(data.downloads) else Leave
  }

  lemma {:induction false} TaskChangesList(env: Env, s: Engine, task: Task, io: Io)
    requires s.cached.Some? && s.downloads.Some?
    ensures var step := Run(env, s, task, io);
      step.state.downloads == Some(Changed(s.downloads.value, ChangeOf(task, step.outcome)))
  {
    var current := s.cached.value;
    match task
    case SaveRenderer(data) =>
    case Save(data) =>
    case Commit(operation, merge) => CommitKeepsList(env, s, current, operation, merge, io);
    case Record(operation, e) => RecordKeepsList(env, s, current, operation, e, io);
    case Upsert(d) =>
    case ClearCompleted =>
    case Replace(data) =>
  }

  lemma {:induction false} CommitKeepsList(env: Env, s: Engine, current: Profile, operation: string,
                                           merge: Profile -> Option<Merged>, io: Io)
    ensures CommitTask(env, s, current, operation, merge, io).state.downloads == s.downloads
  {
  }

  lemma {:induction false} RecordKeepsList(env: Env, s: Engine, current: Profile, operation: string,
                                           e: ExtensionReceipt, io: Io)
    ensures RecordTask(env, s, current, operation, e, io).state.downloads == s.downloads
  {
  }

  /** The change of an event: loads and their saves make none. */
  function EventChange(env: Env, w: World, e: Event): Change {
    if e.RunTask? then ChangeOf(e.task, Run(env, w.engine, e.task, e.io).outcome) else Leave
  }

  /** The changes of the events from state `i` to state `n` folded in their order. */
  function Folded(env: Env, h: History, ds: seq<Download>, i: nat, n: nat): seq<Download>
    requires i <= n <= |h.events| && |h.states| == |h.events| + 1
  {
    if n == i then ds else Changed(Folded(env, h, ds, i, n - 1), EventChange(env, h.states[n - 1], h.events[n - 1]))
  }

  lemma {:induction false} StepChangesList(env: Env, w: World, e: Event)
    requires w.engine.cached.Some? && w.engine.downloads.Some?
    ensures Apply(env, w, e).engine.downloads == Some(Changed(w.engine.downloads.value, EventChange(env, w, e)))
  {
    match e
    case RunTask(task, io) => TaskChangesList(env, w.engine, task, io);
    case SaveLoaded(id, io) => if IsSaving(w, id) { WriteShape(env, w.engine, w.loads[id].data, false, io); }
    case _ =>
  }

  /** Over any run, with loads interleaved at will, the list is the fold of the upserts, clears and replacements. */
  lemma {:induction false} ListIsFolded(env: Env, h: History, i: nat, n: nat)
    requires Lawful(env) && IsRun(env, h) && i <= n <= |h.events|
    requires h.states[i].engine.cached.Some? && h.states[i].engine.downloads.Some?
    ensures h.states[n].engine.cached.Some?
    ensures h.states[n].engine.downloads == Some(Folded(env, h, h.states[i].engine.downloads.value, i, n))
  {
    if i < n {
      ListIsFolded(env, h, i, n - 1);
      assert StepAt(env, h, n - 1);
      StepChangesList(env, h.states[n - 1], h.events[n - 1]);
      StepStaysLoaded(env, h.states[n - 1], h.events[n - 1]);
    }
  }

  /** Whatever writes, a save, an import commit, a recorded result, a download operation, a replacement or a
      load, and whatever downloads its data had: the stored downloads are the clean form of the fold. */
  lemma {:induction false} StoredDownloadsAreFolded(env: Env, h: History, i: nat, n: nat)
    requires Lawful(env) && IsRun(env, h) && i <= n < |h.events|
    requires h.states[i].engine.cached.Some? && h.states[i].engine.downloads.Some?
    requires !Installs(env, h.states[n], h.events[n]) && !Unwritten(h.states[n].engine, h.states[n + 1].engine)
    ensures var t := h.states[n + 1].engine;
      && t.file.Holds? && t.cached == Some(t.file.data)
      && t.file.data.downloads == env.validDownloads(Folded(env, h, h.states[i].engine.downloads.value, i, n + 1))
  {
    ListIsFolded(env, h, i, n + 1);
    assert StepAt(env, h, n);
    StepShape(env, h.states[n], h.events[n]);
  }

  lemma {:induction false} DoneIsAsked(env: Env, s: Engine, task: Task, io: Io)
    requires Mirrored(s) && Run(env, s, task, io).outcome.Done?
    ensures var t := Run(env, s, task, io).state;
      && Asked(s, task).Some? && t.cached.Some? && t.cached == env.normalize(Asked(s, task).value)
      && (t.downloads.Some? ==> Asked(s, task).value.downloads == t.downloads.value)
  {
  }

  /** A task that is done without a write, since its text was the last one written, finds them there: while
      file and cache are in tune the normalised file has the clean form of the fold. */
  lemma {:induction false} DoneHasFoldedDownloads(env: Env, h: History, i: nat, n: nat)
    requires Lawful(env) && IsRun(env, h) && AllInTune(env, h) && i <= n < |h.events| && h.events[n].RunTask?
    requires h.states[i].engine.cached.Some? && h.states[i].engine.downloads.Some?
    requires Run(env, h.states[n].engine, h.events[n].task, h.events[n].io).outcome.Done?
    ensures var t := h.states[n + 1].engine;
      && t.file.Holds? && env.normalize(t.file.data) == t.cached && t.cached.Some?
      && t.cached.value.downloads == env.validDownloads(Folded(env, h, h.states[i].engine.downloads.value, i, n + 1))
  {
    ListIsFolded(env, h, i, n + 1);
    assert StepAt(env, h, n);
    ReachableIsMirrored(env, h, n);
    DoneIsAsked(env, h.states[n].engine, h.events[n].task, h.events[n].io);
    DoneLeavesFile(env, h, n);
  }

  lemma {:induction false} DoneLeavesFile(env: Env, h: History, n: nat)
    requires IsRun(env, h) && AllInTune(env, h) && n < |h.events| && h.events[n].RunTask?
    requires Run(env, h.states[n].engine, h.events[n].task, h.events[n].io).outcome.Done?
    ensures var t := h.states[n + 1].engine; t.file.Holds? && t.cached.Some? && env.normalize(t.file.data) == t.cached
  {
    assert StepAt(env, h, n);
    RunAgreesIff(env, h);
    ReachableIsMirrored(env, h, n);
    ReachableIsRooted(env, h, n);
    DoneIsAsked(env, h.states[n].engine, h.events[n].task, h.events[n].io);
    DoneHasFile(env, h.states[n].engine, h.events[n].task, h.events[n].io);
    assert Agreed(env, h.states[n + 1].engine);
  }

  lemma {:induction false} DoneHasFile(env: Env, s: Engine, task: Task, io: Io)
    requires (!s.file.Holds? ==> s.lastWritten.None?) && Run(env, s, task, io).outcome.Done?
    ensures Run(env, s, task, io).state.file.Holds?
  {
  }
}
