/** The engine as the module variables and the file that queued tasks update in place.  Every operation
    is the step of the same name, keeps file and cache coherent, and says what its caller may rely on. */
module StorageStore {
  import opened Options
  import opened Selections
  import opened StorageEngine
  import opened StorageSteps
  import opened StorageWrites
  import opened StorageCommits
  import opened StorageOutcomes

  class ProfileStore {
    const env: Env
    var file: File
    var cachedData: Option<Profile>
    var lastWritten: Option<Profile>
    var mainDownloads: Option<seq<Download>>

    function State(): Engine
      reads this
    {
      Engine(file, cachedData, lastWritten, mainDownloads)
    }

    /** The cache is what was last written and what the file carries. */
    ghost predicate Valid()
      reads this
    {
      Lawful(env) && Coherent(env, State())
    }

    constructor (env: Env, file: File)
      requires Lawful(env)
      ensures Valid() && this.env == env && State() == Engine(file, None, None, None)
    {
      this.env, this.file := env, file;
      cachedData, lastWritten, mainDownloads := None, None, None;
    }

    /** The guarded write: generation, normal form, comparison with the last text, file, cache. */
    method WriteData(data: Profile, advance: bool, io: Io) returns (error: Option<StoreError>)
      requires Valid()
      modifies this
      ensures Valid()
      ensures Written(State(), error) == StorageEngine.WriteData(env, old(State()), data, advance, io)
      ensures mainDownloads == old(mainDownloads)
      ensures error.Some? ==> State() == old(State())
      ensures (&& old(lastWritten).Some? && env.normalize(Owned(old(State()), data)) == old(lastWritten)
               && Generation(data) == CachedGeneration(old(State())) + (if advance then 1 else 0))
              ==> error.None? && State() == old(State())
      ensures error.None? ==>
        && cachedData.Some? && cachedData.value.importState == data.importState
        && CachedGeneration(State()) == CachedGeneration(old(State())) + (if advance then 1 else 0)
        && FileCarries(env, file, cachedData.value)
        && (mainDownloads.Some? ==> cachedData.value.downloads == env.validDownloads(mainDownloads.value))
    {
      ghost var s := State();
      WriteKeepsCoherence(env, s, data, advance, io);
      CoherentIsLevel(env, s);
      WriteGeneration(env, s, data, advance, io);
      if StorageEngine.WriteData(env, s, data, advance, io).error.None? {
        WriteInstalls(env, s, data, advance, io);
        WriteCaches(env, s, data, advance, io);
      }
      var expected := if cachedData.Some? then Generation(cachedData.value) else 0;
      if Generation(data) != expected + (if advance then 1 else 0) {
        return Some(StaleGeneration);
      }
      var next := env.normalize(if mainDownloads.Some? then data.(downloads := mainDownloads.value) else data);
      if next.None? {
        return Some(InvalidData);
      }
      if lastWritten == next {
        return None;
      }
      if !io.write {
        return Some(FileFailed);
      }
      file := Holds(next.value);
      cachedData := next;
      lastWritten := next;
      error := None;
    }

    /** A plain save: nothing, or the data's import state in the same generation. */
    method SaveData(data: Profile, io: Io) returns (outcome: Outcome)
      requires Valid()
      modifies this
      ensures Valid()
      ensures Step(State(), outcome, false) == Run(env, old(State()), Save(data), io)
      ensures CachedGeneration(State()) == CachedGeneration(old(State())) && mainDownloads == old(mainDownloads)
      ensures outcome.Failed? ==> State() == old(State())
      ensures outcome.Done? <==> Generation(data) == CachedGeneration(old(State())) && Writable(env, old(State()), Owned(old(State()), data), io)
      ensures outcome.Done? ==> Landed(env, old(State()), State(), Owned(old(State()), data))
      ensures outcome.Done? ==> cachedData.Some? && cachedData.value.importState == data.importState
    {
      SaveIff(env, State(), data, io);
      var error := WriteData(data, false, io);
      outcome := if error.Some? then Failed(error.value) else Done;
    }

    /** A renderer save keeps the import state and the main process's downloads, whatever its data holds. */
    method SaveRendererData(data: Profile, io: Io) returns (outcome: Outcome)
      requires Valid() && cachedData.Some?
      modifies this
      ensures Valid() && cachedData.Some?
      ensures Step(State(), outcome, false) == Run(env, old(State()), SaveRenderer(data), io)
      ensures cachedData.value.importState == old(cachedData).value.importState
      ensures old(mainDownloads).Some? ==> mainDownloads == old(mainDownloads)
      ensures outcome.Failed? ==> file == old(file) && cachedData == old(cachedData) && lastWritten == old(lastWritten)
      ensures outcome.Done? ==> mainDownloads.Some? && cachedData.value.downloads == env.validDownloads(mainDownloads.value)
      ensures var asked := data.(downloads := MainDownloads(old(State()), old(cachedData).value));
        && (outcome.Done? <==> data.importState == old(cachedData).value.importState && Writable(env, old(State()), asked, io))
        && (outcome.Done? ==> Landed(env, old(State()), State(), asked))
    {
      SaveRendererIff(env, State(), data, io);
      var current := cachedData.value;
      if data.importState != current.importState {
        return Failed(StaleImportState);
      }
      if mainDownloads.None? {
        mainDownloads := Some(current.downloads);
      }
      var error := WriteData(data.(downloads := mainDownloads.value), false, io);
      outcome := if error.Some? then Failed(error.value) else Done;
    }

    /** An import: one generation more with its receipt, or nothing; a repeated one changes nothing and
        answers with the stored receipt. */
    method CommitImportData(operation: string, merge: Profile -> Option<Merged>, io: Io) returns (outcome: Outcome, merged: bool)
      requires Valid() && cachedData.Some?
      modifies this
      ensures Valid() && cachedData.Some? && mainDownloads == old(mainDownloads)
      ensures Step(State(), outcome, merged) == Run(env, old(State()), Commit(operation, merge), io)
      ensures !merged ==> State() == old(State())
      ensures State() == old(State()) || CachedGeneration(State()) == CachedGeneration(old(State())) + 1
      ensures outcome.Failed? && outcome.error != ReadBackFailed ==> State() == old(State())
      ensures outcome.Committed? ==>
        && ReceiptOf(cachedData.value) == Some(outcome.receipt) && outcome.receipt.operationId == operation
        && outcome.generation == CachedGeneration(State())
        && (merged ==> outcome.data == cachedData.value && outcome.generation == CachedGeneration(old(State())) + 1)
      ensures var current := old(cachedData).value;
        !NamesImport(current, operation) && merge(current).Some? && MergeOk(env, current, operation, merge(current).value) ==>
          CommitsNew(env, old(State()), Owned(old(State()), Started(current, merge(current).value)), merge(current).value, io,
                     Step(State(), outcome, merged))
    {
      if !NamesImport(cachedData.value, operation) && merge(cachedData.value).Some? && MergeOk(env, cachedData.value, operation, merge(cachedData.value).value) {
        CommitIff(env, State(), operation, merge, io);
      }
      var current := cachedData.value;
      if ReceiptOf(current).Some? && ReceiptOf(current).value.operationId == operation {
        outcome := ReadReceiptBack(current, operation, io);
        return outcome, false;
      }
      merged := true;
      var result := merge(current);
      if result.None? {
        return Failed(MergeFailed), merged;
      }
      var m := result.value;
      if m.receipt.operationId != operation || !env.validReceipt(Generation(current) + 1, m.receipt) {
        return Failed(InvalidReceipt), merged;
      }
      if m.data.importState.Some? && m.data.importState.value.generation != Generation(current) {
        return Failed(ForgedGeneration), merged;
      }
      var error := WriteData(Candidate(current, m), true, io);
      if error.Some? {
        WriteNeedsNoReadBack(env, old(State()), Candidate(current, m), true, io);
        return Failed(error.value), merged;
      }
      var disk := ReadBack(env, State(), io);
      if disk.None? || ReceiptOf(disk.value).None? || ReceiptOf(disk.value).value.operationId != operation
        || Generation(disk.value) != Generation(current) + 1 || disk != cachedData
      {
        return Failed(ReadBackFailed), merged;
      }
      outcome := Committed(disk.value, m.receipt, Generation(current) + 1);
    }

    /** The answer to a repeated operation. */
    method ReadReceiptBack(current: Profile, operation: string, io: Io) returns (outcome: Outcome)
      requires ReceiptOf(current).Some? && ReceiptOf(current).value.operationId == operation
      ensures Step(State(), outcome, false) == CommitAgain(env, State(), current, ReceiptOf(current).value, io)
    {
      var disk := ReadBack(env, State(), io);
      if disk.None? || ReceiptOf(disk.value).None? || ReceiptOf(disk.value).value.operationId != operation
        || Generation(disk.value) != Generation(current)
      {
        return Failed(ReadBackFailed);
      }
      outcome := Committed(disk.value, ReceiptOf(current).value, Generation(disk.value));
    }

    /** A recorded result keeps generation and receipt; a new one is in the import state afterwards, and a
        final one that was there already is the answer. */
    method RecordImportExtensionResult(operation: string, e: ExtensionReceipt, io: Io) returns (outcome: Outcome)
      requires Valid() && cachedData.Some?
      modifies this
      ensures Valid() && cachedData.Some? && mainDownloads == old(mainDownloads)
      ensures Step(State(), outcome, false) == Run(env, old(State()), Record(operation, e), io)
      ensures CachedGeneration(State()) == CachedGeneration(old(State())) && ReceiptOf(cachedData.value) == ReceiptOf(old(cachedData).value)
      ensures outcome.Failed? && outcome.error != ReadBackFailed ==> State() == old(State())
      ensures outcome.Recorded? ==> cachedData.value.importState.Some? && old(cachedData).value.importState.Some?
      ensures outcome.Recorded? ==>
        || (State() == old(State()) && FindReceipt(Receipts(cachedData.value.importState.value), e.id) == Some(outcome.extension))
        || (outcome.extension == e && cachedData.value.importState.value == RecordIn(old(cachedData).value.importState.value, e))
      ensures env.validExtension(e) && NamesImport(old(cachedData).value, operation) ==>
        var i := old(cachedData).value.importState.value;
        && (forall r | Answered(i, e.id, r) :: outcome == Recorded(r))
        && ((forall r :: !Answered(i, e.id, r)) && e.id in Pending(i) ==>
              RecordsNew(env, old(State()), Owned(old(State()), old(cachedData).value.(importState := Some(RecordIn(i, e)))), e, io,
                         Step(State(), outcome, false)))
    {
      if NamesImport(cachedData.value, operation) {
        AnsweredIff(cachedData.value.importState.value, e.id);
        if e.id in Pending(cachedData.value.importState.value) {
          RecordNewIff(env, State(), cachedData.value.importState.value, e, io);
        }
      }
      if !env.validExtension(e) {
        return Failed(InvalidReceipt);
      }
      var current := cachedData.value;
      if ReceiptOf(current).None? || ReceiptOf(current).value.operationId != operation {
        return Failed(NoSuchImport);
      }
      var i := current.importState.value;
      var prior := FindReceipt(Receipts(i), e.id);
      if prior.Some? && !prior.value.status.NotInstalled? {
        return Recorded(prior.value);
      }
      if e.id !in Pending(i) {
        return Failed(NotSelected);
      }
      var candidate := current.(importState := Some(RecordIn(i, e)));
      var error := WriteData(candidate, false, io);
      if error.Some? {
        WriteNeedsNoReadBack(env, old(State()), candidate, false, io);
        return Failed(error.value);
      }
      var disk := ReadBack(env, State(), io);
      if disk.None? || disk.value.importState != candidate.importState {
        return Failed(ReadBackFailed);
      }
      outcome := Recorded(e);
    }

    /** An upsert puts the download first in the main list, even when the write fails. */
    method UpsertDownload(d: Download, io: Io) returns (outcome: Outcome)
      requires Valid() && cachedData.Some?
      modifies this
      ensures Valid() && cachedData.Some?
      ensures Step(State(), outcome, false) == Run(env, old(State()), Upsert(d), io)
      ensures mainDownloads.Some? && 0 < |mainDownloads.value| <= MAX_DOWNLOADS && mainDownloads.value[0] == d
      ensures cachedData.value.importState == old(cachedData).value.importState
      ensures Upserted(MainDownloads(old(State()), old(cachedData).value), d, mainDownloads.value)
      ensures KeepsList(env, old(State()), old(cachedData).value, mainDownloads.value, io, Step(State(), outcome, false))
      ensures outcome.Done? ==> cachedData.value.downloads == env.validDownloads(mainDownloads.value)
    {
      UpsertIff(env, State(), d, io);
      var current := cachedData.value;
      var others := WithoutDownload(if mainDownloads.Some? then mainDownloads.value else current.downloads, d.id);
      mainDownloads := Some(Bounded([d] + others));
      var error := WriteData(current.(downloads := mainDownloads.value), false, io);
      outcome := if error.Some? then Failed(error.value) else Done;
    }

    /** A clear leaves the unfinished downloads, even when the write fails. */
    method ClearCompletedDownloads(io: Io) returns (outcome: Outcome)
      requires Valid() && cachedData.Some?
      modifies this
      ensures Valid() && cachedData.Some?
      ensures Step(State(), outcome, false) == Run(env, old(State()), ClearCompleted, io)
      ensures mainDownloads.Some? && Selects(MainDownloads(old(State()), old(cachedData).value), IsUnfinished, mainDownloads.value)
      ensures cachedData.value.importState == old(cachedData).value.importState
      ensures KeepsList(env, old(State()), old(cachedData).value, mainDownloads.value, io, Step(State(), outcome, false))
      ensures outcome.Done? ==> cachedData.value.downloads == env.validDownloads(mainDownloads.value)
    {
      ClearIff(env, State(), io);
      var current := cachedData.value;
      var left := Unfinished(if mainDownloads.Some? then mainDownloads.value else current.downloads);
      mainDownloads := Some(left);
      var error := WriteData(current.(downloads := left), false, io);
      outcome := if error.Some? then Failed(error.value) else Done;
    }

    /** A replacement from an import file or a backup: a generation without an import and the data's own
        downloads, or nothing at all. */
    method ReplaceData(data: Profile, io: Io) returns (outcome: Outcome)
      requires Valid() && cachedData.Some?
      modifies this
      ensures Valid() && cachedData.Some?
      ensures Step(State(), outcome, false) == Run(env, old(State()), Replace(data), io)
      ensures outcome.Failed? ==> State() == old(State())
      ensures outcome.Done? <==> io.backup && Writable(env, old(State()), Replacement(old(cachedData).value, data), io)
      ensures outcome.Done? ==> Landed(env, old(State()), State(), Replacement(old(cachedData).value, data))
      ensures outcome.Done? ==>
        && CachedGeneration(State()) == CachedGeneration(old(State())) + 1 && ReceiptOf(cachedData.value) == None
        && mainDownloads == Some(data.downloads) && cachedData.value.downloads == env.validDownloads(data.downloads)
    {
      ReplaceIff(env, State(), data, io);
      if !io.backup {
        return Failed(BackupFailed);
      }
      var next := data.(importState := Some(ImportState(Generation(cachedData.value) + 1, Idle, None, None, None)));
      var prior := mainDownloads;
      mainDownloads := Some(next.downloads);
      var error := WriteData(next, true, io);
      if error.Some? {
        mainDownloads := prior;
        return Failed(error.value);
      }
      outcome := Done;
    }

    /** The end of a read: installs what was read, and says what is still to be saved.  The store stays
        coherent when the file still holds what was read. */
    method InstallRead(raw: File, backup: Option<Profile>, io: Io) returns (next: Option<Load>)
      requires Valid()
      modifies this
      ensures LoadEnd(State(), next) == Install(env, old(State()), raw, backup, io)
      ensures raw == file ==> Valid()
      ensures file == old(file) && mainDownloads == old(mainDownloads)
      ensures Installable(env, raw) ==> cachedData == Some(Loaded(env, raw))
      ensures !Installable(env, raw) ==> State() == old(State())
      ensures next.Some? ==> next.value.Saving?
    {
      if raw == file {
        InstallKeepsCoherence(env, State(), backup, io);
      }
      if raw.Missing? {
        cachedData := Some(env.initial);
        return Some(Saving(env.initial, false));
      }
      var loaded := if raw.Holds? then env.normalize(raw.data) else None;
      if loaded.None? {
        if !io.backup {
          return None;
        }
        return Some(Saving(if backup.Some? then backup.value else env.initial, true));
      }
      cachedData := loaded;
      if loaded.value.schemaVersion == raw.data.schemaVersion {
        lastWritten := cachedData;
        return None;
      }
      next := Some(Saving(loaded.value, false));
    }

    /** A load that nothing interrupts. */
    method LoadData(backup: Option<Profile>, io: Io) returns (error: Option<StoreError>)
      requires Valid()
      modifies this
      ensures Valid()
      ensures Written(State(), error) == LoadAlone(env, old(State()), backup, io)
      ensures mainDownloads == old(mainDownloads)
      ensures old(cachedData).Some? ==> State() == old(State()) && error.None?
      ensures error.None? ==> cachedData.Some?
      ensures old(cachedData).None? && error.None? ==>
        file.Holds? && lastWritten == cachedData && file.data.schemaVersion == cachedData.value.schemaVersion
    {
      if cachedData.Some? {
        return None;
      }
      if !io.read {
        return Some(FileFailed);
      }
      var usable := Installable(env, file);
      var next := InstallRead(file, backup, io);
      if next.None? {
        return if usable then None else Some(BackupFailed);
      }
      error := WriteData(next.value.data, false, io);
    }
  }

  /** A write fails before anything is read back. */
  lemma {:induction false} WriteNeedsNoReadBack(env: Env, s: Engine, data: Profile, advance: bool, io: Io)
    ensures WriteData(env, s, data, advance, io).error != Some(ReadBackFailed)
  {
  }
}
