/** File and cache over all runs.  Whether they agree is settled by the last step that set the cache: a
    write, whose contents must be normalised to themselves, or the end of a load, which must install what
    the file normalises to by then. */
module StorageAgreement {
  import opened Options
  import opened StorageEngine
  import opened StorageSteps
  import opened StorageWrites
  import opened StorageRuns

  /** The normalised file is the cache, if anything is cached; a file that was never written may be missing. */
  ghost predicate Agreed(env: Env, s: Engine) {
    s.cached.Some? ==> Agrees(env, s) || (s.file.Missing? && s.lastWritten.None?)
  }

  // ---- One step ----

  /** Files do not disappear: what a load has read of a missing file is that it is missing. */
  predicate ReadFits(file: File, load: Load) {
    && (file.Missing? && load.HasRead? ==> load.raw.Missing?)
    && (file.Corrupt? && load.HasRead? ==> load.raw.Corrupt?)
  }

  ghost predicate Rooted(w: World) {
    && (!w.engine.file.Holds? ==> w.engine.lastWritten.None?)
    && (w.engine.file.Corrupt? ==> w.engine.cached.None?)
    && forall id | id in w.loads :: ReadFits(w.engine.file, w.loads[id])
  }

  predicate Installs(env: Env, w: World, e: Event) {
    e.InstallLoad? && IsRead(w, e.id) && Installable(env, w.loads[e.id].raw)
  }

  /** The step sets the cache: a load installs, or a write takes place. */
  ghost predicate Sets(env: Env, w: World, e: Event) {
    Installs(env, w, e) || !Unwritten(w.engine, Apply(env, w, e).engine)
  }

  /** What a load installs is what the file normalises to by then; what is written is normalised to itself. */
  ghost predicate InTune(env: Env, w: World, e: Event) {
    if Installs(env, w, e) then w.engine.file.Holds? ==> env.normalize(w.engine.file.data) == Some(Loaded(env, w.loads[e.id].raw))
    else var t := Apply(env, w, e).engine; t.cached.Some? && env.normalize(t.cached.value) == t.cached
  }

  /** The profile a step asks to write. */
  function AskedBy(w: World, e: Event): Option<Profile> {
    if e.RunTask? then Asked(w.engine, e.task)
    else if e.SaveLoaded? && IsSaving(w, e.id) then Some(Owned(w.engine, w.loads[e.id].data))
    else None
  }

  /** A step that does not install writes what it asks, with the main process's downloads, or nothing. */
  lemma {:induction false} StepShape(env: Env, w: World, e: Event)
    requires !Installs(env, w, e)
    ensures var t := Apply(env, w, e).engine;
      || Unwritten(w.engine, t)
      || (&& AskedBy(w, e).Some? && Wrote(env, t, AskedBy(w, e).value)
          && (t.downloads.Some? ==> AskedBy(w, e).value.downloads == t.downloads.value))
  {
    match e
    case RunTask(task, io) => TaskShape(env, w.engine, task, io);
    case SaveLoaded(id, io) => if IsSaving(w, id) { WriteShape(env, w.engine, w.loads[id].data, false, io); }
    case _ =>
  }

  lemma {:induction false} StepIsRooted(env: Env, w: World, e: Event)
    requires Rooted(w)
    ensures Rooted(Apply(env, w, e))
  {
    var w' := Apply(env, w, e);
    if Installs(env, w, e) {
      assert ReadFits(w.engine.file, w.loads[e.id]);
    } else {
      StepShape(env, w, e);
    }
    forall id | id in w'.loads ensures ReadFits(w'.engine.file, w'.loads[id]) {
      assert id in w.loads ==> ReadFits(w.engine.file, w.loads[id]);
    }
  }

  /** After a step that sets the cache file and cache agree exactly when the step is in tune; any other
      step, refused, failed and skipped writes included, leaves them as they were. */
  lemma {:induction false} StepAgreesIff(env: Env, w: World, e: Event)
    requires Rooted(w)
    ensures Agreed(env, Apply(env, w, e).engine) <==> if Sets(env, w, e) then InTune(env, w, e) else Agreed(env, w.engine)
  {
    if Installs(env, w, e) {
      assert ReadFits(w.engine.file, w.loads[e.id]);
    } else {
      StepShape(env, w, e);
    }
  }

  // ---- Runs ----

  lemma {:induction false} ReachableIsRooted(env: Env, h: History, i: nat)
    requires IsRun(env, h) && i <= |h.events|
    ensures Rooted(h.states[i])
  {
    if i > 0 {
      ReachableIsRooted(env, h, i - 1);
      assert StepAt(env, h, i - 1);
      StepIsRooted(env, h.states[i - 1], h.events[i - 1]);
    }
  }

  /** The last step before state `i` that set the cache. */
  ghost function LastSet(env: Env, h: History, i: nat): (r: Option<nat>)
    requires |h.states| == |h.events| + 1 && i <= |h.events|
    ensures r.Some? ==> r.value < i && Sets(env, h.states[r.value], h.events[r.value])
    ensures forall k: nat | (r.Some? ==> r.value < k) && k < i :: !Sets(env, h.states[k], h.events[k])
  {
    if i == 0 then None
    else if Sets(env, h.states[i - 1], h.events[i - 1]) then Some(i - 1)
    else LastSet(env, h, i - 1)
  }

  /** In every state of every run, with loads interleaved at will: file and cache agree exactly when the
      last step that set the cache was in tune. */
  lemma {:induction false} CacheAgreesIff(env: Env, h: History, i: nat)
    requires IsRun(env, h) && i <= |h.events|
    ensures var last := LastSet(env, h, i);
      Agreed(env, h.states[i].engine) <==> (last.Some? ==> InTune(env, h.states[last.value], h.events[last.value]))
  {
    if i > 0 {
      CacheAgreesIff(env, h, i - 1);
      ReachableIsRooted(env, h, i - 1);
      assert StepAt(env, h, i - 1);
      StepAgreesIff(env, h.states[i - 1], h.events[i - 1]);
    }
  }

  ghost predicate AllInTune(env: Env, h: History)
    requires |h.states| == |h.events| + 1
  {
    forall i: nat | i < |h.events| && Sets(env, h.states[i], h.events[i]) :: InTune(env, h.states[i], h.events[i])
  }

  /** File and cache agree in all states of a run exactly when every step that sets the cache is in tune. */
  lemma {:induction false} RunAgreesIff(env: Env, h: History)
    requires IsRun(env, h)
    ensures (forall i: nat | i <= |h.events| :: Agreed(env, h.states[i].engine)) <==> AllInTune(env, h)
  {
    if AllInTune(env, h) {
      forall i: nat | i <= |h.events| ensures Agreed(env, h.states[i].engine) {
        CacheAgreesIff(env, h, i);
      }
    }
    if forall i: nat | i <= |h.events| :: Agreed(env, h.states[i].engine) {
      forall i: nat | i < |h.events| && Sets(env, h.states[i], h.events[i]) ensures InTune(env, h.states[i], h.events[i]) {
        CacheAgreesIff(env, h, i + 1);
      }
    }
  }

  // ---- Accepted saves ----

  /** The last text written is that of the cache. */
  predicate Mirrored(s: Engine) {
    (s.lastWritten.Some? ==> s.lastWritten == s.cached) && (s.cached.None? ==> s.lastWritten.None?)
  }

  lemma {:induction false} StepIsMirrored(env: Env, w: World, e: Event)
    requires Rooted(w) && Mirrored(w.engine) && Agreed(env, w.engine) && (Sets(env, w, e) ==> InTune(env, w, e))
    ensures Mirrored(Apply(env, w, e).engine)
  {
    if Installs(env, w, e) {
      assert ReadFits(w.engine.file, w.loads[e.id]);
    } else {
      StepShape(env, w, e);
    }
  }

  lemma {:induction false} ReachableIsMirrored(env: Env, h: History, i: nat)
    requires IsRun(env, h) && AllInTune(env, h) && i <= |h.events|
    ensures Mirrored(h.states[i].engine)
  {
    if i > 0 {
      ReachableIsMirrored(env, h, i - 1);
      ReachableIsRooted(env, h, i - 1);
      RunAgreesIff(env, h);
      assert StepAt(env, h, i - 1);
      StepIsMirrored(env, h.states[i - 1], h.events[i - 1]);
    }
  }

  lemma {:induction false} AcceptedIsCached(env: Env, s: Engine, data: Profile, io: Io)
    requires Mirrored(s) && WriteData(env, s, data, false, io).error.None?
    ensures var t := WriteData(env, s, data, false, io).state; t.cached.Some? && t.cached == env.normalize(Owned(s, data))
  {
  }

  /** While every step is in tune an accepted save, skipped or not, is in the file. */
  lemma {:induction false} AcceptedSaveIsInFile(env: Env, h: History, i: nat)
    requires IsRun(env, h) && AllInTune(env, h) && i < |h.events| && h.events[i].RunTask? && h.events[i].task.Save?
    requires Run(env, h.states[i].engine, h.events[i].task, h.events[i].io).outcome.Done?
    ensures var s, t := h.states[i].engine, h.states[i + 1].engine;
            var next := env.normalize(Owned(s, h.events[i].task.data));
      next.Some? && t.file.Holds? && env.normalize(t.file.data) == next
  {
    var s, t := h.states[i].engine, h.states[i + 1].engine;
    assert StepAt(env, h, i);
    ReachableIsMirrored(env, h, i);
    ReachableIsRooted(env, h, i);
    RunAgreesIff(env, h);
    AcceptedIsCached(env, s, h.events[i].task.data, h.events[i].io);
    assert Agreed(env, t);
  }

  // ---- Loads that install what the file still holds ----

  /** The file still holds what the load read: no write with other contents has succeeded since. */
  predicate Current(w: World, e: Event) {
    e.InstallLoad? && IsRead(w, e.id) ==> w.loads[e.id].raw == w.engine.file
  }

  ghost predicate AllCurrent(h: History)
    requires |h.states| == |h.events| + 1
  {
    forall i: nat | i < |h.events| :: Current(h.states[i], h.events[i])
  }

  lemma {:induction false} ReachableIsCoherent(env: Env, h: History, i: nat)
    requires Lawful(env) && IsRun(env, h) && AllCurrent(h) && i <= |h.events|
    ensures Coherent(env, h.states[i].engine)
  {
    if i > 0 {
      ReachableIsCoherent(env, h, i - 1);
      var w := h.states[i - 1];
      assert StepAt(env, h, i - 1) && Current(w, h.events[i - 1]);
      match h.events[i - 1]
      case InstallLoad(id, backup, io) => if IsRead(w, id) { InstallKeepsCoherence(env, w.engine, backup, io); }
      case SaveLoaded(id, io) => if IsSaving(w, id) { WriteKeepsCoherence(env, w.engine, w.loads[id].data, false, io); }
      case RunTask(task, io) => RunKeepsCoherence(env, w.engine, task, io);
      case _ =>
    }
  }

  /** Such loads are in time and in tune. */
  lemma {:induction false} CurrentIsTimely(env: Env, h: History)
    requires Lawful(env) && IsRun(env, h) && AllCurrent(h)
    ensures AllTimely(env, h)
    ensures forall i: nat | i < |h.events| && Installs(env, h.states[i], h.events[i]) :: InTune(env, h.states[i], h.events[i])
  {
    forall i: nat | i < |h.events| ensures Timely(env, h.states[i], h.events[i]) {
      ReachableIsCoherent(env, h, i);
      CoherentIsLevel(env, h.states[i].engine);
      assert Current(h.states[i], h.events[i]);
    }
    forall i: nat | i < |h.events| && Installs(env, h.states[i], h.events[i]) ensures InTune(env, h.states[i], h.events[i]) {
      assert Current(h.states[i], h.events[i]);
    }
  }
}
