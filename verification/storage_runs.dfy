/** Whole runs of the engine: queued tasks in queue order, and loads, which read the file and
    install what they read outside the queue, at two moments with anything in between. */
module StorageRuns {
  import opened Options
  import opened StorageEngine
  import opened StorageSteps
  import opened StorageWrites

  datatype World = World(engine: Engine, loads: map<nat, Load>)

  /** `OverwriteLoad` is an install while a write is under way that then succeeds. */
  datatype Event =
    | StartLoad(id: nat)
    | ReadFile(id: nat, works: bool)
    | InstallLoad(id: nat, backup: Option<Profile>, io: Io)
    | OverwriteLoad(id: nat, io: Io)
    | SaveLoaded(id: nat, io: Io)
    | RunTask(task: Task, io: Io)

  function Goes(loads: map<nat, Load>, id: nat, next: Option<Load>): map<nat, Load> {
    if next.Some? then loads[id := next.value] else loads - {id}
  }

  predicate IsStarting(w: World, id: nat) {
    id in w.loads && w.loads[id].Starting?
  }

  predicate IsRead(w: World, id: nat) {
    id in w.loads && w.loads[id].HasRead?
  }

  predicate IsSaving(w: World, id: nat) {
    id in w.loads && w.loads[id].Saving?
  }

  function Apply(env: Env, w: World, e: Event): World {
    match e
    case StartLoad(id) =>
      if w.engine.cached.None? && id !in w.loads then w.(loads := w.loads[id := Starting]) else w
    case ReadFile(id, works) =>
      if IsStarting(w, id) then w.(loads := Goes(w.loads, id, if works then Some(HasRead(w.engine.file)) else None)) else w
    case InstallLoad(id, backup, io) =>
      if IsRead(w, id) then
        var end := Install(env, w.engine, w.loads[id].raw, backup, io);
        World(end.state, Goes(w.loads, id, end.next))
      else w
    case OverwriteLoad(id, io) =>
      if IsRead(w, id) && w.engine.cached.Some? && Installable(env, w.loads[id].raw)
      then w.(loads := Goes(w.loads, id, Install(env, w.engine, w.loads[id].raw, None, io).next)) else w
    case SaveLoaded(id, io) =>
      if IsSaving(w, id) then World(WriteData(env, w.engine, w.loads[id].data, false, io).state, w.loads - {id}) else w
    case RunTask(task, io) => w.(engine := Run(env, w.engine, task, io).state)
  }

  /** The engine of a process that has just started on a file. */
  function Started(file: File): World {
    World(Engine(file, None, None, None), map[])
  }

  datatype History = History(events: seq<Event>, states: seq<World>)

  ghost predicate StepAt(env: Env, h: History, i: nat)
    requires i < |h.events| && |h.states| == |h.events| + 1
  {
    h.states[i + 1] == Apply(env, h.states[i], h.events[i])
  }

  /** A run: the states before and after each event, from the start of the process. */
  ghost predicate IsRun(env: Env, h: History) {
    && |h.states| == |h.events| + 1
    && h.states[0] == Started(h.states[0].engine.file)
    && forall i: nat | i < |h.events| :: StepAt(env, h, i)
  }

  // ---- Installs in time ----

  /** What a load installs has the generation of what is cached, if anything is cached. */
  predicate Timely(env: Env, w: World, e: Event) {
    e.InstallLoad? && IsRead(w, e.id) && Installable(env, w.loads[e.id].raw) && w.engine.cached.Some? ==>
      Generation(Loaded(env, w.loads[e.id].raw)) == CachedGeneration(w.engine)
  }

  ghost predicate AllTimely(env: Env, h: History)
    requires |h.states| == |h.events| + 1
  {
    forall i: nat | i < |h.events| :: Timely(env, h.states[i], h.events[i])
  }

  /** While nothing is cached the file is as it was, and loads have read it so. */
  predicate Fresh(env: Env, file: File, load: Load) {
    && (load.HasRead? ==> load.raw == file)
    && (load.Saving? ==> load.recovered && !Installable(env, file))
  }

  ghost predicate Sound(env: Env, w: World) {
    && Level(w.engine)
    && (w.engine.cached.None? ==> w.engine.lastWritten.None? && forall id | id in w.loads :: Fresh(env, w.engine.file, w.loads[id]))
  }

  lemma {:induction false} InstallIsSound(env: Env, w: World, id: nat, backup: Option<Profile>, io: Io)
    requires Lawful(env) && Sound(env, w) && IsRead(w, id) && Timely(env, w, InstallLoad(id, backup, io))
    ensures Sound(env, Apply(env, w, InstallLoad(id, backup, io)))
  {
    var raw := w.loads[id].raw;
    if Installable(env, raw) {
      if w.engine.cached.None? {
        assert Fresh(env, w.engine.file, w.loads[id]);
      }
    } else if w.engine.cached.None? {
      assert Fresh(env, w.engine.file, w.loads[id]);
    }
  }

  /** A task or a save while nothing is cached either caches something or changes nothing. */
  lemma {:induction false} FirstWrite(env: Env, s: Engine, data: Profile, io: Io)
    requires s.cached.None? && s.lastWritten.None?
    ensures var after := WriteData(env, s, data, false, io).state; after.cached.Some? || after == s
  {
  }

  lemma {:induction false} FirstTask(env: Env, s: Engine, task: Task, io: Io)
    requires s.cached.None? && s.lastWritten.None?
    ensures var after := Run(env, s, task, io).state; after.cached.Some? || after == s
  {
    if task.Save? {
      FirstWrite(env, s, task.data, io);
    }
  }

  lemma {:induction false} StepIsSound(env: Env, w: World, e: Event)
    requires Lawful(env) && Sound(env, w) && Timely(env, w, e)
    ensures Sound(env, Apply(env, w, e))
  {
    match e
    case StartLoad(_) =>
    case ReadFile(_, _) =>
    case InstallLoad(id, backup, io) => if IsRead(w, id) { InstallIsSound(env, w, id, backup, io); }
    case OverwriteLoad(_, _) =>
    case SaveLoaded(id, io) =>
      if IsSaving(w, id) {
        WriteGeneration(env, w.engine, w.loads[id].data, false, io);
        if w.engine.cached.None? { FirstWrite(env, w.engine, w.loads[id].data, io); }
      }
    case RunTask(task, io) =>
      RunGeneration(env, w.engine, task, io);
      if w.engine.cached.None? { FirstTask(env, w.engine, task, io); }
  }

  lemma {:induction false} ReachableIsSound(env: Env, h: History, i: nat)
    requires Lawful(env) && IsRun(env, h) && AllTimely(env, h) && i <= |h.events|
    ensures Sound(env, h.states[i])
  {
    if i > 0 {
      ReachableIsSound(env, h, i - 1);
      assert StepAt(env, h, i - 1);
      StepIsSound(env, h.states[i - 1], h.events[i - 1]);
    }
  }

  // ---- The generation ----

  /** What is cached stays cached, and its generation stays or is raised by one, by an import. */
  ghost predicate StepwiseAt(h: History, i: nat)
    requires i < |h.events| && |h.states| == |h.events| + 1
  {
    var s, t := h.states[i].engine, h.states[i + 1].engine;
    s.cached.Some? ==>
      && t.cached.Some?
      && (|| CachedGeneration(t) == CachedGeneration(s)
          || (h.events[i].RunTask? && Importing(h.events[i].task) && CachedGeneration(t) == CachedGeneration(s) + 1))
  }

  ghost predicate Stepwise(h: History)
    requires |h.states| == |h.events| + 1
  {
    forall i: nat | i < |h.events| :: StepwiseAt(h, i)
  }

  lemma {:induction false} TaskIsStepwise(env: Env, s: Engine, task: Task, io: Io)
    requires Lawful(env) && Level(s) && s.cached.Some?
    ensures var t := Run(env, s, task, io).state;
      && t.cached.Some?
      && (CachedGeneration(t) == CachedGeneration(s) || (Importing(task) && CachedGeneration(t) == CachedGeneration(s) + 1))
  {
    RunGeneration(env, s, task, io);
    RunStaysLoaded(env, s, task, io);
  }

  lemma {:induction false} RunStaysLoaded(env: Env, s: Engine, task: Task, io: Io)
    requires Lawful(env) && Level(s) && s.cached.Some?
    ensures Run(env, s, task, io).state.cached.Some?
  {
    if task.Save? {
      WriteReceipt(env, s, task.data, false, io);
    } else {
      RunReceipt(env, s, task, io);
    }
  }

  lemma {:induction false} StepIsStepwise(env: Env, h: History, i: nat)
    requires Lawful(env) && IsRun(env, h) && AllTimely(env, h) && i < |h.events|
    ensures StepwiseAt(h, i)
  {
    ReachableIsSound(env, h, i);
    assert StepAt(env, h, i) && Timely(env, h.states[i], h.events[i]);
    var s := h.states[i].engine;
    if s.cached.Some? {
      match h.events[i]
      case RunTask(task, io) => TaskIsStepwise(env, s, task, io);
      case SaveLoaded(id, io) =>
        if IsSaving(h.states[i], id) { SaveIsStepwise(env, s, h.states[i].loads[id].data, io); }
      case _ =>
    }
  }

  lemma {:induction false} SaveIsStepwise(env: Env, s: Engine, data: Profile, io: Io)
    requires Lawful(env) && Level(s) && s.cached.Some?
    ensures var t := WriteData(env, s, data, false, io).state; t.cached.Some? && CachedGeneration(t) == CachedGeneration(s)
  {
    WriteGeneration(env, s, data, false, io);
    WriteReceipt(env, s, data, false, io);
  }

  /** A load installs over a cache. */
  predicate InstallsOver(env: Env, w: World, e: Event) {
    e.InstallLoad? && IsRead(w, e.id) && Installable(env, w.loads[e.id].raw) && w.engine.cached.Some?
  }

  /** Over any run of clients that load, edit, save and import, with loads interleaved at will: the
      generation only ever stays or is raised by one by an import exactly when every load installs, if
      anything is cached by then, contents of the cached generation; such an install, and no other, keeps
      the generation. */
  lemma {:induction false} StepwiseIffTimely(env: Env, h: History)
    requires Lawful(env) && IsRun(env, h)
    ensures Stepwise(h) <==> AllTimely(env, h)
    ensures forall i: nat | i < |h.events| && InstallsOver(env, h.states[i], h.events[i]) ::
      CachedGeneration(h.states[i + 1].engine) == CachedGeneration(h.states[i].engine) <==> Timely(env, h.states[i], h.events[i])
  {
    forall i: nat | i < |h.events| && InstallsOver(env, h.states[i], h.events[i])
      ensures CachedGeneration(h.states[i + 1].engine) == CachedGeneration(h.states[i].engine) <==> Timely(env, h.states[i], h.events[i])
    {
      assert StepAt(env, h, i);
    }
    if AllTimely(env, h) {
      forall i: nat | i < |h.events| ensures StepwiseAt(h, i) {
        StepIsStepwise(env, h, i);
      }
    }
    if Stepwise(h) {
      forall i: nat | i < |h.events| ensures Timely(env, h.states[i], h.events[i]) {
        assert StepwiseAt(h, i) && StepAt(env, h, i);
      }
    }
  }

  /** A load is in time if nothing was written since its read. */
  lemma {:induction false} UnwrittenIsTimely(env: Env, h: History, i: nat)
    requires Lawful(env) && IsRun(env, h) && AllTimely(env, h) && i <= |h.events|
    ensures forall id, backup, io | IsRead(h.states[i], id) && h.states[i].loads[id].raw == h.states[i].engine.file ::
      Timely(env, h.states[i], InstallLoad(id, backup, io))
  {
    ReachableIsSound(env, h, i);
  }

  // ---- Installs that do not go back ----

  /** What a load installs over a cache is not of an older generation. */
  predicate Forward(env: Env, w: World, e: Event) {
    InstallsOver(env, w, e) ==> CachedGeneration(w.engine) <= Generation(Loaded(env, w.loads[e.id].raw))
  }

  ghost predicate AllForward(env: Env, h: History)
    requires |h.states| == |h.events| + 1
  {
    forall i: nat | i < |h.events| :: Forward(env, h.states[i], h.events[i])
  }

  lemma {:induction false} TimelyIsForward(env: Env, h: History)
    requires |h.states| == |h.events| + 1 && AllTimely(env, h)
    ensures AllForward(env, h)
  {
    forall i: nat | i < |h.events| ensures Forward(env, h.states[i], h.events[i]) {
      assert Timely(env, h.states[i], h.events[i]);
    }
  }

  lemma {:induction false} SaveGoesForward(env: Env, s: Engine, data: Profile, io: Io)
    requires Lawful(env)
    ensures var t := WriteData(env, s, data, false, io).state;
      CachedGeneration(s) <= CachedGeneration(t) && (s.cached.Some? ==> t.cached.Some?)
  {
  }

  lemma {:induction false} StepStaysLoaded(env: Env, w: World, e: Event)
    requires Lawful(env)
    ensures var t := Apply(env, w, e).engine;
      && (w.engine.cached.Some? ==> t.cached.Some?)
      && (Forward(env, w, e) ==> CachedGeneration(w.engine) <= CachedGeneration(t))
  {
    match e
    case RunTask(task, io) => TaskGoesForward(env, w.engine, task, io);
    case SaveLoaded(id, io) => if IsSaving(w, id) { SaveGoesForward(env, w.engine, w.loads[id].data, io); }
    case _ =>
  }

  lemma {:induction false} StaysLoaded(env: Env, h: History, i: nat, j: nat)
    requires Lawful(env) && IsRun(env, h) && i <= j <= |h.events| && h.states[i].engine.cached.Some?
    ensures h.states[j].engine.cached.Some?
  {
    if i < j {
      StaysLoaded(env, h, i, j - 1);
      assert StepAt(env, h, j - 1);
      StepStaysLoaded(env, h.states[j - 1], h.events[j - 1]);
    }
  }

  lemma {:induction false} GenerationNeverDecreases(env: Env, h: History, i: nat, j: nat)
    requires Lawful(env) && IsRun(env, h) && AllForward(env, h) && i <= j <= |h.events|
    ensures CachedGeneration(h.states[i].engine) <= CachedGeneration(h.states[j].engine)
  {
    if i < j {
      GenerationNeverDecreases(env, h, i, j - 1);
      assert StepAt(env, h, j - 1) && Forward(env, h.states[j - 1], h.events[j - 1]);
      StepStaysLoaded(env, h.states[j - 1], h.events[j - 1]);
    }
  }

  function GenerationAt(h: History, i: nat): nat
    requires i < |h.states|
  {
    CachedGeneration(h.states[i].engine)
  }

  /** Over any run the stored import generation never decreases exactly when no load installs an older one. */
  lemma {:induction false} NeverDecreasesIff(env: Env, h: History)
    requires Lawful(env) && IsRun(env, h)
    ensures (forall i: nat, j: nat | i <= j <= |h.events| :: GenerationAt(h, i) <= GenerationAt(h, j)) <==> AllForward(env, h)
  {
    if AllForward(env, h) {
      forall i: nat, j: nat | i <= j <= |h.events| ensures GenerationAt(h, i) <= GenerationAt(h, j) {
        GenerationNeverDecreases(env, h, i, j);
      }
    }
    if forall i: nat, j: nat | i <= j <= |h.events| :: GenerationAt(h, i) <= GenerationAt(h, j) {
      forall i: nat | i < |h.events| ensures Forward(env, h.states[i], h.events[i]) {
        assert StepAt(env, h, i) && GenerationAt(h, i) <= GenerationAt(h, i + 1);
      }
    }
  }

  /** No lost import: while no load installs an older generation, data read before an import can no longer
      be saved after it, by any client. */
  lemma {:induction false} NoLostImport(env: Env, h: History, i: nat, k: nat, j: nat, data: Profile, io: Io)
    requires Lawful(env) && IsRun(env, h) && AllForward(env, h) && i <= k < j <= |h.events|
    requires h.states[i].engine.cached.Some?
    requires data.importState == h.states[i].engine.cached.value.importState
    requires CachedGeneration(h.states[k + 1].engine) > CachedGeneration(h.states[k].engine)
    ensures var s := h.states[j].engine;
      && Run(env, s, Save(data), io) == Step(s, Failed(StaleGeneration), false)
      && Run(env, s, SaveRenderer(data), io) == Step(s, Failed(StaleImportState), false)
  {
    GenerationNeverDecreases(env, h, i, k);
    GenerationNeverDecreases(env, h, k + 1, j);
    StaysLoaded(env, h, i, j);
    StaleSaveIsRefused(env, h.states[j].engine, data, io);
  }
}
