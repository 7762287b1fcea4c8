/** Runs in which a load that installs what is no longer in the file takes an import back, or has a save
    accepted that is not in the file. */
module StorageLateLoads {
  import opened Options
  import opened StorageEngine
  import opened StorageSteps
  import opened StorageCommits
  import opened StorageRuns
  import opened StorageAgreement

  function After(env: Env, w: World, events: seq<Event>): World {
    if events == [] then w else Apply(env, After(env, w, events[..|events| - 1]), events[|events| - 1])
  }

  /** The run of a process that starts on the file. */
  function RunOf(env: Env, file: File, events: seq<Event>): History {
    History(events, seq(|events| + 1, i requires 0 <= i <= |events| => After(env, Started(file), events[..i])))
  }

  lemma {:induction false} AfterStep(env: Env, w: World, events: seq<Event>, i: nat)
    requires i < |events|
    ensures After(env, w, events[..i + 1]) == Apply(env, After(env, w, events[..i]), events[i])
  {
    assert events[..i + 1][..i] == events[..i];
  }

  lemma {:induction false} RunOfIsRun(env: Env, file: File, events: seq<Event>)
    ensures IsRun(env, RunOf(env, file, events))
  {
    var h := RunOf(env, file, events);
    forall i: nat | i < |h.events| ensures StepAt(env, h, i) {
      AfterStep(env, Started(file), events, i);
    }
  }

  const WORKS := Io(true, true, true)

  /** Two loads, 0 and 1, both read the file before either installs. */
  function TwoReads(): seq<Event> {
    [StartLoad(0), StartLoad(1), ReadFile(0, true), ReadFile(1, true)]
  }

  function BothRead(file: File): World {
    World(Engine(file, None, None, None), map[0 := HasRead(file), 1 := HasRead(file)])
  }

  lemma {:induction false} TwoReadsLead(env: Env, file: File)
    ensures After(env, Started(file), TwoReads()) == BothRead(file)
  {
    var events := TwoReads();
    assert events[..0] == [] && events[..4] == events;
    AfterStep(env, Started(file), events, 0);
    AfterStep(env, Started(file), events, 1);
    AfterStep(env, Started(file), events, 2);
    AfterStep(env, Started(file), events, 3);
    assert After(env, Started(file), events[..4]).loads == map[0 := HasRead(file), 1 := HasRead(file)];
  }

  lemma {:induction false} AfterJoins(env: Env, w: World, events: seq<Event>, more: seq<Event>)
    ensures After(env, w, events + more) == After(env, After(env, w, events), more)
  {
    if more == [] {
      assert events + more == events;
    } else {
      var n := |more| - 1;
      assert (events + more)[..|events| + n] == events + more[..n];
      AfterJoins(env, w, events, more[..n]);
    }
  }

  /** An import of `m` into `current` that is in order and is written as `next`. */
  ghost predicate Imports(env: Env, current: Profile, operation: string, merge: Profile -> Option<Merged>, next: Profile) {
    && (ReceiptOf(current).None? || ReceiptOf(current).value.operationId != operation)
    && merge(current).Some? && MergeOk(env, current, operation, merge(current).value)
    && env.normalize(Candidate(current, merge(current).value)) == Some(next)
    && env.normalize(next) == Some(next)
  }

  lemma {:induction false} ImportIsWritten(env: Env, s: Engine, operation: string, merge: Profile -> Option<Merged>,
                                           next: Profile)
    requires Lawful(env) && Level(s) && s.cached.Some? && s.downloads.None? && Imports(env, s.cached.value, operation, merge, next)
    ensures Run(env, s, Commit(operation, merge), WORKS).outcome.Committed?
    ensures Run(env, s, Commit(operation, merge), WORKS).state == Engine(Holds(next), Some(next), Some(next), None)
    ensures Generation(next) == CachedGeneration(s) + 1
  {
  }

  /** The events of a profile of the current schema: the first load installs, an import commits, the
      second load installs, and a client saves what it edited. */
  function LateSecond(operation: string, merge: Profile -> Option<Merged>, edited: Profile): seq<Event> {
    [InstallLoad(0, None, WORKS), RunTask(Commit(operation, merge), WORKS), InstallLoad(1, None, WORKS), RunTask(Save(edited), WORKS)]
  }

  lemma {:induction false} LateSecondLeads(env: Env, p: Profile, c: Profile, operation: string,
                                           merge: Profile -> Option<Merged>, next: Profile,
                                           edited: Profile, d: Profile)
    requires Lawful(env) && env.normalize(p) == Some(c) && c.schemaVersion == p.schemaVersion && Imports(env, c, operation, merge, next)
    requires edited.importState == c.importState && env.normalize(edited) == Some(d) && d != c
    ensures var events := LateSecond(operation, merge, edited); var w := BothRead(Holds(p));
      && After(env, w, events[..2]).engine == Engine(Holds(next), Some(next), Some(next), None)
      && After(env, w, events[..3]).engine == Engine(Holds(next), Some(c), Some(c), None)
      && After(env, w, events).engine == Engine(Holds(d), Some(d), Some(d), None)
  {
    var events := LateSecond(operation, merge, edited);
    var w := BothRead(Holds(p));
    assert events[..0] == [] && events[..4] == events;
    AfterStep(env, w, events, 0);
    AfterStep(env, w, events, 1);
    AfterStep(env, w, events, 2);
    AfterStep(env, w, events, 3);
    var first := After(env, w, events[..1]);
    assert first.engine == Engine(Holds(p), Some(c), Some(c), None);
    ImportIsWritten(env, first.engine, operation, merge, next);
    assert first.loads[1] == HasRead(Holds(p));
  }

  /** A committed import is overwritten: for every stored profile of the current schema there is a run in
      which a second load, that read before the import, installs after it; the generation goes back, and
      a client that saves an edit of what is then cached writes over the import. */
  lemma {:induction false} ImportIsOverwritten(env: Env, p: Profile, c: Profile, operation: string,
                                               merge: Profile -> Option<Merged>,
                                               next: Profile, edited: Profile, d: Profile) returns (h: History)
    requires Lawful(env) && env.normalize(p) == Some(c) && c.schemaVersion == p.schemaVersion && Imports(env, c, operation, merge, next)
    requires edited.importState == c.importState && env.normalize(edited) == Some(d) && d != c
    ensures IsRun(env, h) && |h.events| == 8 && !AllTimely(env, h)
    ensures h.states[6].engine.file == Holds(next) && CachedGeneration(h.states[6].engine) == Generation(c) + 1
    ensures CachedGeneration(h.states[7].engine) == Generation(c)
    ensures h.states[8].engine.file == Holds(d) && d.importState == c.importState
  {
    var late := LateSecond(operation, merge, edited);
    var events := TwoReads() + late;
    h := RunOf(env, Holds(p), events);
    RunOfIsRun(env, Holds(p), events);
    TwoReadsLead(env, Holds(p));
    LateSecondLeads(env, p, c, operation, merge, next, edited, d);
    assert events[..6] == TwoReads() + late[..2] && events[..7] == TwoReads() + late[..3] && events[..8] == TwoReads() + late;
    AfterJoins(env, Started(Holds(p)), TwoReads(), late[..2]);
    AfterJoins(env, Started(Holds(p)), TwoReads(), late[..3]);
    AfterJoins(env, Started(Holds(p)), TwoReads(), late);
    assert d.importState == edited.importState;
    assert !StepwiseAt(h, 6);
    StepwiseIffTimely(env, h);
  }

  /** The events of a new profile: both loads save the default profile they install, an import between. */
  function LateDefault(operation: string, merge: Profile -> Option<Merged>): seq<Event> {
    [InstallLoad(0, None, WORKS), SaveLoaded(0, WORKS), RunTask(Commit(operation, merge), WORKS), InstallLoad(1, None, WORKS), SaveLoaded(1, WORKS)]
  }

  lemma {:induction false} LateDefaultLeads(env: Env, c: Profile, operation: string,
                                            merge: Profile -> Option<Merged>, next: Profile)
    requires Lawful(env) && env.normalize(env.initial) == Some(c) && Imports(env, c, operation, merge, next)
    ensures var events := LateDefault(operation, merge); var w := BothRead(Missing);
      && After(env, w, events[..3]).engine == Engine(Holds(next), Some(next), Some(next), None)
      && After(env, w, events).engine == Engine(Holds(c), Some(c), Some(c), None)
  {
    var events := LateDefault(operation, merge);
    var w := BothRead(Missing);
    assert events[..0] == [] && events[..5] == events;
    AfterStep(env, w, events, 0);
    AfterStep(env, w, events, 1);
    AfterStep(env, w, events, 2);
    AfterStep(env, w, events, 3);
    AfterStep(env, w, events, 4);
    var saved := After(env, w, events[..2]);
    assert saved.engine == Engine(Holds(c), Some(c), Some(c), None);
    ImportIsWritten(env, saved.engine, operation, merge, next);
    var late := After(env, w, events[..4]);
    assert late.engine == Engine(Holds(next), Some(env.initial), Some(next), None) && late.loads[1] == Saving(env.initial, false);
  }

  /** On a missing file the import is lost without any client: the second load saves the default profile. */
  lemma {:induction false} DefaultOverwritesImport(env: Env, c: Profile, operation: string,
                                                   merge: Profile -> Option<Merged>,
                                                   next: Profile) returns (h: History)
    requires Lawful(env) && env.normalize(env.initial) == Some(c) && Imports(env, c, operation, merge, next)
    ensures IsRun(env, h) && |h.events| == 9 && !AllTimely(env, h)
    ensures h.states[7].engine.file == Holds(next) && Generation(next) == 1
    ensures h.states[9].engine.file == Holds(c) && Generation(c) == 0
  {
    var late := LateDefault(operation, merge);
    var events := TwoReads() + late;
    h := RunOf(env, Missing, events);
    RunOfIsRun(env, Missing, events);
    TwoReadsLead(env, Missing);
    LateDefaultLeads(env, c, operation, merge, next);
    assert events[..7] == TwoReads() + late[..3] && events[..9] == TwoReads() + late;
    AfterJoins(env, Started(Missing), TwoReads(), late[..3]);
    AfterJoins(env, Started(Missing), TwoReads(), late);
    assert c.importState == env.initial.importState;
    if AllTimely(env, h) {
      TimelyIsForward(env, h);
      GenerationNeverDecreases(env, h, 7, 9);
    }
  }

  /** The events of a profile of the current schema: the first load installs, a client saves an edit, the
      second load installs, and a client saves what is then cached. */
  function LateSave(edited: Profile, c: Profile): seq<Event> {
    [InstallLoad(0, None, WORKS), RunTask(Save(edited), WORKS), InstallLoad(1, None, WORKS), RunTask(Save(c), WORKS)]
  }

  lemma {:induction false} LateSaveLeads(env: Env, p: Profile, c: Profile, edited: Profile, d: Profile)
    requires Lawful(env) && env.normalize(p) == Some(c) && c.schemaVersion == p.schemaVersion && env.normalize(c) == Some(c)
    requires edited.importState == c.importState && env.normalize(edited) == Some(d) && d != c
    ensures var events := LateSave(edited, c); var w := BothRead(Holds(p));
      && After(env, w, events[..0]) == w
      && After(env, w, events[..1]) == World(Engine(Holds(p), Some(c), Some(c), None), map[1 := HasRead(Holds(p))])
      && After(env, w, events[..2]) == World(Engine(Holds(d), Some(d), Some(d), None), map[1 := HasRead(Holds(p))])
      && After(env, w, events[..3]) == World(Engine(Holds(d), Some(c), Some(c), None), map[])
      && After(env, w, events) == World(Engine(Holds(d), Some(c), Some(c), None), map[])
  {
    var events := LateSave(edited, c);
    var w := BothRead(Holds(p));
    assert events[..0] == [] && events[..4] == events;
    AfterStep(env, w, events, 0);
    AfterStep(env, w, events, 1);
    AfterStep(env, w, events, 2);
    AfterStep(env, w, events, 3);
    assert w.loads - {0} == map[1 := HasRead(Holds(p))];
  }

  /** An accepted save is not in the file, though every load is in time: the second load installs what it
      read before a save of the same import, and a save of that is skipped as the last text written. */
  lemma {:induction false} AcceptedSaveIsLost(env: Env, p: Profile, c: Profile, edited: Profile, d: Profile)
    returns (h: History)
    requires Lawful(env) && env.normalize(p) == Some(c) && c.schemaVersion == p.schemaVersion && env.normalize(c) == Some(c)
    requires edited.importState == c.importState && env.normalize(edited) == Some(d) && env.normalize(d) == Some(d) && d != c
    ensures IsRun(env, h) && |h.events| == 8 && h.events[7] == RunTask(Save(c), WORKS) && AllTimely(env, h) && !AllInTune(env, h)
    ensures Run(env, h.states[7].engine, Save(c), WORKS).outcome.Done?
    ensures h.states[8].engine.file == Holds(d) && h.states[8].engine.cached == Some(c)
  {
    var late := LateSave(edited, c);
    var events := TwoReads() + late;
    h := RunOf(env, Holds(p), events);
    RunOfIsRun(env, Holds(p), events);
    LateSaveStates(env, p, c, edited, d);
    LateSaveIsTimely(env, h, p, c, d);
    StepwiseIffTimely(env, h);
    assert !Agreed(env, h.states[8].engine);
    RunAgreesIff(env, h);
  }

  lemma {:induction false} LateSaveStates(env: Env, p: Profile, c: Profile, edited: Profile, d: Profile)
    requires Lawful(env) && env.normalize(p) == Some(c) && c.schemaVersion == p.schemaVersion && env.normalize(c) == Some(c)
    requires edited.importState == c.importState && env.normalize(edited) == Some(d) && d != c
    ensures var h := RunOf(env, Holds(p), TwoReads() + LateSave(edited, c));
      && (forall i: nat | i <= 4 :: h.states[i].engine.cached.None?)
      && h.states[5].engine.cached == Some(c) && h.states[6].engine.cached == Some(d)
      && h.states[7].engine == Engine(Holds(d), Some(c), Some(c), None) && h.states[8].engine == h.states[7].engine
  {
    var late := LateSave(edited, c);
    var events := TwoReads() + late;
    TwoReadsLead(env, Holds(p));
    LateSaveLeads(env, p, c, edited, d);
    assert events[..5] == TwoReads() + late[..1] && events[..6] == TwoReads() + late[..2];
    assert events[..7] == TwoReads() + late[..3] && events[..8] == TwoReads() + late;
    AfterJoins(env, Started(Holds(p)), TwoReads(), late[..1]);
    AfterJoins(env, Started(Holds(p)), TwoReads(), late[..2]);
    AfterJoins(env, Started(Holds(p)), TwoReads(), late[..3]);
    AfterJoins(env, Started(Holds(p)), TwoReads(), late);
    forall i: nat | i <= 4 ensures After(env, Started(Holds(p)), events[..i]).engine.cached.None? {
      ReadsCacheNothing(env, Holds(p), events, i);
    }
  }

  lemma {:induction false} ReadsCacheNothing(env: Env, file: File, events: seq<Event>, i: nat)
    requires i <= |events| && forall k: nat | k < i :: events[k].StartLoad? || events[k].ReadFile?
    ensures After(env, Started(file), events[..i]).engine.cached.None?
  {
    if i > 0 {
      ReadsCacheNothing(env, file, events, i - 1);
      AfterStep(env, Started(file), events, i - 1);
    }
  }

  lemma {:induction false} LateSaveIsTimely(env: Env, h: History, p: Profile, c: Profile, d: Profile)
    requires |h.events| == 8 && |h.states| == 9 && c.importState == d.importState
    requires forall i: nat | i <= 4 :: h.states[i].engine.cached.None?
    requires h.states[5].engine.cached == Some(c) && h.states[6].engine.cached == Some(d)
    requires h.states[7].engine == Engine(Holds(d), Some(c), Some(c), None) && h.states[8].engine == h.states[7].engine
    ensures Stepwise(h)
  {
    forall i: nat | i < |h.events| ensures StepwiseAt(h, i) {
    }
  }
}
