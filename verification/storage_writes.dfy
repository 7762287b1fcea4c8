/** What a queued task leaves of file, cache and last text: all three as they were, or all three with the
    normal form of the profile it asked to write.  Nothing is assumed of the state it starts from. */
module StorageWrites {
  import opened Options
  import opened StorageEngine

  /** No write took place. */
  predicate Unwritten(s: Engine, t: Engine) {
    t.file == s.file && t.cached == s.cached && t.lastWritten == s.lastWritten
  }

  /** The normal form of the profile was written. */
  predicate Wrote(env: Env, t: Engine, asked: Profile) {
    && t.cached.Some? && t.cached == env.normalize(asked)
    && t.lastWritten == t.cached && t.file == Holds(t.cached.value)
  }

  /** The profile a task asks to write, with the main process's downloads. */
  function Asked(s: Engine, task: Task): Option<Profile> {
    if task.Save? then Some(Owned(s, task.data))
    else if s.cached.None? then None
    else
      var current := s.cached.value;
      match task
      case SaveRenderer(data) => Some(data.(downloads := MainDownloads(s, current)))
      case Commit(_, merge) => if merge(current).Some? then Some(Owned(s, Candidate(current, merge(current).value))) else None
      case Record(_, e) =>
        if current.importState.Some? then Some(Owned(s, current.(importState := Some(RecordIn(current.importState.value, e))))) else None
      case Upsert(d) => Some(current.(downloads := UpsertInto(MainDownloads(s, current), d)))
      case ClearCompleted => Some(current.(downloads := Unfinished(MainDownloads(s, current))))
      case Replace(data) => Some(Replacement(current, data))
      case Save(data) => None
  }

  /** A write of the data in the state, or none. */
  ghost predicate WritesOrNot(env: Env, s: Engine, t: Engine, asked: Profile) {
    Unwritten(s, t) || Wrote(env, t, asked)
  }

  lemma {:induction false} WriteShape(env: Env, s: Engine, data: Profile, advance: bool, io: Io)
    ensures var t := WriteData(env, s, data, advance, io).state; t.downloads == s.downloads && WritesOrNot(env, s, t, Owned(s, data))
  {
  }

  lemma {:induction false} CommitShape(env: Env, s: Engine, current: Profile, operation: string,
                                       merge: Profile -> Option<Merged>, io: Io)
    requires s.cached == Some(current)
    ensures var t := CommitTask(env, s, current, operation, merge, io).state;
      t.downloads == s.downloads && (t == s || (merge(current).Some? && WritesOrNot(env, s, t, Owned(s, Candidate(current, merge(current).value)))))
  {
    if merge(current).Some? {
      WriteShape(env, s, Candidate(current, merge(current).value), true, io);
    }
  }

  lemma {:induction false} RecordShape(env: Env, s: Engine, current: Profile, operation: string, e: ExtensionReceipt,
                                       io: Io)
    requires s.cached == Some(current)
    ensures var t := RecordTask(env, s, current, operation, e, io).state;
      && t.downloads == s.downloads
      && (t == s || (current.importState.Some?
                     && WritesOrNot(env, s, t, Owned(s, current.(importState := Some(RecordIn(current.importState.value, e)))))))
  {
    if current.importState.Some? {
      WriteShape(env, s, current.(importState := Some(RecordIn(current.importState.value, e))), false, io);
    }
  }

  lemma {:induction false} DownloadShape(env: Env, s: Engine, current: Profile, downloads: seq<Download>, io: Io)
    ensures var t := DownloadTask(env, s, current, downloads, io).state;
      t.downloads == Some(downloads) && WritesOrNot(env, s, t, current.(downloads := downloads))
  {
    WriteShape(env, s.(downloads := Some(downloads)), current.(downloads := downloads), false, io);
  }

  lemma {:induction false} ReplaceShape(env: Env, s: Engine, current: Profile, data: Profile, io: Io)
    ensures var t := ReplaceTask(env, s, current, data, io).state;
      || (t.downloads == s.downloads && Unwritten(s, t))
      || (t.downloads == Some(data.downloads) && WritesOrNot(env, s, t, Replacement(current, data)))
  {
    var next := Replacement(current, data);
    WriteShape(env, s.(downloads := Some(next.downloads)), next, true, io);
  }

  lemma {:induction false} RendererShape(env: Env, s: Engine, current: Profile, data: Profile, io: Io)
    requires s.cached == Some(current)
    ensures var t := SaveRendererTask(env, s, current, data, io).state;
      || t == s
      || (t.downloads == Some(MainDownloads(s, current)) && WritesOrNot(env, s, t, data.(downloads := MainDownloads(s, current))))
  {
    var owned := if s.downloads.Some? then s else s.(downloads := Some(current.downloads));
    WriteShape(env, owned, data.(downloads := owned.downloads.value), false, io);
  }

  /** Every task writes what it asks or nothing, and what it writes has the main list as its downloads. */
  lemma {:induction false} TaskShape(env: Env, s: Engine, task: Task, io: Io)
    ensures var t := Run(env, s, task, io).state;
      || Unwritten(s, t)
      || (&& Asked(s, task).Some? && Wrote(env, t, Asked(s, task).value)
          && (t.downloads.Some? ==> Asked(s, task).value.downloads == t.downloads.value))
  {
    if task.Save? {
      WriteShape(env, s, task.data, false, io);
    } else if s.cached.Some? {
      var current := s.cached.value;
      match task
      case SaveRenderer(data) => RendererShape(env, s, current, data, io);
      case Commit(operation, merge) => CommitShape(env, s, current, operation, merge, io);
      case Record(operation, e) => RecordShape(env, s, current, operation, e, io);
      case Upsert(d) => DownloadShape(env, s, current, UpsertInto(MainDownloads(s, current), d), io);
      case ClearCompleted => DownloadShape(env, s, current, Unfinished(MainDownloads(s, current)), io);
      case Replace(data) => ReplaceShape(env, s, current, data, io);
      case Save(data) =>
    }
  }

  /** No task lowers the generation, and what is cached stays cached. */
  lemma {:induction false} TaskGoesForward(env: Env, s: Engine, task: Task, io: Io)
    requires Lawful(env)
    ensures var t := Run(env, s, task, io).state;
      CachedGeneration(s) <= CachedGeneration(t) && (s.cached.Some? ==> t.cached.Some?)
  {
    TaskShape(env, s, task, io);
    if !Unwritten(s, Run(env, s, task, io).state) {
      TaskAsksForward(env, s, task, io);
    }
  }

  lemma {:induction false} WriteAsks(env: Env, s: Engine, data: Profile, advance: bool, io: Io)
    ensures !Unwritten(s, WriteData(env, s, data, advance, io).state) ==> Generation(data) == CachedGeneration(s) + (if advance then 1 else 0)
  {
  }

  lemma {:induction false} TaskAsksForward(env: Env, s: Engine, task: Task, io: Io)
    requires !Unwritten(s, Run(env, s, task, io).state) && Asked(s, task).Some?
    ensures CachedGeneration(s) <= Generation(Asked(s, task).value)
  {
    if task.Save? {
      WriteAsks(env, s, task.data, false, io);
    } else {
      match task
      case SaveRenderer(data) =>
      case _ =>
    }
  }
}
