/** core/heartbeat.go: per-project overrides and the state file that carries them over a restart. */
module Heartbeat {
  import opened Wrappers

  datatype Config = Config(
    enabled: bool, intervalMins: int, onlyWhenIdle: bool, sessionKey: string, prompt: string, silent: bool,
    timeoutMins: int)

  /** One project's record in heartbeat_state.json. */
  datatype Persisted = Persisted(paused: bool, intervalMins: int)

  /** The state file; None when it does not exist. */
  type File = Option<map<string, Persisted>>

  datatype Entry = Entry(config: Config, paused: bool, origIntervalMins: int)

  type Entries = map<string, Entry>

  predicate Registers(c: Config) {
    c.enabled && c.sessionKey != ""
  }

  function WithDefaults(c: Config): Config {
    c.(intervalMins := if c.intervalMins <= 0 then 30 else c.intervalMins,
       timeoutMins := if c.timeoutMins <= 0 then 30 else c.timeoutMins)
  }

  function Saved(file: File, project: string): Option<Persisted> {
    if file.Some? && project in file.value then Some(file.value[project]) else None
  }

  /** The entry Register makes of a configuration and the state file. */
  function Loaded(file: File, project: string, c: Config): Entry {
    var d := WithDefaults(c);
    match Saved(file, project)
    case None => Entry(d, false, d.intervalMins)
    case Some(p) =>
      Entry(if p.intervalMins > 0 then d.(intervalMins := p.intervalMins) else d, p.paused, d.intervalMins)
  }

  /** What persistLocked writes about an entry; None when there is nothing to override. */
  function Override(e: Entry): Option<Persisted> {
    var p := Persisted(e.paused, if e.config.intervalMins != e.origIntervalMins then e.config.intervalMins else 0);
    if p.paused || p.intervalMins > 0 then Some(p) else None
  }

  /** The configuration the entry was registered with, defaults filled in. */
  function Base(e: Entry): Config {
    e.config.(intervalMins := e.origIntervalMins)
  }

  predicate EntryOk(e: Entry) {
    e.config.intervalMins > 0 && e.origIntervalMins > 0 && e.config.timeoutMins > 0
  }

  /** Registering the same configuration again would give back this very entry. */
  ghost predicate Restores(file: File, project: string, e: Entry) {
    Loaded(file, project, Base(e)) == e
  }

  /** The file holds exactly the overrides of these entries. */
  ghost predicate Holds(file: File, entries: Entries) {
    && (forall p :: p in entries ==> Saved(file, p) == Override(entries[p]))
    && (forall p :: Saved(file, p).Some? ==> p in entries)
    && (file.Some? ==> exists p :: p in entries && Override(entries[p]).Some?)
  }

  lemma OverrideRestores(file: File, project: string, e: Entry)
    requires EntryOk(e) && Saved(file, project) == Override(e)
    ensures Restores(file, project, e)
  {
    assert WithDefaults(Base(e)) == Base(e);
  }

  lemma LoadedRestores(file: File, project: string, c: Config)
    ensures EntryOk(Loaded(file, project, c)) && Restores(file, project, Loaded(file, project, c))
    ensures Base(Loaded(file, project, c)) == WithDefaults(c)
  {
    var e := Loaded(file, project, c);
    assert WithDefaults(Base(e)) == Base(e);
  }

  /** What a scheduler holds: its entries and the state file. */
  datatype Store = Store(entries: Entries, file: File)

  datatype Op = OpPause(project: string) | OpResume(project: string) | OpInterval(project: string, mins: int)

  function Apply(entries: Entries, op: Op): Entries {
    if op.project !in entries then entries
    else
      match op
      case OpPause(p) => entries[p := entries[p].(paused := true)]
      case OpResume(p) => entries[p := entries[p].(paused := false)]
      case OpInterval(p, mins) => if mins > 0 then entries[p := WithInterval(entries[p], mins)] else entries
  }

  /** The operation writes the file: a pause or resume that changes something, any accepted interval. */
  predicate Writes(entries: Entries, op: Op) {
    op.project in entries
    && match op
       case OpPause(p) => !entries[p].paused
       case OpResume(p) => entries[p].paused
       case OpInterval(_, mins) => mins > 0
  }

  /** One operation of a scheduler that has a data directory. */
  ghost predicate Performs(s: Store, op: Op, t: Store) {
    && t.entries == Apply(s.entries, op)
    && (if Writes(s.entries, op) then Holds(t.file, t.entries) else t.file == s.file)
  }

  class HeartbeatScheduler {
    var entries: Entries
    var file: File
    const persistent: bool  // a data directory was given

    /** Registering the same projects with the same configurations restores the entries. */
    ghost predicate Valid()
      reads this
    {
      && (forall p :: p in entries ==> EntryOk(entries[p]))
      && (persistent ==> forall p :: p in entries ==> Restores(file, p, entries[p]))
      && (!persistent ==> file == None)
    }

    ghost function View(): Store
      reads this
    {
      Store(entries, file)
    }

    constructor (persistent: bool, found: File)
      requires !persistent ==> found == None
      ensures Valid() && entries == map[] && file == found && this.persistent == persistent
    {
      this.persistent, entries, file := persistent, map[], found;
    }

    method Register(project: string, c: Config)
      requires Valid()
      modifies this`entries
      ensures Valid()
      ensures entries == if c.enabled && c.sessionKey != "" then old(entries)[project := Loaded(file, project, c)]
                         else old(entries)
    {
      if !c.enabled || c.sessionKey == "" {
        return;
      }
      LoadedRestores(file, project, c);
      entries := entries[project := Loaded(file, project, c)];
    }

    /** persistLocked: visits the entries in any order; removes the file when no override remains. */
    method Persist()
      requires forall p :: p in entries ==> EntryOk(entries[p])
      requires !persistent ==> file == None
      modifies this`file
      ensures Valid()
      ensures persistent ==> Holds(file, entries)
      ensures !persistent ==> file == None
    {
      if !persistent {
        return;
      }
      var states: map<string, Persisted> := map[];
      var needSave := false;
      var rest := entries.Keys;
      while rest != {}
        invariant rest <= entries.Keys
        invariant forall p :: p in states ==> p in entries && p !in rest && Override(entries[p]) == Some(states[p])
        invariant forall p :: p in entries && p !in rest && Override(entries[p]).Some? ==> p in states
        invariant needSave <==> states != map[]
        decreases rest
      {
        var p :| p in rest;
        var e := entries[p];
        var saved := Persisted(e.paused, 0);
        if e.config.intervalMins != e.origIntervalMins {
          saved := saved.(intervalMins := e.config.intervalMins);
        }
        if saved.paused || saved.intervalMins > 0 {
          states := states[p := saved];
          needSave := true;
          assert p in states;
        }
        rest := rest - {p};
      }
      if !needSave {
        file := None;
      } else {
        file := Some(states);
        assert states.Keys != {};
        var p :| p in states;
        assert Override(entries[p]).Some?;
      }
      forall p | p in entries
        ensures Restores(file, p, entries[p])
      {
        OverrideRestores(file, p, entries[p]);
      }
    }

    method Pause(project: string) returns (ok: bool)
      requires Valid()
      modifies this
      ensures Valid() && ok == (project in old(entries))
      ensures entries == if ok then old(entries)[project := old(entries)[project].(paused := true)] else old(entries)
      ensures persistent ==> Performs(old(View()), OpPause(project), View())
    {
      if project !in entries {
        return false;
      }
      if entries[project].paused {
        assert entries == entries[project := entries[project].(paused := true)];
        return true;
      }
      entries := entries[project := entries[project].(paused := true)];
      Persist();
      return true;
    }

    method Resume(project: string) returns (ok: bool)
      requires Valid()
      modifies this
      ensures Valid() && ok == (project in old(entries))
      ensures entries == if ok then old(entries)[project := old(entries)[project].(paused := false)] else old(entries)
      ensures persistent ==> Performs(old(View()), OpResume(project), View())
    {
      if project !in entries {
        return false;
      }
      if !entries[project].paused {
        assert entries == entries[project := entries[project].(paused := false)];
        return true;
      }
      entries := entries[project := entries[project].(paused := false)];
      Persist();
      return true;
    }

    method SetInterval(project: string, mins: int) returns (ok: bool)
      requires Valid()
      modifies this
      ensures Valid() && ok == (mins > 0 && project in old(entries))
      ensures entries == if ok then old(entries)[project := WithInterval(old(entries)[project], mins)] else old(entries)
      ensures persistent ==> Performs(old(View()), OpInterval(project, mins), View())
    {
      if mins <= 0 || project !in entries {
        return false;
      }
      entries := entries[project := WithInterval(entries[project], mins)];
      Persist();
      return true;
    }
  }

  function WithInterval(e: Entry, mins: int): Entry {
    e.(config := e.config.(intervalMins := mins))
  }

  /** A new process: an empty scheduler over the same state file, the same projects registered with
      the same configurations, in any order. Every project's entry is back. */
  method Restart(hs: HeartbeatScheduler, configs: map<string, Config>) returns (again: HeartbeatScheduler)
    requires hs.Valid() && hs.persistent && configs.Keys == hs.entries.Keys
    requires forall p :: p in configs ==> Registers(configs[p]) && WithDefaults(configs[p]) == Base(hs.entries[p])
    ensures fresh(again) && again.Valid() && again.entries == hs.entries && again.file == hs.file
  {
    again := new HeartbeatScheduler(true, hs.file);
    var rest := configs.Keys;
    while rest != {}
      invariant rest <= configs.Keys && fresh(again) && again.Valid() && again.persistent && again.file == hs.file
      invariant forall p :: p in again.entries ==> p in configs && p !in rest && again.entries[p] == hs.entries[p]
      invariant forall p :: p in configs && p !in rest ==> p in again.entries
      decreases rest
    {
      var p :| p in rest;
      RestoredFromGiven(hs.file, p, configs[p], hs.entries[p]);
      again.Register(p, configs[p]);
      rest := rest - {p};
    }
  }

  lemma RestoredFromGiven(file: File, project: string, c: Config, e: Entry)
    requires WithDefaults(c) == Base(e) && Restores(file, project, e) && EntryOk(e)
    ensures Loaded(file, project, c) == e
  {
    assert WithDefaults(Base(e)) == Base(e);
  }

  // --- Whole runs ---

  function ApplyAll(entries: Entries, ops: seq<Op>): Entries {
    if ops == [] then entries else Apply(ApplyAll(entries, ops[..|ops| - 1]), ops[|ops| - 1])
  }

  /** The last operation of a project that sets its paused flag. */
  function LastPause(ops: seq<Op>, project: string, start: bool): bool {
    if ops == [] then start
    else
      var op := ops[|ops| - 1];
      if op.project == project && op.OpPause? then true
      else if op.project == project && op.OpResume? then false
      else LastPause(ops[..|ops| - 1], project, start)
  }

  function LastInterval(ops: seq<Op>, project: string, start: int): int {
    if ops == [] then start
    else
      var op := ops[|ops| - 1];
      if op.project == project && op.OpInterval? && op.mins > 0 then op.mins
      else LastInterval(ops[..|ops| - 1], project, start)
  }

  /** After any operations a project is as its own last operations left it, with its configuration
      otherwise untouched, and other projects' operations do not matter. */
  lemma {:induction false} LastOperationWins(entries: Entries, ops: seq<Op>, project: string)
    requires project in entries
    ensures var e := ApplyAll(entries, ops);
            e.Keys == entries.Keys && Base(e[project]) == Base(entries[project])
            && e[project].paused == LastPause(ops, project, entries[project].paused)
            && e[project].config.intervalMins == LastInterval(ops, project, entries[project].config.intervalMins)
            && e[project].origIntervalMins == entries[project].origIntervalMins
  {
    if ops != [] {
      LastOperationWins(entries, ops[..|ops| - 1], project);
    }
  }

  /** The stores of a run, one before each operation and one at the end. */
  ghost predicate RunOf(stores: seq<Store>, ops: seq<Op>) {
    |stores| == |ops| + 1 && forall i :: 0 <= i < |ops| ==> Performs(stores[i], ops[i], stores[i + 1])
  }

  /** Registering the same configurations again would give back these very entries. */
  ghost predicate Faithful(s: Store) {
    forall p :: p in s.entries ==> EntryOk(s.entries[p]) && Restores(s.file, p, s.entries[p])
  }

  lemma HoldsIsFaithful(s: Store)
    requires Holds(s.file, s.entries) && forall p :: p in s.entries ==> EntryOk(s.entries[p])
    ensures Faithful(s)
  {
    forall p | p in s.entries
      ensures Restores(s.file, p, s.entries[p])
    {
      OverrideRestores(s.file, p, s.entries[p]);
    }
  }

  lemma StepFaithful(s: Store, op: Op, t: Store)
    requires Faithful(s) && Performs(s, op, t)
    ensures Faithful(t)
  {
    if Writes(s.entries, op) {
      HoldsIsFaithful(t);
    } else {
      assert t.entries == s.entries;
    }
  }

  lemma {:induction false} RunFaithful(stores: seq<Store>, ops: seq<Op>)
    requires RunOf(stores, ops) && Faithful(stores[0])
    ensures Faithful(stores[|ops|]) && stores[|ops|].entries == ApplyAll(stores[0].entries, ops)
    decreases |ops|
  {
    if ops != [] {
      var n := |ops| - 1;
      RunFaithful(stores[..n + 1], ops[..n]);
      StepFaithful(stores[n], ops[n], stores[n + 1]);
    }
  }

  /** Fidelity, over every run of pauses, resumes and interval changes from a registered scheduler:
      registering a project again with the configuration it had, on whatever file the run has left,
      gives back exactly its entry, with the paused flag and the interval its last operations gave it. */
  lemma RestartFidelity(stores: seq<Store>, ops: seq<Op>, project: string)
    requires RunOf(stores, ops) && Faithful(stores[0]) && project in stores[0].entries
    ensures var was, now := stores[0].entries[project], stores[|ops|];
            var back := Loaded(now.file, project, Base(was));
            && project in now.entries && back == now.entries[project]
            && back.paused == LastPause(ops, project, was.paused)
            && back.config.intervalMins == LastInterval(ops, project, was.config.intervalMins)
  {
    RunFaithful(stores, ops);
    LastOperationWins(stores[0].entries, ops, project);
  }

  /** A first start without a state file, then any operations: a project has the configuration it was
      registered with, 30 minutes where that gives no interval or no timeout, and the paused flag and the
      interval its last operations gave it. */
  lemma OperationsFromConfig(entries: Entries, ops: seq<Op>, project: string, c: Config)
    requires project in entries && entries[project] == Loaded(None, project, c)
    ensures var now := ApplyAll(entries, ops);
            var given := if c.intervalMins > 0 then c.intervalMins else 30;
            project in now && now[project].paused == LastPause(ops, project, false)
            && now[project].config == c.(intervalMins := LastInterval(ops, project, given),
                                         timeoutMins := if c.timeoutMins > 0 then c.timeoutMins else 30)
  {
    LastOperationWins(entries, ops, project);
    var e := ApplyAll(entries, ops)[project];
    assert e.config == Base(e).(intervalMins := e.config.intervalMins);
  }

  /** The same configuration, registered again on whatever file the run has left, gives the entry back. */
  lemma RestartFromConfig(stores: seq<Store>, ops: seq<Op>, project: string, c: Config)
    requires RunOf(stores, ops) && Faithful(stores[0]) && project in stores[0].entries
    requires stores[0].entries[project] == Loaded(stores[0].file, project, c)
    ensures var now := stores[|ops|];
            project in now.entries && Loaded(now.file, project, c) == now.entries[project]
  {
    RunFaithful(stores, ops);
    LastOperationWins(stores[0].entries, ops, project);
    LoadedRestores(stores[0].file, project, c);
    RestoredFromGiven(stores[|ops|].file, project, c, stores[|ops|].entries[project]);
  }

  /** Once anything has been written, the file is gone exactly when no project has an override left. */
  lemma FileRemovedIff(stores: seq<Store>, ops: seq<Op>)
    requires RunOf(stores, ops) && exists i :: 0 <= i < |ops| && Writes(stores[i].entries, ops[i])
    ensures var now := stores[|ops|];
            now.file == None <==> forall p :: p in now.entries ==> Override(now.entries[p]).None?
    decreases |ops|
  {
    RunHolds(stores, ops);
  }

  lemma {:induction false} RunHolds(stores: seq<Store>, ops: seq<Op>)
    requires RunOf(stores, ops) && exists i :: 0 <= i < |ops| && Writes(stores[i].entries, ops[i])
    ensures Holds(stores[|ops|].file, stores[|ops|].entries)
    decreases |ops|
  {
    var n := |ops| - 1;
    if !Writes(stores[n].entries, ops[n]) {
      var i :| 0 <= i < |ops| && Writes(stores[i].entries, ops[i]);
      assert stores[..n + 1][i] == stores[i] && ops[..n][i] == ops[i];
      RunHolds(stores[..n + 1], ops[..n]);
      assert stores[n + 1].entries == stores[n].entries;
    }
  }
}
