/** core/cron.go: what every operation does to the fields of the jobs, read by their JSON names. */
module CronFields {
  import opened Wrappers
  import opened CronModel
  import opened CronAgreement

  // --- The fields of a job ---

  datatype Field =
    | Id | Project | SessionKey | CronExpr | Prompt | Exec | WorkDir | Description
    | Enabled | Silent | Mute | SessionMode | Mode | TimeoutMins | LastError

  function JsonName(f: Field): string {
    match f
    case Id => "id"
    case Project => "project"
    case SessionKey => "session_key"
    case CronExpr => "cron_expr"
    case Prompt => "prompt"
    case Exec => "exec"
    case WorkDir => "work_dir"
    case Description => "description"
    case Enabled => "enabled"
    case Silent => "silent"
    case Mute => "mute"
    case SessionMode => "session_mode"
    case Mode => "mode"
    case TimeoutMins => "timeout_mins"
    case LastError => "last_error"
  }

  /** What a job says under a field; None if it is not set. */
  function Read(j: Job, f: Field): Option<Value> {
    match f
    case Id => Some(Str(j.id))
    case Project => Some(Str(j.project))
    case SessionKey => Some(Str(j.sessionKey))
    case CronExpr => Some(Str(j.cronExpr))
    case Prompt => Some(Str(j.prompt))
    case Exec => Some(Str(j.exec))
    case WorkDir => Some(Str(j.workDir))
    case Description => Some(Str(j.description))
    case Enabled => Some(Bool(j.enabled))
    case Silent => if j.silent.Some? then Some(Bool(j.silent.value)) else None
    case Mute => Some(Bool(j.mute))
    case SessionMode => Some(Str(j.sessionMode))
    case Mode => Some(Str(j.mode))
    case TimeoutMins => if j.timeoutMins.Some? then Some(Num(j.timeoutMins.value)) else None
    case LastError => Some(Str(j.lastError))
  }

  predicate Editable(f: Field) {
    !f.Id? && !f.LastError?
  }

  predicate Flag(f: Field) {
    f.Enabled? || f.Silent? || f.Mute?
  }

  predicate FitsType(f: Field, value: Value) {
    if Flag(f) then value.Bool? else if f.TimeoutMins? then value.Num? else value.Str?
  }

  // --- The Go names of the text fields ---

  lemma {:induction false} LowerStays(w: string)
    requires forall i :: 0 <= i < |w| ==> w[i] != '_'
    ensures Exported(w, false) == w
  {
    if w != "" {
      LowerStays(w[1..]);
      assert w == [w[0]] + w[1..];
    }
  }

  /** One word: its first letter becomes a capital. */
  lemma ExportedWord(w: string)
    requires w != "" && 'a' <= w[0] <= 'z' && forall i :: 0 <= i < |w| ==> w[i] != '_'
    ensures Exported(w, true) == [(w[0] as int - 32) as char] + w[1..]
  {
    LowerStays(w[1..]);
  }

  lemma Renamed(field: string, name: string)
    requires field != "" && |name| == |field| && 'a' <= field[0] <= 'z' && name[0] as int == field[0] as int - 32
    requires forall i :: 0 <= i < |field| ==> field[i] != '_' && (i > 0 ==> name[i] == field[i])
    ensures Exported(field, true) == name
  {
    ExportedWord(field);
  }

  lemma {:induction false} ExportedUnderscore(w: string)
    requires forall i :: 0 <= i < |w| ==> w[i] != '_'
    ensures Exported(w + "_", false) == w
  {
    if w == "" {
      assert w + "_" == "_" && "_"[1..] == "";
    } else {
      assert (w + "_")[1..] == w[1..] + "_";
      ExportedUnderscore(w[1..]);
      assert w == [w[0]] + w[1..];
    }
  }

  lemma FirstWord(a: string)
    requires a != "" && 'a' <= a[0] <= 'z' && forall i :: 0 <= i < |a| ==> a[i] != '_'
    ensures Exported(a + "_", true) == [(a[0] as int - 32) as char] + a[1..]
  {
    var w := a + "_";
    assert w[1..] == a[1..] + "_" && w[0] == a[0];
    ExportedUnderscore(a[1..]);
  }

  /** Two words joined by an underscore: both get a capital. */
  lemma RenamedTwo(field: string, a: string, b: string, first: string, second: string)
    requires field == a + "_" + b && a != "" && b != "" && 'a' <= a[0] <= 'z' && 'a' <= b[0] <= 'z'
    requires forall i :: 0 <= i < |a| ==> a[i] != '_'
    requires forall i :: 0 <= i < |b| ==> b[i] != '_'
    requires first == [(a[0] as int - 32) as char] + a[1..] && second == [(b[0] as int - 32) as char] + b[1..]
    ensures Exported(field, true) == first + second
  {
    FirstWord(a);
    ExportedAfter(a + "_", b, true);
    ExportedWord(b);
  }

  lemma ProjectName(field: string)
    requires field == "project"
    ensures Exported(field, true) == "Project"
  {
    Renamed(field, "Project");
  }

  lemma PromptName(field: string)
    requires field == "prompt"
    ensures Exported(field, true) == "Prompt"
  {
    Renamed(field, "Prompt");
  }

  lemma ExecName(field: string)
    requires field == "exec"
    ensures Exported(field, true) == "Exec"
  {
    Renamed(field, "Exec");
  }

  lemma DescriptionName(field: string)
    requires field == "description"
    ensures Exported(field, true) == "Description"
  {
    Renamed(field, "Description");
  }

  lemma ModeName(field: string)
    requires field == "mode"
    ensures Exported(field, true) == "Mode"
  {
    Renamed(field, "Mode");
  }

  lemma EnabledName(field: string)
    requires field == "enabled"
    ensures Exported(field, true) == "Enabled"
  {
    Renamed(field, "Enabled");
  }

  lemma SilentName(field: string)
    requires field == "silent"
    ensures Exported(field, true) == "Silent"
  {
    Renamed(field, "Silent");
  }

  lemma MuteName(field: string)
    requires field == "mute"
    ensures Exported(field, true) == "Mute"
  {
    Renamed(field, "Mute");
  }

  lemma SessionKeyName(field: string)
    requires field == "session_key"
    ensures Exported(field, true) == "SessionKey"
  {
    assert field == "session" + "_" + "key" && "SessionKey" == "Session" + "Key";
    RenamedTwo(field, "session", "key", "Session", "Key");
  }

  lemma CronExprName(field: string)
    requires field == "cron_expr"
    ensures Exported(field, true) == "CronExpr"
  {
    assert field == "cron" + "_" + "expr" && "CronExpr" == "Cron" + "Expr";
    RenamedTwo(field, "cron", "expr", "Cron", "Expr");
  }

  lemma WorkDirName(field: string)
    requires field == "work_dir"
    ensures Exported(field, true) == "WorkDir"
  {
    assert field == "work" + "_" + "dir" && "WorkDir" == "Work" + "Dir";
    RenamedTwo(field, "work", "dir", "Work", "Dir");
  }

  lemma SessionModeName(field: string)
    requires field == "session_mode"
    ensures Exported(field, true) == "SessionMode"
  {
    assert field == "session" + "_" + "mode" && "SessionMode" == "Session" + "Mode";
    RenamedTwo(field, "session", "mode", "Session", "Mode");
  }

  lemma TimeoutMinsName(field: string)
    requires field == "timeout_mins"
    ensures Exported(field, true) == "TimeoutMins"
  {
    assert field == "timeout" + "_" + "mins" && "TimeoutMins" == "Timeout" + "Mins";
    RenamedTwo(field, "timeout", "mins", "Timeout", "Mins");
  }

  function GoName(f: Field): string {
    match f
    case Id => "ID"
    case Project => "Project"
    case SessionKey => "SessionKey"
    case CronExpr => "CronExpr"
    case Prompt => "Prompt"
    case Exec => "Exec"
    case WorkDir => "WorkDir"
    case Description => "Description"
    case Enabled => "Enabled"
    case Silent => "Silent"
    case Mute => "Mute"
    case SessionMode => "SessionMode"
    case Mode => "Mode"
    case TimeoutMins => "TimeoutMins"
    case LastError => "LastError"
  }

  lemma GoNames(f: Field, field: string)
    requires Editable(f) && field == JsonName(f)
    ensures Exported(field, true) == GoName(f)
  {
    match f
    case Project => ProjectName(field);
    case SessionKey => SessionKeyName(field);
    case CronExpr => CronExprName(field);
    case Prompt => PromptName(field);
    case Exec => ExecName(field);
    case WorkDir => WorkDirName(field);
    case Description => DescriptionName(field);
    case Enabled => EnabledName(field);
    case Silent => SilentName(field);
    case Mute => MuteName(field);
    case SessionMode => SessionModeName(field);
    case Mode => ModeName(field);
    case TimeoutMins => TimeoutMinsName(field);
  }

  // --- One field ---

  /** Every other field reads as before. */
  ghost predicate OthersKept(j: Job, k: Job, f: Field) {
    forall other :: other != f ==> Read(k, other) == Read(j, other)
  }

  lemma NamedTextReads(j: Job, f: Field, v: string)
    requires Editable(f) && FitsType(f, Str(v))
    ensures var k := SetByName(j, GoName(f), v);
            k.Some? && Read(k.value, f) == Some(Str(v)) && OthersKept(j, k.value, f)
  {
  }

  /** For every editable field and every value of its type: the edit is done, the field then reads the
      value, and every other field reads as before. */
  lemma EditReads(j: Job, f: Field, field: string, value: Value)
    requires Editable(f) && FitsType(f, value) && field == JsonName(f)
    ensures var k := SetField(j, field, value);
            k.Some? && Read(k.value, f) == Some(value) && OthersKept(j, k.value, f)
  {
    if value.Str? {
      GoNames(f, field);
      NamedTextReads(j, f, value.s);
    }
  }

  /** A value of another type is refused. */
  lemma EditRefused(j: Job, f: Field, field: string, value: Value)
    requires Editable(f) && !FitsType(f, value) && field == JsonName(f)
    ensures SetField(j, field, value) == None
  {
    if value.Str? {
      GoNames(f, field);
    }
  }

  // --- The stored jobs ---

  /** The first job with this id is edited, at its place: this field reads the value, its other fields and
      all other jobs are as before. */
  ghost predicate FieldSet(jobs: seq<Job>, jobs': seq<Job>, id: string, f: Field, value: Value) {
    && |jobs'| == |jobs|
    && exists i :: && 0 <= i < |jobs| && jobs[i].id == id && (forall k :: 0 <= k < i ==> jobs[k].id != id)
                   && Read(jobs'[i], f) == Some(value) && OthersKept(jobs[i], jobs'[i], f)
                   && (forall k :: 0 <= k < |jobs| && k != i ==> jobs'[k] == jobs[k])
  }

  predicate Stored(jobs: seq<Job>, id: string) {
    exists i :: 0 <= i < |jobs| && jobs[i].id == id
  }

  lemma StoredIff(jobs: seq<Job>, id: string)
    ensures Stored(jobs, id) <==> Get(jobs, id).Some?
  {
    if Stored(jobs, id) {
      var i :| 0 <= i < |jobs| && jobs[i].id == id;
    } else {
      assert IndexOf(jobs, id) == |jobs|;
    }
  }

  lemma ReplaceSets(jobs: seq<Job>, id: string, j: Job, f: Field, value: Value)
    requires Get(jobs, id).Some? && Read(j, f) == Some(value) && OthersKept(Get(jobs, id).value, j, f)
    ensures FieldSet(jobs, Replace(jobs, id, j), id, f, value)
  {
    var i := IndexOf(jobs, id);
    assert jobs[i].id == id;
  }

  lemma NotReadOnly(f: Field, field: string)
    requires Editable(f) && field == JsonName(f)
    ensures !ReadOnly(field)
  {
  }

  /** The store's edit of any editable field: done exactly for a stored job and a value of the type. */
  lemma StoreEdit(jobs: seq<Job>, id: string, f: Field, field: string, value: Value)
    requires Editable(f) && field == JsonName(f)
    ensures var r := Updated(jobs, id, field, value);
            && (r.Some? <==> Stored(jobs, id) && FitsType(f, value))
            && (r.Some? ==> FieldSet(jobs, r.value, id, f, value))
  {
    StoredIff(jobs, id);
    NotReadOnly(f, field);
    if Get(jobs, id).Some? {
      var j := Get(jobs, id).value;
      if FitsType(f, value) {
        EditReads(j, f, field, value);
        ReplaceSets(jobs, id, SetField(j, field, value).value, f, value);
      } else {
        EditRefused(j, f, field, value);
      }
    }
  }

  /** The fields the scheduler or the store keeps for itself are not edited. */
  lemma StoreRefuses(jobs: seq<Job>, id: string, field: string, value: Value)
    requires field in {"id", "created_at", "last_run", "last_error"}
    ensures Updated(jobs, id, field, value) == None
  {
  }

  /** The checks an edit of a stored job has to pass. */
  predicate Passes(valid: string -> bool, f: Field, value: Value, normalMode: string) {
    && FitsType(f, value)
    && (f.CronExpr? ==> valid(value.s))
    && (f.Mode? ==> value.s in {"", "default", "bypassPermissions", "acceptEdits", "plan", "auto", "dontAsk"})
    && (f.SessionMode? && value.s != "" ==> normalMode in {"", "new_per_run"})
  }

  lemma AllowedIff(valid: string -> bool, f: Field, field: string, value: Value, normalMode: string)
    requires Editable(f) && field == JsonName(f)
    ensures FitsType(f, value) ==>
              (EditAllowed(valid, field, value, normalMode) <==> Passes(valid, f, value, normalMode))
    ensures field == "cron_expr" <==> f.CronExpr?
    ensures field == "enabled" <==> f.Enabled?
  {
  }

  /** The scheduler's edit of any editable field of any job: the stored jobs change exactly when the job
      exists and the checks pass, and then only in that field; the one edit that changes a job and still
      reports a failure switches on a job whose expression does not parse. */
  lemma SchedulerEdit(valid: string -> bool, s: Sched, id: string, f: Field, field: string, value: Value,
                      normalMode: string)
    requires Editable(f) && field == JsonName(f)
    ensures var (t, ok) := UpdateJob(valid, s, id, field, value, normalMode);
            if Stored(s.jobs, id) && Passes(valid, f, value, normalMode)
            then FieldSet(s.jobs, t.jobs, id, f, value)
                 && (ok <==> !(f.Enabled? && value.b && !valid(Get(s.jobs, id).value.cronExpr)))
            else t.jobs == s.jobs && !ok
  {
    StoredIff(s.jobs, id);
    AllowedIff(valid, f, field, value, normalMode);
    StoreEdit(s.jobs, id, f, field, value);
    UpdateOutcome(valid, s, id, field, value, normalMode);
    if Get(s.jobs, id).Some? && EditAllowed(valid, field, value, normalMode) && FitsType(f, value) {
      EditedJob(s.jobs, id, f, field, value);
    }
  }

  /** The edit is the store's; rescheduling decides only what is reported. */
  lemma UpdateOutcome(valid: string -> bool, s: Sched, id: string, field: string, value: Value, normalMode: string)
    ensures var (t, ok) := UpdateJob(valid, s, id, field, value, normalMode);
            var r := Updated(s.jobs, id, field, value);
            if Get(s.jobs, id).None? || !EditAllowed(valid, field, value, normalMode) || r.None?
            then t.jobs == s.jobs && !ok
            else t.jobs == r.value
                 && (ok <==> ((field == "cron_expr" || field == "enabled")
                              && Get(r.value, id).Some? && Get(r.value, id).value.enabled
                              ==> valid(Get(r.value, id).value.cronExpr)))
  {
  }

  /** The job after the edit. */
  lemma EditedJob(jobs: seq<Job>, id: string, f: Field, field: string, value: Value)
    requires Editable(f) && field == JsonName(f) && FitsType(f, value) && Get(jobs, id).Some?
    ensures var r := Updated(jobs, id, field, value);
            && r.Some? && Get(r.value, id).Some?
            && var j, k := Get(jobs, id).value, Get(r.value, id).value;
               Read(k, f) == Some(value) && OthersKept(j, k, f) && k.id == id
  {
    var j := Get(jobs, id).value;
    NotReadOnly(f, field);
    EditReads(j, f, field, value);
    var k := SetField(j, field, value).value;
    assert Read(k, Id) == Read(j, Id);
    ReplaceGets(jobs, id, k);
  }

  // --- The other operations ---

  /** Enabling and disabling change that flag of that job and nothing else in the store. */
  lemma EnableStores(valid: string -> bool, s: Sched, id: string)
    ensures var (t, ok) := EnableJob(valid, s, id);
            if Stored(s.jobs, id)
            then FieldSet(s.jobs, t.jobs, id, Enabled, Bool(true)) && (ok <==> valid(Get(s.jobs, id).value.cronExpr))
            else t.jobs == s.jobs && !ok
  {
    StoredIff(s.jobs, id);
    if Get(s.jobs, id).Some? {
      ReplaceSets(s.jobs, id, Get(s.jobs, id).value.(enabled := true), Enabled, Bool(true));
    }
  }

  lemma DisableStores(s: Sched, id: string)
    ensures var (t, ok) := DisableJob(s, id);
            if Stored(s.jobs, id)
            then FieldSet(s.jobs, t.jobs, id, Enabled, Bool(false)) && ok
            else t.jobs == s.jobs && !ok
  {
    StoredIff(s.jobs, id);
    if Get(s.jobs, id).Some? {
      ReplaceSets(s.jobs, id, Get(s.jobs, id).value.(enabled := false), Enabled, Bool(false));
    }
  }

  /** A removal takes the first job with the id out of the store and keeps the others in order. */
  lemma RemoveStores(s: Sched, id: string)
    ensures var (t, ok) := RemoveJob(s, id);
            && (ok <==> Stored(s.jobs, id)) && (!ok ==> t.jobs == s.jobs)
            && (ok ==> exists a, j, b :: s.jobs == a + [j] + b && t.jobs == a + b && j.id == id && !Stored(a, id))
  {
    StoredIff(s.jobs, id);
    var i := IndexOf(s.jobs, id);
    if i < |s.jobs| {
      var a, j, b := s.jobs[..i], s.jobs[i], s.jobs[i + 1..];
      assert s.jobs == a + [j] + b && !Stored(a, id);
    }
  }

  /** An add appends the job, with the session mode in its normal form, exactly when its modes are known,
      its timeout is no negative number and its expression parses; otherwise nothing is stored. */
  lemma AddStores(valid: string -> bool, s: Sched, j: Job, normalMode: string, saveOk: bool)
    ensures var (t, ok) := AddJob(valid, s, j, normalMode, saveOk);
            var accepted := && normalMode in {"", "new_per_run"}
                            && j.mode in {"", "default", "bypassPermissions", "acceptEdits", "plan", "auto", "dontAsk"}
                            && !(j.timeoutMins.Some? && j.timeoutMins.value < 0) && valid(j.cronExpr);
            && (ok <==> accepted && saveOk)
            && (if accepted
                then |t.jobs| == |s.jobs| + 1 && t.jobs[..|s.jobs|] == s.jobs
                     && Read(t.jobs[|s.jobs|], SessionMode) == Some(Str(normalMode))
                     && OthersKept(j, t.jobs[|s.jobs|], SessionMode)
                else t.jobs == s.jobs)
  {
  }
}
