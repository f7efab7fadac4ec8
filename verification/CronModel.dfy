/** core/cron.go as functions on values: what each store and scheduler operation does to the job list,
    the entries map and the live registrations of the cron runner. */
module CronModel {
  import opened Wrappers

  datatype Job = Job(
    id: string, project: string, sessionKey: string, cronExpr: string, prompt: string, exec: string,
    workDir: string, description: string, enabled: bool, silent: Option<bool>, mute: bool,
    sessionMode: string, mode: string, timeoutMins: Option<int>, lastError: string)

  /** A JSON value handed to an edit. */
  datatype Value = Str(s: string) | Bool(b: bool) | Num(n: int) | Other

  /** A callback registered with the cron runner. */
  datatype Reg = Reg(jobId: string, expr: string)

  datatype Sched = Sched(
    jobs: seq<Job>,
    entries: map<string, nat>,   // job id to runner entry
    live: map<nat, Reg>,         // the runner's entries
    next: nat)                   // the runner's next entry id

  // --- Store ---

  function IndexOf(jobs: seq<Job>, id: string): (i: nat)
    ensures i <= |jobs|
    ensures i < |jobs| ==> jobs[i].id == id
    ensures forall k :: 0 <= k < i ==> jobs[k].id != id
  {
    if jobs == [] || jobs[0].id == id then 0 else 1 + IndexOf(jobs[1..], id)
  }

  /** store.Get: the first job with this id. */
  function Get(jobs: seq<Job>, id: string): Option<Job> {
    if IndexOf(jobs, id) < |jobs| then Some(jobs[IndexOf(jobs, id)]) else None
  }

  function RemoveJobAt(jobs: seq<Job>, id: string): seq<Job> {
    var i := IndexOf(jobs, id);
    if i < |jobs| then jobs[..i] + jobs[i + 1..] else jobs
  }

  function Replace(jobs: seq<Job>, id: string, j: Job): seq<Job> {
    var i := IndexOf(jobs, id);
    if i < |jobs| then jobs[i := j] else jobs
  }

  /** toExportedFieldName */
  function Exported(field: string, upperNext: bool): string
    decreases |field|
  {
    if field == [] then []
    else if field[0] == '_' then Exported(field[1..], true)
    else
      var c := field[0];
      var u := if upperNext && 'a' <= c <= 'z' then (c as int - 32) as char else c;
      [u] + Exported(field[1..], false)
  }

  /** The reflection fallback of updateJobField: any string field, under its Go name. */
  function SetByName(j: Job, name: string, v: string): Option<Job> {
    match name
    case "ID" => Some(j.(id := v))
    case "Project" => Some(j.(project := v))
    case "SessionKey" => Some(j.(sessionKey := v))
    case "CronExpr" => Some(j.(cronExpr := v))
    case "Prompt" => Some(j.(prompt := v))
    case "Exec" => Some(j.(exec := v))
    case "WorkDir" => Some(j.(workDir := v))
    case "Description" => Some(j.(description := v))
    case "SessionMode" => Some(j.(sessionMode := v))
    case "Mode" => Some(j.(mode := v))
    case "LastError" => Some(j.(lastError := v))
    case _ => None
  }

  /** updateJobField */
  function SetField(j: Job, field: string, value: Value): Option<Job> {
    if field == "enabled" && value.Bool? then Some(j.(enabled := value.b))
    else if field == "silent" && value.Bool? then Some(j.(silent := Some(value.b)))
    else if field == "mute" && value.Bool? then Some(j.(mute := value.b))
    else if field == "timeout_mins" && value.Num? then Some(j.(timeoutMins := Some(value.n)))
    else if value.Str? then SetByName(j, Exported(field, true), value.s)
    else None
  }

  predicate ReadOnly(field: string) {
    field == "id" || field == "created_at" || field == "last_run" || field == "last_error"
  }

  /** store.Update */
  function Updated(jobs: seq<Job>, id: string, field: string, value: Value): Option<seq<Job>> {
    if ReadOnly(field) || Get(jobs, id).None? then None
    else
      match SetField(Get(jobs, id).value, field, value)
      case None => None
      case Some(j) => Some(Replace(jobs, id, j))
  }

  // --- Scheduler ---

  function Unschedule(s: Sched, id: string): Sched {
    if id in s.entries then s.(entries := s.entries - {id}, live := s.live - {s.entries[id]}) else s
  }

  /** scheduleJob: the old registration goes first, the new one comes if the expression parses. */
  function Schedule(valid: string -> bool, s: Sched, j: Job): (Sched, bool) {
    var t := if j.id in s.entries then s.(live := s.live - {s.entries[j.id]}) else s;
    if !valid(j.cronExpr) then (t, false)
    else
      (t.(entries := t.entries[j.id := t.next],
          live := t.live[t.next := Reg(j.id, j.cronExpr)],
          next := t.next + 1), true)
  }

  predicate KnownMode(mode: string) {
    mode == "" || mode == "default" || mode == "bypassPermissions" || mode == "acceptEdits"
    || mode == "plan" || mode == "auto" || mode == "dontAsk"
  }

  /** validateCronJob and the expression check, with the session mode's normal form as given. */
  predicate Acceptable(valid: string -> bool, j: Job, normalMode: string) {
    (normalMode == "" || normalMode == "new_per_run") && KnownMode(j.mode)
    && (j.timeoutMins.Some? ==> j.timeoutMins.value >= 0) && valid(j.cronExpr)
  }

  /** AddJob; saving the job file may fail after the job has been appended. */
  function AddJob(valid: string -> bool, s: Sched, j: Job, normalMode: string, saveOk: bool): (Sched, bool) {
    var job := j.(sessionMode := normalMode);
    if !Acceptable(valid, j, normalMode) then (s, false)
    else
      var t := s.(jobs := s.jobs + [job]);
      if !saveOk then (t, false) else if job.enabled then Schedule(valid, t, job) else (t, true)
  }

  function RemoveJob(s: Sched, id: string): (Sched, bool) {
    var t := Unschedule(s, id);
    (t.(jobs := RemoveJobAt(t.jobs, id)), Get(t.jobs, id).Some?)
  }

  function EnableJob(valid: string -> bool, s: Sched, id: string): (Sched, bool) {
    match Get(s.jobs, id)
    case None => (s, false)
    case Some(j) =>
      var job := j.(enabled := true);
      Schedule(valid, s.(jobs := Replace(s.jobs, id, job)), job)
  }

  function DisableJob(s: Sched, id: string): (Sched, bool) {
    match Get(s.jobs, id)
    case None => (s, false)
    case Some(j) => (Unschedule(s.(jobs := Replace(s.jobs, id, j.(enabled := false))), id), true)
  }

  /** UpdateJob's checks before anything changes. normalMode is the session mode's normal form. */
  predicate EditAllowed(valid: string -> bool, field: string, value: Value, normalMode: string) {
    && (field == "cron_expr" ==> value.Str? && valid(value.s))
    && (field == "mode" && value.Str? ==> KnownMode(value.s))
    && (field == "session_mode" && value.Str? && value.s != "" ==> normalMode == "" || normalMode == "new_per_run")
  }

  function UpdateJob(valid: string -> bool, s: Sched, id: string, field: string, value: Value, normalMode: string): (Sched, bool) {
    if Get(s.jobs, id).None? || !EditAllowed(valid, field, value, normalMode) then (s, false)
    else
      var reschedule := field == "cron_expr" || field == "enabled";
      var t := if reschedule then Unschedule(s, id) else s;
      match Updated(t.jobs, id, field, value)
      case None => (t, false)
      case Some(jobs) =>
        var u := t.(jobs := jobs);
        var j := Get(u.jobs, id);
        if reschedule && j.Some? && j.value.enabled then Schedule(valid, u, j.value) else (u, true)
  }

  /** Start: schedules the enabled jobs among the first n. */
  function Started(valid: string -> bool, s: Sched, n: nat): Sched
    requires n <= |s.jobs|
  {
    if n == 0 then s
    else
      var t := Started(valid, s, n - 1);
      if s.jobs[n - 1].enabled then Schedule(valid, t, s.jobs[n - 1]).0 else t
  }
}
