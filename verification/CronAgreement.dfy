/** core/cron.go: the agreement between cron store, scheduler entries and live registrations. */
module CronAgreement {
  // Also exactly which operations keep it.

  import opened Wrappers
  import opened CronModel

  ghost predicate DistinctIds(jobs: seq<Job>) {
    forall i, j :: 0 <= i < j < |jobs| ==> jobs[i].id != jobs[j].id
  }

  /** The job that should be scheduled under this id, if any. */
  function Due(valid: string -> bool, jobs: seq<Job>, id: string): Option<Job> {
    var j := Get(jobs, id);
    if j.Some? && j.value.enabled && valid(j.value.cronExpr) then j else None
  }

  /** The entries are exactly the enabled jobs (with an expression that parses), each registered with
      its current expression; the live registrations are exactly the entries, none shared, none left
      over. */
  ghost predicate Agrees(valid: string -> bool, s: Sched) {
    && DistinctIds(s.jobs)
    && (forall id :: id in s.entries <==> Due(valid, s.jobs, id).Some?)
    && (forall id :: id in s.entries ==>
         s.entries[id] in s.live && s.live[s.entries[id]] == Reg(id, Due(valid, s.jobs, id).value.cronExpr))
    && (forall e :: e in s.live ==> e < s.next && s.live[e].jobId in s.entries && s.entries[s.live[e].jobId] == e)
  }

  /** Agreement for every id but one. */
  ghost predicate AgreesBut(valid: string -> bool, s: Sched, but: string) {
    && (forall id :: id != but ==> (id in s.entries <==> Due(valid, s.jobs, id).Some?))
    && (forall id :: id != but && id in s.entries ==>
         s.entries[id] in s.live && s.live[s.entries[id]] == Reg(id, Due(valid, s.jobs, id).value.cronExpr))
    && (forall e :: e in s.live ==> e < s.next && s.live[e].jobId in s.entries && s.entries[s.live[e].jobId] == e)
  }

  lemma UnscheduleAgrees(valid: string -> bool, s: Sched, id: string)
    requires AgreesBut(valid, s, id)
    requires id in s.entries ==> s.entries[id] in s.live && s.live[s.entries[id]].jobId == id
    ensures AgreesBut(valid, Unschedule(s, id), id) && id !in Unschedule(s, id).entries
  {
  }

  function Register(s: Sched, j: Job): Sched {
    s.(entries := s.entries[j.id := s.next], live := s.live[s.next := Reg(j.id, j.cronExpr)], next := s.next + 1)
  }

  /** Scheduling is unscheduling followed by a fresh registration. */
  lemma ScheduleIsReplace(valid: string -> bool, s: Sched, j: Job)
    requires valid(j.cronExpr)
    ensures Schedule(valid, s, j) == (Register(Unschedule(s, j.id), j), true)
  {
    assert (s.entries - {j.id})[j.id := s.next] == s.entries[j.id := s.next];
  }

  lemma RegisterAgrees(valid: string -> bool, s: Sched, j: Job)
    requires AgreesBut(valid, s, j.id) && j.id !in s.entries && DistinctIds(s.jobs)
    requires Due(valid, s.jobs, j.id) == Some(j)
    ensures Agrees(valid, Register(s, j))
  {
    var t := Register(s, j);
    forall id | id in t.entries
      ensures t.entries[id] in t.live && t.live[t.entries[id]] == Reg(id, Due(valid, t.jobs, id).value.cronExpr)
    {
      if id != j.id {
        assert id in s.entries && s.entries[id] in s.live;
      }
    }
  }

  /** Scheduling restores agreement for the job's id whatever was registered for it before. */
  lemma ScheduleAgrees(valid: string -> bool, s: Sched, j: Job)
    requires AgreesBut(valid, s, j.id) && Get(s.jobs, j.id) == Some(j) && j.enabled && DistinctIds(s.jobs)
    requires j.id in s.entries ==> s.entries[j.id] in s.live && s.live[s.entries[j.id]].jobId == j.id
    requires valid(j.cronExpr) || j.id !in s.entries
    ensures Agrees(valid, Schedule(valid, s, j).0) && Schedule(valid, s, j).1 == valid(j.cronExpr)
  {
    if valid(j.cronExpr) {
      ScheduleIsReplace(valid, s, j);
      UnscheduleAgrees(valid, s, j.id);
      RegisterAgrees(valid, Unschedule(s, j.id), j);
    } else {
      NothingDue(valid, s, j.id);
    }
  }

  lemma NothingDue(valid: string -> bool, s: Sched, id: string)
    requires AgreesBut(valid, s, id) && id !in s.entries && Due(valid, s.jobs, id).None? && DistinctIds(s.jobs)
    ensures Agrees(valid, s)
  {
  }

  // --- Jobs ---

  lemma {:induction false} IndexInDistinct(jobs: seq<Job>, i: nat)
    requires DistinctIds(jobs) && i < |jobs|
    ensures IndexOf(jobs, jobs[i].id) == i
  {
    if i > 0 {
      var tail := jobs[1..];
      assert forall k :: 0 <= k < |tail| ==> tail[k] == jobs[k + 1];
      IndexInDistinct(tail, i - 1);
    }
  }

  lemma {:induction false} NoneWithId(jobs: seq<Job>, id: string)
    requires forall k :: 0 <= k < |jobs| ==> jobs[k].id != id
    ensures Get(jobs, id).None?
  {
    if jobs != [] { NoneWithId(jobs[1..], id); }
  }

  lemma GetCons(jobs: seq<Job>, id: string)
    requires jobs != []
    ensures Get(jobs, id) == if jobs[0].id == id then Some(jobs[0]) else Get(jobs[1..], id)
  {
  }

  lemma {:induction false} GetSame(a: seq<Job>, b: seq<Job>, id: string)
    requires |a| <= |b|
    requires forall k :: 0 <= k < |a| && a[k].id == id ==> b[k] == a[k]
    requires forall k :: 0 <= k < |a| && a[k].id != id ==> b[k].id != id
    requires forall k :: |a| <= k < |b| ==> b[k].id != id
    ensures Get(b, id) == Get(a, id)
  {
    if a == [] {
      NoneWithId(b, id);
    } else {
      GetCons(a, id);
      GetCons(b, id);
      var x, y := a[1..], b[1..];
      assert forall k :: 0 <= k < |x| ==> x[k] == a[k + 1] && y[k] == b[k + 1];
      assert forall k :: |x| <= k < |y| ==> y[k] == b[k + 1];
      GetSame(x, y, id);
    }
  }

  lemma ReplaceGetsId(jobs: seq<Job>, id: string, j: Job)
    requires Get(jobs, id).Some? && j.id == id
    ensures Get(Replace(jobs, id, j), id) == Some(j)
  {
    var i := IndexOf(jobs, id);
    var r := Replace(jobs, id, j);
    assert r[i].id == id;
    assert IndexOf(r, id) == i;
  }

  /** Replacing a job by one with the same id changes the lookup of that id only. */
  lemma ReplaceGets(jobs: seq<Job>, id: string, j: Job)
    requires Get(jobs, id).Some? && j.id == id
    ensures Get(Replace(jobs, id, j), id) == Some(j)
    ensures forall x :: x != id ==> Get(Replace(jobs, id, j), x) == Get(jobs, x)
    ensures DistinctIds(jobs) ==> DistinctIds(Replace(jobs, id, j))
  {
    var r := Replace(jobs, id, j);
    ReplaceGetsId(jobs, id, j);
    forall x | x != id
      ensures Get(r, x) == Get(jobs, x)
    {
      GetSame(jobs, r, x);
    }
  }

  lemma ReplaceAgreesBut(valid: string -> bool, s: Sched, id: string, j: Job)
    requires Agrees(valid, s) && Get(s.jobs, id).Some? && j.id == id
    ensures var t := s.(jobs := Replace(s.jobs, id, j));
            AgreesBut(valid, t, id) && DistinctIds(t.jobs) && Get(t.jobs, id) == Some(j)
  {
    ReplaceGets(s.jobs, id, j);
  }

  // --- Enable, disable, remove ---

  lemma EnableAgrees(valid: string -> bool, s: Sched, id: string)
    requires Agrees(valid, s)
    ensures Agrees(valid, EnableJob(valid, s, id).0)
  {
    if Get(s.jobs, id).Some? {
      var j := Get(s.jobs, id).value.(enabled := true);
      ReplaceAgreesBut(valid, s, id, j);
      ScheduleAgrees(valid, s.(jobs := Replace(s.jobs, id, j)), j);
    }
  }

  lemma DisableAgrees(valid: string -> bool, s: Sched, id: string)
    requires Agrees(valid, s)
    ensures Agrees(valid, DisableJob(s, id).0)
  {
    if Get(s.jobs, id).Some? {
      var j := Get(s.jobs, id).value.(enabled := false);
      ReplaceAgreesBut(valid, s, id, j);
      var t := s.(jobs := Replace(s.jobs, id, j));
      UnscheduleAgrees(valid, t, id);
      NothingDue(valid, Unschedule(t, id), id);
    }
  }

  lemma RemoveGets(jobs: seq<Job>, id: string)
    requires DistinctIds(jobs)
    ensures Get(RemoveJobAt(jobs, id), id).None?
    ensures forall x :: x != id ==> Get(RemoveJobAt(jobs, id), x) == Get(jobs, x)
    ensures DistinctIds(RemoveJobAt(jobs, id))
  {
    var i := IndexOf(jobs, id);
    if i < |jobs| {
      var r := jobs[..i] + jobs[i + 1..];
      assert forall k :: 0 <= k < |r| ==> r[k] == jobs[if k < i then k else k + 1];
      assert forall k :: 0 <= k < |r| ==> r[k].id != id;
      forall x | x != id
        ensures Get(r, x) == Get(jobs, x)
      {
        RemoveGet(jobs, i, x);
      }
    }
  }

  lemma RemoveGet(jobs: seq<Job>, i: nat, x: string)
    requires i < |jobs| && jobs[i].id != x
    ensures Get(jobs[..i] + jobs[i + 1..], x) == Get(jobs, x)
  {
    var r := jobs[..i] + jobs[i + 1..];
    var a, b := IndexOf(jobs, x), IndexOf(r, x);
    assert forall k :: 0 <= k < |r| ==> r[k] == jobs[if k < i then k else k + 1];
    if a < |jobs| {
      var a' := if a < i then a else a - 1;
      assert r[a'].id == x;
      assert b <= a';
    }
    if b < |r| {
      var b' := if b < i then b else b + 1;
      assert jobs[b'].id == x;
      assert a <= b';
    }
  }

  lemma JobsChangeBut(valid: string -> bool, s: Sched, jobs: seq<Job>, but: string)
    requires AgreesBut(valid, s, but) && forall x :: x != but ==> Get(jobs, x) == Get(s.jobs, x)
    ensures AgreesBut(valid, s.(jobs := jobs), but)
  {
  }

  lemma RemoveAgrees(valid: string -> bool, s: Sched, id: string)
    requires Agrees(valid, s)
    ensures Agrees(valid, RemoveJob(s, id).0) && Get(RemoveJob(s, id).0.jobs, id).None?
    ensures RemoveJob(s, id).1 == Get(s.jobs, id).Some?
  {
    var t := Unschedule(s, id);
    UnscheduleAgrees(valid, s, id);
    RemovedAgrees(valid, t, id);
  }

  /** Deleting the job behind an entry that is already gone. */
  lemma RemovedAgrees(valid: string -> bool, t: Sched, id: string)
    requires AgreesBut(valid, t, id) && id !in t.entries && DistinctIds(t.jobs)
    ensures Agrees(valid, t.(jobs := RemoveJobAt(t.jobs, id))) && Get(RemoveJobAt(t.jobs, id), id).None?
  {
    RemoveGets(t.jobs, id);
    JobsChangeBut(valid, t, RemoveJobAt(t.jobs, id), id);
    NothingDue(valid, t.(jobs := RemoveJobAt(t.jobs, id)), id);
  }

  // --- Add: exactly when it keeps the agreement ---

  lemma AppendGets(jobs: seq<Job>, j: Job)
    requires forall k :: 0 <= k < |jobs| ==> jobs[k].id != j.id
    ensures Get(jobs + [j], j.id) == Some(j)
    ensures forall x :: x != j.id ==> Get(jobs + [j], x) == Get(jobs, x)
  {
    var r := jobs + [j];
    var i := IndexOf(r, j.id);
    assert r[|jobs|].id == j.id;
    assert forall k :: 0 <= k < |jobs| ==> r[k].id != j.id;
    forall x | x != j.id
      ensures Get(r, x) == Get(jobs, x)
    {
      GetSame(jobs, r, x);
    }
  }

  /** A new id keeps the agreement unless the job was enabled and the file could not be saved: the
      job is then in the list, enabled, and not scheduled. */
  lemma AddAgreesIff(valid: string -> bool, s: Sched, j: Job, normalMode: string, saveOk: bool)
    requires Agrees(valid, s) && Get(s.jobs, j.id).None?
    ensures Agrees(valid, AddJob(valid, s, j, normalMode, saveOk).0)
       <==> !(Acceptable(valid, j, normalMode) && j.enabled && !saveOk)
  {
    if Acceptable(valid, j, normalMode) {
      var job := j.(sessionMode := normalMode);
      var t := s.(jobs := s.jobs + [job]);
      AppendGets(s.jobs, job);
      assert DistinctIds(t.jobs);
      assert AgreesBut(valid, t, job.id);
      assert job.id !in s.entries;
      if j.enabled && saveOk {
        ScheduleAgrees(valid, t, job);
      } else if j.enabled {
        assert Due(valid, t.jobs, job.id).Some?;
      } else {
        NothingDue(valid, t, job.id);
      }
    }
  }

  // --- Edit: exactly when it keeps the agreement ---

  /** An edit that leaves scheduler and store in disagreement:
      - "enabled" set to something that is not a boolean, on a scheduled job (the entry is removed
        before the edit is refused);
      - the expression set under another spelling of its name, which reschedules nothing;
      - the id set under another spelling, on a scheduled job or to an id already in use. */
  predicate BreaksAgreement(valid: string -> bool, s: Sched, id: string, field: string, value: Value) {
    var j := Get(s.jobs, id);
    j.Some? &&
    ( (field == "enabled" && !value.Bool? && Due(valid, s.jobs, id).Some?)
      || (!ReadOnly(field) && field != "cron_expr" && Exported(field, true) == "CronExpr" && value.Str?
          && j.value.enabled && value.s != j.value.cronExpr && (valid(value.s) || valid(j.value.cronExpr)))
      || (!ReadOnly(field) && Exported(field, true) == "ID" && value.Str? && value.s != id
          && (Due(valid, s.jobs, id).Some? || Get(s.jobs, value.s).Some?)))
  }

  lemma ExportedStart(field: string)
    requires field != "" && 'a' <= field[0] <= 'z'
    ensures Exported(field, true) != "" && Exported(field, true)[0] as int == field[0] as int - 32
  {
  }

  lemma ExportedAfter(a: string, b: string, upperNext: bool)
    requires a != "" && a[|a| - 1] == '_'
    ensures Exported(a + b, upperNext) == Exported(a, upperNext) + Exported(b, true)
    decreases |a|
  {
    if |a| == 1 {
      assert (a + b)[1..] == b;
    } else {
      assert (a + b)[1..] == a[1..] + b;
      ExportedAfter(a[1..], b, a[0] == '_');
    }
  }

  /** A field name that starts with another letter is not a spelling of the expression or the id. */
  lemma OtherName(field: string)
    requires field != "" && 'a' <= field[0] <= 'z' && field[0] != 'c' && field[0] != 'i'
    ensures Exported(field, true) != "CronExpr" && Exported(field, true) != "ID"
  {
    ExportedStart(field);
  }

  lemma CronExprName()
    ensures Exported("cron_expr", true) == "CronExpr"
  {
    ExportedAfter("cron_", "expr", true);
    assert "cron_" + "expr" == "cron_expr";
    CronName();
    ExprName();
  }

  lemma CronName()
    ensures Exported("cron_", true) == "Cron"
  {
    assert "cron_"[1..] == "ron_" && "ron_"[1..] == "on_" && "on_"[1..] == "n_" && "n_"[1..] == "_";
    assert Exported("_", false) == "";
    assert Exported("n_", false) == "n";
    assert Exported("on_", false) == "on";
    assert Exported("ron_", false) == "ron";
  }

  lemma ExprName()
    ensures Exported("expr", true) == "Expr"
  {
    assert "expr"[1..] == "xpr" && "xpr"[1..] == "pr" && "pr"[1..] == "r";
    assert Exported("r", false) == "r";
    assert Exported("pr", false) == "pr";
    assert Exported("xpr", false) == "xpr";
  }

  lemma SetFieldKeeps(j: Job, field: string, value: Value)
    requires SetField(j, field, value).Some?
    requires !(field == "enabled" && value.Bool?)
    requires !(value.Str? && (Exported(field, true) == "ID" || Exported(field, true) == "CronExpr"))
    ensures var k := SetField(j, field, value).value;
            k.id == j.id && k.enabled == j.enabled && k.cronExpr == j.cronExpr
  {
  }

  /** Job lists under which the same expressions are due. */
  ghost predicate SameDue(valid: string -> bool, jobs: seq<Job>, jobs': seq<Job>) {
    forall x :: var d, d' := Due(valid, jobs, x), Due(valid, jobs', x);
      (d.Some? <==> d'.Some?) && (d.Some? ==> d.value.cronExpr == d'.value.cronExpr)
  }

  lemma SameDueAgrees(valid: string -> bool, s: Sched, jobs': seq<Job>)
    requires Agrees(valid, s) && DistinctIds(jobs') && SameDue(valid, s.jobs, jobs')
    ensures Agrees(valid, s.(jobs := jobs'))
  {
  }

  lemma QuietEditSameDue(valid: string -> bool, jobs: seq<Job>, id: string, k: Job)
    requires Get(jobs, id).Some?
    requires var j := Get(jobs, id).value;
             k.id == j.id && k.enabled == j.enabled
             && (k.cronExpr == j.cronExpr || !k.enabled || (!valid(k.cronExpr) && !valid(j.cronExpr)))
    ensures SameDue(valid, jobs, Replace(jobs, id, k))
  {
    ReplaceGets(jobs, id, k);
  }

  /** The same lookups as far as scheduling goes: the agreement carries over. */
  lemma QuietEditAgrees(valid: string -> bool, s: Sched, id: string, k: Job)
    requires Agrees(valid, s) && Get(s.jobs, id).Some?
    requires var j := Get(s.jobs, id).value;
             k.id == j.id && k.enabled == j.enabled
             && (k.cronExpr == j.cronExpr || !k.enabled || (!valid(k.cronExpr) && !valid(j.cronExpr)))
    ensures Agrees(valid, s.(jobs := Replace(s.jobs, id, k)))
  {
    QuietEditSameDue(valid, s.jobs, id, k);
    ReplaceGets(s.jobs, id, k);
    SameDueAgrees(valid, s, Replace(s.jobs, id, k));
  }

  /** The expression of a job that is, or would become, due is changed behind the scheduler's back. */
  lemma SilentExprBreaks(valid: string -> bool, s: Sched, id: string, e: string)
    requires Agrees(valid, s) && Get(s.jobs, id).Some?
    requires var j := Get(s.jobs, id).value; j.enabled && e != j.cronExpr && (valid(e) || valid(j.cronExpr))
    ensures !Agrees(valid, s.(jobs := Replace(s.jobs, id, Get(s.jobs, id).value.(cronExpr := e))))
  {
    var j := Get(s.jobs, id).value;
    ReplaceGets(s.jobs, id, j.(cronExpr := e));
    var t := s.(jobs := Replace(s.jobs, id, j.(cronExpr := e)));
    assert Due(valid, s.jobs, id).Some? <==> id in s.entries;
    assert Due(valid, t.jobs, id).Some? <==> valid(e);
  }

  /** The id is changed behind the scheduler's back. */
  lemma RenameGets(jobs: seq<Job>, id: string, j: Job)
    requires DistinctIds(jobs) && Get(jobs, id).Some? && j.id != id
    ensures Get(Replace(jobs, id, j), id).None?
    ensures forall x :: x != id && x != j.id ==> Get(Replace(jobs, id, j), x) == Get(jobs, x)
    ensures Get(jobs, j.id).Some? ==> !DistinctIds(Replace(jobs, id, j))
    ensures Get(jobs, j.id).None? ==> DistinctIds(Replace(jobs, id, j)) && Get(Replace(jobs, id, j), j.id) == Some(j)
  {
    var i := IndexOf(jobs, id);
    var r := Replace(jobs, id, j);
    assert forall k :: 0 <= k < |r| ==> r[k].id != id;
    forall x | x != id && x != j.id
      ensures Get(r, x) == Get(jobs, x)
    {
      GetSame(jobs, r, x);
    }
    var k := IndexOf(jobs, j.id);
    assert r[i] == j;
    if k < |jobs| {
      assert r[k].id == j.id && k != i;
    } else {
      assert IndexOf(r, j.id) == i;
    }
  }

  lemma SilentRename(valid: string -> bool, s: Sched, id: string, x: string)
    requires Agrees(valid, s) && Get(s.jobs, id).Some? && x != id
    ensures Agrees(valid, s.(jobs := Replace(s.jobs, id, Get(s.jobs, id).value.(id := x))))
       <==> Due(valid, s.jobs, id).None? && Get(s.jobs, x).None?
  {
    var j := Get(s.jobs, id).value.(id := x);
    var t := s.(jobs := Replace(s.jobs, id, j));
    RenameGets(s.jobs, id, j);
    if Due(valid, s.jobs, id).Some? {
      assert id in t.entries && Due(valid, t.jobs, id).None?;
    } else if Get(s.jobs, x).None? {
      RenamedAgrees(valid, s, t, id, x);
    }
  }

  lemma RenamedAgrees(valid: string -> bool, s: Sched, t: Sched, id: string, x: string)
    requires Agrees(valid, s) && x != id && t == s.(jobs := t.jobs) && DistinctIds(t.jobs)
    requires Due(valid, s.jobs, id).None? && Get(s.jobs, x).None?
    requires Get(t.jobs, id).None? && Due(valid, t.jobs, x).None?
    requires forall y :: y != id && y != x ==> Get(t.jobs, y) == Get(s.jobs, y)
    ensures Agrees(valid, t)
  {
    assert forall y :: Due(valid, t.jobs, y) == Due(valid, s.jobs, y);
  }

  /** The two fields that reschedule, edited under their canonical names. */
  lemma RescheduleAgrees(valid: string -> bool, s: Sched, id: string, k: Job)
    requires Agrees(valid, s) && Get(s.jobs, id).Some? && k.id == id
    ensures var u := Unschedule(s, id).(jobs := Replace(s.jobs, id, k));
            Get(u.jobs, id) == Some(k)
            && Agrees(valid, if k.enabled then Schedule(valid, u, k).0 else u)
  {
    UnscheduleAgrees(valid, s, id);
    ReplaceGets(s.jobs, id, k);
    var u := Unschedule(s, id).(jobs := Replace(s.jobs, id, k));
    JobsChangeBut(valid, Unschedule(s, id), u.jobs, id);
    if k.enabled {
      ScheduleAgrees(valid, u, k);
    } else {
      NothingDue(valid, u, id);
    }
  }

  lemma RefusedEnabledEdit(valid: string -> bool, s: Sched, id: string)
    requires Agrees(valid, s)
    ensures Agrees(valid, Unschedule(s, id)) <==> Due(valid, s.jobs, id).None?
  {
    if Due(valid, s.jobs, id).Some? {
      assert id !in Unschedule(s, id).entries;
    }
  }

  lemma CronExprSets(j: Job, field: string, value: Value)
    requires field == "cron_expr" && value.Str?
    ensures SetField(j, field, value) == Some(j.(cronExpr := value.s))
    ensures Exported(field, true) == "CronExpr" && !ReadOnly(field)
  {
    CronExprName();
  }

  lemma CronExprEdit(valid: string -> bool, s: Sched, id: string, field: string, value: Value, normalMode: string)
    requires Agrees(valid, s) && field == "cron_expr"
    ensures Agrees(valid, UpdateJob(valid, s, id, field, value, normalMode).0)
    ensures !BreaksAgreement(valid, s, id, field, value)
  {
    if value.Str? && Get(s.jobs, id).Some? {
      CronExprSets(Get(s.jobs, id).value, field, value);
      RescheduleAgrees(valid, s, id, Get(s.jobs, id).value.(cronExpr := value.s));
    }
  }

  /** "Enabled" is not the name of a string field. */
  lemma EnabledSets(j: Job, field: string, value: Value)
    requires field == "enabled"
    ensures SetField(j, field, value) == if value.Bool? then Some(j.(enabled := value.b)) else None
    ensures Exported(field, true) != "CronExpr" && Exported(field, true) != "ID" && !ReadOnly(field)
  {
    OtherName(field);
    var name := Exported(field, true);
    assert field[1..] == "nabled" && "nabled"[0] == 'n';
    assert Exported("nabled", false) == ['n'] + Exported("nabled"[1..], false);
    assert name == ['E'] + Exported("nabled", false);
    assert name[0] == 'E' && name[1] == 'n';
  }

  lemma EnabledSwitched(valid: string -> bool, s: Sched, id: string, field: string, value: Value, normalMode: string)
    requires Agrees(valid, s) && field == "enabled" && value.Bool? && Get(s.jobs, id).Some?
    ensures Agrees(valid, UpdateJob(valid, s, id, field, value, normalMode).0)
  {
    var j := Get(s.jobs, id).value;
    EnabledSets(j, field, value);
    RescheduleAgrees(valid, s, id, j.(enabled := value.b));
  }

  lemma EnabledEdit(valid: string -> bool, s: Sched, id: string, field: string, value: Value, normalMode: string)
    requires Agrees(valid, s) && field == "enabled"
    ensures Agrees(valid, UpdateJob(valid, s, id, field, value, normalMode).0)
       <==> !BreaksAgreement(valid, s, id, field, value)
  {
    if Get(s.jobs, id).Some? {
      var j := Get(s.jobs, id).value;
      EnabledSets(j, field, value);
      if value.Bool? {
        EnabledSwitched(valid, s, id, field, value, normalMode);
      } else {
        RefusedEnabledEdit(valid, s, id);
      }
    }
  }

  lemma AnyOtherEdit(valid: string -> bool, s: Sched, id: string, field: string, value: Value, normalMode: string)
    requires Agrees(valid, s) && field != "cron_expr" && field != "enabled"
    ensures Agrees(valid, UpdateJob(valid, s, id, field, value, normalMode).0)
       <==> !BreaksAgreement(valid, s, id, field, value)
  {
    if Get(s.jobs, id).Some? {
      if EditAllowed(valid, field, value, normalMode) {
        OtherEditAgreesIff(valid, s, id, field, value);
      } else {
        OtherName(field);
      }
    }
  }

  /** An edit keeps the agreement if and only if it is not one of the three kinds above: over every
      job list, field spelling and value. */
  lemma UpdateAgreesIff(valid: string -> bool, s: Sched, id: string, field: string, value: Value, normalMode: string)
    requires Agrees(valid, s)
    ensures Agrees(valid, UpdateJob(valid, s, id, field, value, normalMode).0)
       <==> !BreaksAgreement(valid, s, id, field, value)
  {
    if field == "cron_expr" {
      CronExprEdit(valid, s, id, field, value, normalMode);
    } else if field == "enabled" {
      EnabledEdit(valid, s, id, field, value, normalMode);
    } else {
      AnyOtherEdit(valid, s, id, field, value, normalMode);
    }
  }

  lemma ExprEditAgreesIff(valid: string -> bool, s: Sched, id: string, e: string)
    requires Agrees(valid, s) && Get(s.jobs, id).Some?
    ensures Agrees(valid, s.(jobs := Replace(s.jobs, id, Get(s.jobs, id).value.(cronExpr := e))))
       <==> !(Get(s.jobs, id).value.enabled && e != Get(s.jobs, id).value.cronExpr
              && (valid(e) || valid(Get(s.jobs, id).value.cronExpr)))
  {
    var j := Get(s.jobs, id).value;
    if j.enabled && e != j.cronExpr && (valid(e) || valid(j.cronExpr)) {
      SilentExprBreaks(valid, s, id, e);
    } else {
      QuietEditAgrees(valid, s, id, j.(cronExpr := e));
    }
  }

  lemma IdEditAgreesIff(valid: string -> bool, s: Sched, id: string, x: string)
    requires Agrees(valid, s) && Get(s.jobs, id).Some?
    ensures Agrees(valid, s.(jobs := Replace(s.jobs, id, Get(s.jobs, id).value.(id := x))))
       <==> !(x != id && (Due(valid, s.jobs, id).Some? || Get(s.jobs, x).Some?))
  {
    if x == id {
      QuietEditAgrees(valid, s, id, Get(s.jobs, id).value.(id := x));
    } else {
      SilentRename(valid, s, id, x);
    }
  }

  lemma OtherEditAgreesIff(valid: string -> bool, s: Sched, id: string, field: string, value: Value)
    requires Agrees(valid, s) && Get(s.jobs, id).Some? && field != "cron_expr" && field != "enabled"
    ensures Agrees(valid, match Updated(s.jobs, id, field, value) case None => s case Some(jobs) => s.(jobs := jobs))
       <==> !BreaksAgreement(valid, s, id, field, value)
  {
    var j := Get(s.jobs, id).value;
    var k := SetField(j, field, value);
    if ReadOnly(field) || k.None? {
    } else if value.Str? && Exported(field, true) == "ID" {
      assert k == Some(j.(id := value.s));
      IdEditAgreesIff(valid, s, id, value.s);
    } else if value.Str? && Exported(field, true) == "CronExpr" {
      assert k == Some(j.(cronExpr := value.s));
      ExprEditAgreesIff(valid, s, id, value.s);
    } else {
      SetFieldKeeps(j, field, value);
      QuietEditAgrees(valid, s, id, k.value);
    }
  }

  // --- Start ---

  /** The entries are the jobs to be scheduled among the first n. */
  ghost predicate EntriesUpTo(valid: string -> bool, s: Sched, n: nat) {
    forall id :: id in s.entries <==> IndexOf(s.jobs, id) < n && Due(valid, s.jobs, id).Some?
  }

  /** Every entry is registered with its job's expression. */
  ghost predicate EntriesLive(valid: string -> bool, s: Sched) {
    forall id :: id in s.entries ==>
      Due(valid, s.jobs, id).Some? && s.entries[id] in s.live
      && s.live[s.entries[id]] == Reg(id, Due(valid, s.jobs, id).value.cronExpr)
  }

  /** No registration is shared or left over. */
  ghost predicate LiveEntries(s: Sched) {
    forall e :: e in s.live ==> e < s.next && s.live[e].jobId in s.entries && s.entries[s.live[e].jobId] == e
  }

  /** The agreement as far as the first n jobs have been looked at. */
  ghost predicate AgreesUpTo(valid: string -> bool, s: Sched, n: nat)
    requires n <= |s.jobs|
  {
    EntriesUpTo(valid, s, n) && EntriesLive(valid, s) && LiveEntries(s)
  }

  lemma RegisterEntries(valid: string -> bool, s: Sched, n: nat)
    requires n < |s.jobs| && EntriesUpTo(valid, s, n) && DistinctIds(s.jobs)
    requires s.jobs[n].enabled && valid(s.jobs[n].cronExpr)
    ensures EntriesUpTo(valid, Register(s, s.jobs[n]), n + 1)
    ensures Due(valid, s.jobs, s.jobs[n].id) == Some(s.jobs[n]) && s.jobs[n].id !in s.entries
  {
    IndexInDistinct(s.jobs, n);
    assert forall id :: IndexOf(s.jobs, id) == n ==> id == s.jobs[n].id;
  }

  lemma RegisterLive(valid: string -> bool, s: Sched, j: Job)
    requires EntriesLive(valid, s) && LiveEntries(s)
    requires Due(valid, s.jobs, j.id) == Some(j) && j.id !in s.entries
    ensures EntriesLive(valid, Register(s, j)) && LiveEntries(Register(s, j))
  {
    var t := Register(s, j);
    forall id | id in t.entries
      ensures Due(valid, t.jobs, id).Some? && t.entries[id] in t.live
      ensures t.live[t.entries[id]] == Reg(id, Due(valid, t.jobs, id).value.cronExpr)
    {
      if id != j.id { assert id in s.entries && s.entries[id] in s.live && s.entries[id] < s.next; }
    }
  }

  lemma RegisterUpTo(valid: string -> bool, s: Sched, n: nat)
    requires n < |s.jobs| && AgreesUpTo(valid, s, n) && DistinctIds(s.jobs)
    requires s.jobs[n].enabled && valid(s.jobs[n].cronExpr)
    ensures AgreesUpTo(valid, Register(s, s.jobs[n]), n + 1)
  {
    RegisterEntries(valid, s, n);
    RegisterLive(valid, s, s.jobs[n]);
  }

  lemma SkipUpTo(valid: string -> bool, s: Sched, n: nat)
    requires n < |s.jobs| && AgreesUpTo(valid, s, n) && DistinctIds(s.jobs)
    requires !s.jobs[n].enabled || !valid(s.jobs[n].cronExpr)
    ensures AgreesUpTo(valid, s, n + 1)
  {
    assert forall id :: IndexOf(s.jobs, id) == n ==> id == s.jobs[n].id;
    assert Due(valid, s.jobs, s.jobs[n].id).None? by { IndexInDistinct(s.jobs, n); }
  }

  lemma StartStep(valid: string -> bool, s: Sched, n: nat)
    requires n < |s.jobs| && AgreesUpTo(valid, s, n) && DistinctIds(s.jobs)
    ensures AgreesUpTo(valid, if s.jobs[n].enabled then Schedule(valid, s, s.jobs[n]).0 else s, n + 1)
    ensures Schedule(valid, s, s.jobs[n]).0.jobs == s.jobs
  {
    var j := s.jobs[n];
    IndexInDistinct(s.jobs, n);
    assert j.id !in s.entries;
    if j.enabled && valid(j.cronExpr) {
      ScheduleIsReplace(valid, s, j);
      RegisterUpTo(valid, s, n);
    } else {
      SkipUpTo(valid, s, n);
    }
  }

  lemma {:induction false} StartedJobs(valid: string -> bool, s: Sched, n: nat)
    requires n <= |s.jobs|
    ensures Started(valid, s, n).jobs == s.jobs
  {
    if n > 0 {
      StartedJobs(valid, s, n - 1);
    }
  }

  lemma {:induction false} StartedUpTo(valid: string -> bool, s: Sched, n: nat)
    requires n <= |s.jobs| && DistinctIds(s.jobs) && s.entries == map[] && s.live == map[]
    ensures n <= |Started(valid, s, n).jobs| && AgreesUpTo(valid, Started(valid, s, n), n)
  {
    StartedJobs(valid, s, n);
    if n > 0 {
      StartedJobs(valid, s, n - 1);
      StartedUpTo(valid, s, n - 1);
      StartStep(valid, Started(valid, s, n - 1), n - 1);
    }
  }

  /** Whatever the job file holds (with distinct ids), Start brings about the agreement; jobs whose
      expression does not parse stay unscheduled. */
  lemma StartAgrees(valid: string -> bool, s: Sched)
    requires DistinctIds(s.jobs) && s.entries == map[] && s.live == map[]
    ensures Agrees(valid, Started(valid, s, |s.jobs|))
  {
    StartedJobs(valid, s, |s.jobs|);
    StartedUpTo(valid, s, |s.jobs|);
  }

  // --- Whole runs ---

  datatype Op =
    | Add(job: Job, normalMode: string, saveOk: bool)
    | Remove(id: string)
    | Enable(id: string)
    | Disable(id: string)
    | Update(id: string, field: string, value: Value, normalMode: string)

  function Apply(valid: string -> bool, s: Sched, op: Op): Sched {
    match op
    case Add(j, m, ok) => AddJob(valid, s, j, m, ok).0
    case Remove(id) => RemoveJob(s, id).0
    case Enable(id) => EnableJob(valid, s, id).0
    case Disable(id) => DisableJob(s, id).0
    case Update(id, f, v, m) => UpdateJob(valid, s, id, f, v, m).0
  }

  /** Visible before the call. */
  predicate Harmless(valid: string -> bool, s: Sched, op: Op) {
    match op
    case Add(j, m, ok) => !(Acceptable(valid, j, m) && j.enabled && !ok)
    case Update(id, f, v, _) => !BreaksAgreement(valid, s, id, f, v)
    case _ => true
  }

  /** Ids are generated fresh. */
  predicate FreshId(s: Sched, op: Op) {
    op.Add? ==> Get(s.jobs, op.job.id).None?
  }

  /** Every operation keeps the agreement exactly when it is harmless. */
  lemma ApplyAgreesIff(valid: string -> bool, s: Sched, op: Op)
    requires Agrees(valid, s) && FreshId(s, op)
    ensures Agrees(valid, Apply(valid, s, op)) <==> Harmless(valid, s, op)
  {
    match op
    case Add(j, m, ok) => AddAgreesIff(valid, s, j, m, ok);
    case Remove(id) => RemoveAgrees(valid, s, id);
    case Enable(id) => EnableAgrees(valid, s, id);
    case Disable(id) => DisableAgrees(valid, s, id);
    case Update(id, f, v, m) => UpdateAgreesIff(valid, s, id, f, v, m);
  }

  ghost predicate HarmlessRun(valid: string -> bool, s: Sched, ops: seq<Op>)
    decreases |ops|
  {
    ops != [] ==> FreshId(s, ops[0]) && Harmless(valid, s, ops[0]) && HarmlessRun(valid, Apply(valid, s, ops[0]), ops[1..])
  }

  function ApplyAll(valid: string -> bool, s: Sched, ops: seq<Op>): Sched
    decreases |ops|
  {
    if ops == [] then s else ApplyAll(valid, Apply(valid, s, ops[0]), ops[1..])
  }

  lemma {:induction false} RunAgrees(valid: string -> bool, s: Sched, ops: seq<Op>)
    requires Agrees(valid, s) && HarmlessRun(valid, s, ops)
    ensures Agrees(valid, ApplyAll(valid, s, ops))
    decreases |ops|
  {
    if ops != [] {
      ApplyAgreesIff(valid, s, ops[0]);
      RunAgrees(valid, Apply(valid, s, ops[0]), ops[1..]);
    }
  }

  /** From start-up on, through any run of adds with fresh ids, removals, enables, disables and edits
      of which none is one of the harmful kinds, the entries are exactly the enabled jobs, the live
      registrations exactly the entries, each with its job's current expression. */
  lemma SchedulerAgreesWithStore(valid: string -> bool, loaded: Sched, ops: seq<Op>)
    requires DistinctIds(loaded.jobs) && loaded.entries == map[] && loaded.live == map[]
    requires HarmlessRun(valid, Started(valid, loaded, |loaded.jobs|), ops)
    ensures Agrees(valid, ApplyAll(valid, Started(valid, loaded, |loaded.jobs|), ops))
  {
    StartAgrees(valid, loaded);
    RunAgrees(valid, Started(valid, loaded, |loaded.jobs|), ops);
  }
}
