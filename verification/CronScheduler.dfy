/** core/cron.go: the store and scheduler objects. Every method is tied to its function in CronModel, so
    the agreement proved there carries over to them. */
module CronScheduler {
  import opened Wrappers
  import opened CronModel
  import CronAgreement

  lemma IndexFound(jobs: seq<Job>, id: string, i: nat)
    requires i < |jobs| && jobs[i].id == id && forall k :: 0 <= k < i ==> jobs[k].id != id
    ensures IndexOf(jobs, id) == i
  {
  }

  lemma IndexMissing(jobs: seq<Job>, id: string)
    requires forall k :: 0 <= k < |jobs| ==> jobs[k].id != id
    ensures IndexOf(jobs, id) == |jobs|
  {
  }

  /** The linear search every store method starts with. */
  method Find(jobs: seq<Job>, id: string) returns (i: nat)
    ensures i == IndexOf(jobs, id)
  {
    i := 0;
    while i < |jobs| && jobs[i].id != id
      invariant 0 <= i <= |jobs|
      invariant forall k :: 0 <= k < i ==> jobs[k].id != id
    {
      i := i + 1;
    }
    if i < |jobs| {
      IndexFound(jobs, id, i);
    } else {
      IndexMissing(jobs, id);
    }
  }

  class CronStore {
    var jobs: seq<Job>

    constructor (loaded: seq<Job>)
      ensures jobs == loaded
    {
      jobs := loaded;
    }

    /** Appends, then saves; a failed save leaves the job in the list. */
    method Add(job: Job, saveOk: bool) returns (ok: bool)
      modifies this
      ensures jobs == old(jobs) + [job] && ok == saveOk
    {
      jobs := jobs + [job];
      ok := saveOk;
    }

    method Remove(id: string) returns (found: bool)
      modifies this
      ensures jobs == RemoveJobAt(old(jobs), id) && found == Get(old(jobs), id).Some?
    {
      var i := Find(jobs, id);
      found := i < |jobs|;
      if found {
        jobs := jobs[..i] + jobs[i + 1..];
      }
    }

    method SetEnabled(id: string, enabled: bool) returns (found: bool)
      modifies this
      ensures found == Get(old(jobs), id).Some?
      ensures jobs == if found then Replace(old(jobs), id, Get(old(jobs), id).value.(enabled := enabled)) else old(jobs)
    {
      var i := Find(jobs, id);
      found := i < |jobs|;
      if found {
        jobs := jobs[i := jobs[i].(enabled := enabled)];
      }
    }

    method Lookup(id: string) returns (job: Option<Job>)
      ensures job == Get(jobs, id)
    {
      var i := Find(jobs, id);
      job := if i < |jobs| then Some(jobs[i]) else None;
    }

    method Update(id: string, field: string, value: Value) returns (ok: bool)
      modifies this
      ensures ok == Updated(old(jobs), id, field, value).Some?
      ensures jobs == if ok then Updated(old(jobs), id, field, value).value else old(jobs)
    {
      if ReadOnly(field) {
        return false;
      }
      var i := Find(jobs, id);
      if i == |jobs| {
        return false;
      }
      var changed := SetField(jobs[i], field, value);
      if changed.None? {
        return false;
      }
      jobs := jobs[i := changed.value];
      return true;
    }
  }

  /** The cron library's table of registered callbacks. */
  class Runner {
    var live: map<nat, Reg>
    var next: nat

    constructor ()
      ensures live == map[] && next == 0
    {
      live, next := map[], 0;
    }

    method AddFunc(valid: string -> bool, reg: Reg) returns (entry: Option<nat>)
      modifies this
      ensures !valid(reg.expr) ==> entry == None && live == old(live) && next == old(next)
      ensures valid(reg.expr) ==> entry == Some(old(next)) && live == old(live)[old(next) := reg] && next == old(next) + 1
    {
      if !valid(reg.expr) {
        return None;
      }
      live, next, entry := live[next := reg], next + 1, Some(next);
    }

    method Remove(entry: nat)
      modifies this`live
      ensures live == old(live) - {entry}
    {
      live := live - {entry};
    }
  }

  class CronScheduler {
    const store: CronStore
    const runner: Runner
    const valid: string -> bool
    var entries: map<string, nat>

    ghost function View(): Sched
      reads this, store, runner
    {
      Sched(store.jobs, entries, runner.live, runner.next)
    }

    constructor (store: CronStore, valid: string -> bool)
      ensures this.store == store && this.valid == valid && fresh(runner)
      ensures View() == Sched(store.jobs, map[], map[], 0)
    {
      this.store, this.valid, entries := store, valid, map[];
      runner := new Runner();
    }

    method DropEntry(id: string)
      modifies this, runner
      ensures View() == Unschedule(old(View()), id)
    {
      if id in entries {
        runner.Remove(entries[id]);
        entries := entries - {id};
      }
    }

    method ScheduleJob(job: Job) returns (ok: bool)
      modifies this, runner
      ensures (View(), ok) == Schedule(valid, old(View()), job)
    {
      if job.id in entries {
        runner.Remove(entries[job.id]);
      }
      var entry := runner.AddFunc(valid, Reg(job.id, job.cronExpr));
      if entry.None? {
        return false;
      }
      entries := entries[job.id := entry.value];
      return true;
    }

    method Start()
      modifies this, runner
      ensures View() == Started(valid, old(View()), |store.jobs|)
    {
      var jobs := store.jobs;
      ghost var start := View();
      var n := 0;
      while n < |jobs|
        invariant 0 <= n <= |jobs| && store.jobs == jobs && start.jobs == jobs
        invariant View() == Started(valid, start, n)
      {
        if jobs[n].enabled {
          var ok := ScheduleJob(jobs[n]);
        }
        n := n + 1;
      }
    }

    method Add(job: Job, normalMode: string, saveOk: bool) returns (ok: bool)
      modifies this, store, runner
      ensures (View(), ok) == AddJob(valid, old(View()), job, normalMode, saveOk)
    {
      if !((normalMode == "" || normalMode == "new_per_run") && KnownMode(job.mode)
           && (job.timeoutMins.Some? ==> job.timeoutMins.value >= 0)) {
        return false;
      }
      var j := job.(sessionMode := normalMode);
      if !valid(j.cronExpr) {
        return false;
      }
      var saved := store.Add(j, saveOk);
      if !saved {
        return false;
      }
      if j.enabled {
        ok := ScheduleJob(j);
      } else {
        ok := true;
      }
    }

    method Remove(id: string) returns (found: bool)
      modifies this, store, runner
      ensures (View(), found) == RemoveJob(old(View()), id)
    {
      DropEntry(id);
      found := store.Remove(id);
    }

    method Enable(id: string) returns (ok: bool)
      modifies this, store, runner
      ensures (View(), ok) == EnableJob(valid, old(View()), id)
    {
      ghost var jobs := store.jobs;
      var found := store.SetEnabled(id, true);
      if !found {
        return false;
      }
      CronAgreement.ReplaceGetsId(jobs, id, Get(jobs, id).value.(enabled := true));
      var job := store.Lookup(id);
      if job.None? {
        return true;
      }
      ok := ScheduleJob(job.value);
    }

    method Disable(id: string) returns (ok: bool)
      modifies this, store, runner
      ensures (View(), ok) == DisableJob(old(View()), id)
    {
      var found := store.SetEnabled(id, false);
      if !found {
        return false;
      }
      DropEntry(id);
      return true;
    }

    method Update(id: string, field: string, value: Value, normalMode: string) returns (ok: bool)
      modifies this, store, runner
      ensures (View(), ok) == UpdateJob(valid, old(View()), id, field, value, normalMode)
    {
      var job := store.Lookup(id);
      if job.None? || !EditAllowed(valid, field, value, normalMode) {
        return false;
      }
      var reschedule := field == "cron_expr" || field == "enabled";
      if reschedule {
        DropEntry(id);
      }
      var done := store.Update(id, field, value);
      if !done {
        return false;
      }
      if reschedule {
        var updated := store.Lookup(id);
        if updated.Some? && updated.value.enabled {
          ok := ScheduleJob(updated.value);
          return;
        }
      }
      return true;
    }
  }
}
