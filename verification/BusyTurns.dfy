/** Who gets a turn in the busy-session protocol, and on which agent, over runs with failures. */
module BusyTurns {
  import opened Wrappers
  import opened PendingQueue
  import opened BusyProtocol
  import opened BusySafety
  import opened BusyDelivery
  import opened BusyReports

  // --- The message that got the lock ---

  predicate InTurn(s: State, i: nat) {
    i < |s.pcs| && s.pcs[i].Turn?
  }

  /** Goroutine i is inside a turn at some point of the run. */
  ghost predicate HadTurn(s: State, run: seq<Step>, i: nat)
    decreases |run|
  {
    InTurn(s, i) || (run != [] && WellFormed(s) && Enabled(s, run[0]) && HadTurn(Do(s, run[0]), run[1..], i))
  }

  /** Given up before the first turn: on its way to the deferred unlock, or past it. */
  predicate GaveUp(pc: Pc) {
    pc == Returning(false) || pc.Finished?
  }

  lemma SpawnedStep(s: State, step: Step, i: nat)
    requires WellFormed(s) && Enabled(s, step) && i < |s.pcs| && s.pcs[i].Spawned?
    ensures var t := Do(s, step);
            i < |t.pcs| && (t.pcs[i].Spawned? || t.pcs[i].Turn? || (GaveUp(t.pcs[i]) && !Healthy(step)))
  {
    match step
    case Handler(j, h) => HandlerKeeps(s, j, h, i);
    case Worker(j, w) =>
      WorkerMove(s, j, w);
      if j == i && w.BeginTurn? {
        BeginIsTurn(s, i, w.how);
      }
    case Env(e) => EnvPcs(s, e);
  }

  lemma HandlerKeeps(s: State, j: nat, h: HandlerStep, i: nat)
    requires WellFormed(s) && j < |s.pcs| && HandlerEnabled(s.pcs[j], h)
    requires i < |s.pcs| && (s.pcs[i].Spawned? || GaveUp(s.pcs[i]))
    ensures i < |DoHandler(s, j, h).pcs| && DoHandler(s, j, h).pcs[i] == s.pcs[i]
  {
  }

  lemma BeginIsTurn(s: State, i: nat, how: Begin)
    requires WellFormed(s) && i < |s.pcs| && WorkerEnabled(s, s.pcs[i], BeginTurn(how))
    ensures var pc := DoBegin(s, i, how).pcs[i];
            pc.Turn? || (pc == Returning(false) && !Healthy(Worker(i, BeginTurn(how))))
  {
  }

  lemma GaveUpStep(s: State, step: Step, i: nat)
    requires WellFormed(s) && Enabled(s, step) && i < |s.pcs| && GaveUp(s.pcs[i])
    ensures i < |Do(s, step).pcs| && GaveUp(Do(s, step).pcs[i])
  {
    match step
    case Handler(j, h) => HandlerKeeps(s, j, h, i);
    case Worker(j, w) => WorkerMove(s, j, w);
    case Env(e) => EnvPcs(s, e);
  }

  lemma {:induction false} GaveUpStays(s: State, run: seq<Step>, t: State, i: nat)
    requires Reaches(s, run, t) && WellFormed(s) && i < |s.pcs| && GaveUp(s.pcs[i])
    ensures i < |t.pcs| && GaveUp(t.pcs[i])
    decreases |run|
  {
    if run != [] {
      DoWellFormed(s, run[0]);
      GaveUpStep(s, run[0], i);
      GaveUpStays(Do(s, run[0]), run[1..], t, i);
    }
  }

  /** In any run: the message that got the session lock is run as a turn of its own, before anything
      queued behind it, unless its goroutine has not come to it yet; only a failed start or an engine
      shutdown makes the goroutine give up before. */
  lemma {:induction false} OwnTurnFirst(s: State, run: seq<Step>, t: State, i: nat)
    requires Reaches(s, run, t) && WellFormed(s) && i < |s.pcs| && s.pcs[i].Spawned?
    ensures i < |t.pcs|
    ensures HadTurn(s, run, i) || t.pcs[i].Spawned? || (GaveUp(t.pcs[i]) && !HealthyRun(run))
    decreases |run|
  {
    if run != [] {
      var u := Do(s, run[0]);
      DoWellFormed(s, run[0]);
      SpawnedStep(s, run[0], i);
      if u.pcs[i].Spawned? {
        OwnTurnFirst(u, run[1..], t, i);
        TailUnhealthy(run);
      } else if GaveUp(u.pcs[i]) {
        GaveUpStays(u, run[1..], t, i);
      } else {
        TurnInRun(s, run, t, i);
      }
    }
  }

  lemma TailUnhealthy(run: seq<Step>)
    requires run != []
    ensures HealthyRun(run) ==> HealthyRun(run[1..])
  {
  }

  lemma TurnInRun(s: State, run: seq<Step>, t: State, i: nat)
    requires run != [] && Reaches(s, run, t) && InTurn(Do(s, run[0]), i)
    ensures HadTurn(s, run, i) && i < |t.pcs|
  {
    DoWellFormed(s, run[0]);
    ReachesShape(Do(s, run[0]), run[1..], t);
  }

  lemma {:induction false} ReachesShape(s: State, run: seq<Step>, t: State)
    requires Reaches(s, run, t)
    ensures SameShape(s, t)
    decreases |run|
  {
    if run != [] {
      DoWellFormed(s, run[0]);
      ReachesShape(Do(s, run[0]), run[1..], t);
    }
  }

  // --- An agent that is gone ---

  /** The step after which object o has no live agent: its process dies, somebody takes it away to close
      it, or a recycle closes it. */
  predicate LosesAgent(s: State, step: Step, o: nat) {
    || step == Env(AgentDies(o))
    || step == Env(TakeAgent(o))
    || (step.Worker? && step.w.BeginTurn? && step.w.how.Recycle? && s.cur == Some(o))
  }

  /** No live agent on o, and whoever is inside a turn there was so all along. */
  predicate Gone(t: State, o: nat, turns: set<nat>) {
    o < |t.objs| && !t.objs[o].agent.Live?
    && forall i: nat :: i < |t.pcs| && t.pcs[i] == Turn(o) ==> i in turns
  }

  lemma HandlerGone(s: State, i: nat, h: HandlerStep, o: nat, turns: set<nat>)
    requires WellFormed(s) && i < |s.pcs| && HandlerEnabled(s.pcs[i], h) && Gone(s, o, turns)
    ensures Gone(DoHandler(s, i, h), o, turns)
  {
  }

  lemma BeginGone(s: State, i: nat, how: Begin, o: nat, turns: set<nat>)
    requires WellFormed(s) && i < |s.pcs| && WorkerEnabled(s, s.pcs[i], BeginTurn(how)) && Gone(s, o, turns)
    ensures Gone(DoBegin(s, i, how), o, turns)
  {
  }

  lemma WorkerGone(s: State, i: nat, w: WorkerStep, o: nat, turns: set<nat>)
    requires WellFormed(s) && i < |s.pcs| && WorkerEnabled(s, s.pcs[i], w) && Gone(s, o, turns)
    ensures Gone(DoWorker(s, i, w), o, turns)
  {
    if w.BeginTurn? {
      BeginGone(s, i, w.how, o, turns);
    }
  }

  lemma EnvGone(s: State, e: EnvStep, o: nat, turns: set<nat>)
    requires WellFormed(s) && EnvEnabled(s, e) && Gone(s, o, turns)
    ensures Gone(DoEnv(s, e), o, turns)
  {
  }

  lemma StepGone(s: State, step: Step, o: nat, turns: set<nat>)
    requires WellFormed(s) && Enabled(s, step) && Gone(s, o, turns)
    ensures Gone(Do(s, step), o, turns)
  {
    match step
    case Handler(i, h) => HandlerGone(s, i, h, o, turns);
    case Worker(i, w) => WorkerGone(s, i, w, o, turns);
    case Env(e) => EnvGone(s, e, o, turns);
  }

  lemma {:induction false} GoneStays(s: State, run: seq<Step>, t: State, o: nat, turns: set<nat>)
    requires Reaches(s, run, t) && Gone(s, o, turns)
    ensures Gone(t, o, turns)
    decreases |run|
  {
    if run != [] {
      StepGone(s, run[0], o, turns);
      GoneStays(Do(s, run[0]), run[1..], t, o, turns);
    }
  }

  lemma AgentLost(s: State, step: Step, o: nat, turns: set<nat>)
    requires WellFormed(s) && Enabled(s, step) && LosesAgent(s, step, o)
    requires forall i: nat :: i < |s.pcs| && s.pcs[i] == Turn(o) ==> i in turns
    ensures Gone(Do(s, step), o, turns)
  {
  }

  /** In any run: once an object has lost its agent it never has a live one again, and no goroutine that
      was not inside a turn on it then ever enters one, whatever is queued there. */
  lemma LostAgentStartsNoTurn(s: State, step: Step, o: nat, run: seq<Step>, t: State, i: nat)
    requires WellFormed(s) && Enabled(s, step) && LosesAgent(s, step, o) && Reaches(Do(s, step), run, t)
    requires i < |s.pcs| && s.pcs[i] != Turn(o) && i < |t.pcs|
    ensures o < |t.objs| && !t.objs[o].agent.Live? && t.pcs[i] != Turn(o)
  {
    var turns := set k: nat | k < |s.pcs| && s.pcs[k] == Turn(o);
    AgentLost(s, step, o, turns);
    GoneStays(Do(s, step), run, t, o, turns);
  }

  /** The step puts a new object in the map and no agent in it: a start that fails, or a placeholder. */
  predicate StartsWithoutAgent(s: State, step: Step) {
    || (step.Worker? && step.w.BeginTurn? && !step.w.how.Reuse? && !step.w.how.ok)
    || step == Env(Placeholder)
    || (step.Handler? && step.h.EnsureState? && s.cur.None?)
  }

  lemma BornWithoutAgent(s: State, step: Step)
    requires WellFormed(s) && Enabled(s, step) && StartsWithoutAgent(s, step)
    ensures Gone(Do(s, step), |s.objs|, {}) && Do(s, step).cur == Some(|s.objs|)
  {
    match step
    case Handler(i, h) =>
    case Worker(i, w) => BeginBorn(s, i, w.how);
    case Env(e) =>
  }

  lemma BeginBorn(s: State, i: nat, how: Begin)
    requires WellFormed(s) && i < |s.pcs| && WorkerEnabled(s, s.pcs[i], BeginTurn(how)) && !how.Reuse? && !how.ok
    ensures Gone(DoBegin(s, i, how), |s.objs|, {}) && DoBegin(s, i, how).cur == Some(|s.objs|)
  {
  }

  /** In any run: an object that came into the map without an agent never gets one, and no turn is ever run
      on it. */
  lemma NoAgentNoTurn(s: State, step: Step, run: seq<Step>, t: State, i: nat)
    requires WellFormed(s) && Enabled(s, step) && StartsWithoutAgent(s, step) && Reaches(Do(s, step), run, t)
    requires i < |t.pcs|
    ensures |s.objs| < |t.objs| && !t.objs[|s.objs|].agent.Live? && t.pcs[i] != Turn(|s.objs|)
  {
    BornWithoutAgent(s, step);
    GoneStays(Do(s, step), run, t, |s.objs|, {});
  }

  // --- The map entry ---

  /** In any run: a queue that is flushed with a report is reported to its senders, all of it, and nothing
      stays queued. */
  lemma FlushReported(s: State, o: nat, run: seq<Step>, t: State, m: Msg)
    requires WellFormed(s) && Enabled(s, Env(Flush(o, true))) && m in s.objs[o].queue
    requires Reaches(Do(s, Env(Flush(o, true))), run, t)
    ensures m in t.log.dropped && Do(s, Env(Flush(o, true))).objs[o].queue == []
  {
    DroppedStays(Do(s, Env(Flush(o, true))), run, t, m);
  }

  /** Once the map entry is taken out, a message that finds the session busy is not queued anywhere. */
  lemma DetachedTakesNothing(s0: State, before: seq<Step>, s: State, i: nat, run: seq<Step>, t: State, m: Msg)
    requires Init(s0) && Reaches(s0, before, s) && WellFormed(s) && Enabled(s, Env(Detach))
    requires i < |s.pcs| && s.pcs[i].Refused? && m.owner == i
    requires Reaches(s, [Env(Detach), Handler(i, Lookup)] + run, t)
    ensures m !in t.log.accepted
  {
    var u := Do(s, Env(Detach));
    var steps := [Env(Detach), Handler(i, Lookup)] + run;
    assert steps[1..] == [Handler(i, Lookup)] + run && ([Handler(i, Lookup)] + run)[1..] == run;
    DoWellFormed(s, Env(Detach));
    InitSafe(s0);
    RunSafe(s0, before, s);
    StepSafe(s, Env(Detach));
    RefusedNeverQueued(u, i, run, t, m);
  }

  lemma RefusedNeverQueued(u: State, i: nat, run: seq<Step>, t: State, m: Msg)
    requires Safe(u) && i < |u.pcs| && u.pcs[i].Refused? && u.cur.None? && m.owner == i
    requires Reaches(Do(u, Handler(i, Lookup)), run, t)
    ensures m !in t.log.accepted
  {
    DoWellFormed(u, Handler(i, Lookup));
    FinishedAcceptsNothing(Do(u, Handler(i, Lookup)), run, t, i);
    assert forall x :: x in u.log.accepted ==> PastAppend(u.pcs[x.owner]);
  }

  /** While the agent is starting there is a placeholder in the map, and a message that finds the session
      busy then is queued on it. */
  lemma PlaceholderTakes(s: State, i: nat)
    requires WellFormed(s) && Enabled(s, Env(Placeholder)) && i < |s.pcs| && s.pcs[i].Refused? && s.limit > 0
    ensures var u := Do(s, Env(Placeholder));
            WellFormed(u) && Enabled(u, Handler(i, Lookup))
            && var v := Do(u, Handler(i, Lookup));
               WellFormed(v) && Enabled(v, Handler(i, Append))
               && var w := Do(v, Handler(i, Append));
                  WellFormed(w) && CurQueue(w) == [Msg(i, s.ids[i])]
  {
    var u := Do(s, Env(Placeholder));
    DoWellFormed(s, Env(Placeholder));
    var v := Do(u, Handler(i, Lookup));
    DoWellFormed(u, Handler(i, Lookup));
    DoWellFormed(v, Handler(i, Append));
    assert [] + [Msg(i, s.ids[i])] == [Msg(i, s.ids[i])];
  }
}
