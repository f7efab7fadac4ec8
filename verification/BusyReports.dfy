/** What the busy-session protocol owes a sender when things go wrong: who is told, and what is taken. */
module BusyReports {
  import opened Wrappers
  import opened PendingQueue
  import opened BusyProtocol
  import opened BusySafety
  import opened BusyDelivery
  import opened BusyLosses

  // --- A dead agent's queue is reported ---

  /** Its sender was told, or a recall or a stop took it. */
  predicate Answered(t: State, m: Msg) {
    m in t.log.dropped || m in t.log.recalled || m in t.log.discarded
  }

  /** Goroutine i is about to report the queue of o, and the message is in it. */
  predicate AwaitsReport(t: State, i: nat, o: nat, m: Msg) {
    i < |t.pcs| && t.pcs[i] == Dropping(o) && o < |t.objs| && m in t.objs[o].queue
  }

  lemma LogsGrow(s: State, step: Step)
    requires WellFormed(s) && Enabled(s, step)
    ensures s.log.dropped <= Do(s, step).log.dropped && s.log.recalled <= Do(s, step).log.recalled
    ensures s.log.discarded <= Do(s, step).log.discarded
  {
  }

  lemma AnsweredStays(s: State, step: Step, m: Msg)
    requires WellFormed(s) && Enabled(s, step) && Answered(s, m)
    ensures Answered(Do(s, step), m)
  {
    LogsGrow(s, step);
    var t := Do(s, step);
    assert m in s.log.dropped ==> m in t.log.dropped;
    assert m in s.log.recalled ==> m in t.log.recalled;
    assert m in s.log.discarded ==> m in t.log.discarded;
  }

  lemma HandlerAwaits(s: State, i: nat, o: nat, m: Msg, j: nat, h: HandlerStep)
    requires WellFormed(s) && AwaitsReport(s, i, o, m) && j < |s.pcs| && HandlerEnabled(s.pcs[j], h)
    ensures AwaitsReport(DoHandler(s, j, h), i, o, m)
  {
  }

  /** Nobody else holds the lock, so no other worker touches the queue. */
  lemma OtherWorkerAwaits(s: State, i: nat, o: nat, m: Msg, j: nat, w: WorkerStep)
    requires Safe(s) && AwaitsReport(s, i, o, m) && j < |s.pcs| && WorkerEnabled(s, s.pcs[j], w) && j != i
    ensures AwaitsReport(DoWorker(s, j, w), i, o, m)
  {
    assert Holds(s.pcs[i]) && !Holds(s.pcs[j]);
  }

  lemma {:induction false} RecalledOrKept(q: seq<Msg>, id: string, m: Msg)
    requires m in q
    ensures m in Without(q, id) || m in Matching(q, id)
  {
    var n := |q| - 1;
    if m == q[n] {
    } else {
      assert m in q[..n];
      RecalledOrKept(q[..n], id, m);
    }
  }

  lemma EnvAwaits(s: State, i: nat, o: nat, m: Msg, e: EnvStep)
    requires WellFormed(s) && AwaitsReport(s, i, o, m) && EnvEnabled(s, e)
    ensures AwaitsReport(DoEnv(s, e), i, o, m) || Answered(DoEnv(s, e), m)
  {
    if e.Recall? && s.cur.value == o {
      RecalledOrKept(s.objs[o].queue, e.id, m);
    }
  }

  lemma StepAwaits(s: State, step: Step, i: nat, o: nat, m: Msg)
    requires Safe(s) && Enabled(s, step) && AwaitsReport(s, i, o, m)
    ensures AwaitsReport(Do(s, step), i, o, m) || Answered(Do(s, step), m)
  {
    match step
    case Handler(j, h) => HandlerAwaits(s, i, o, m, j, h);
    case Worker(j, w) =>
      if j != i {
        OtherWorkerAwaits(s, i, o, m, j, w);
      }
    case Env(e) => EnvAwaits(s, i, o, m, e);
  }

  lemma {:induction false} RunAwaits(s: State, run: seq<Step>, t: State, i: nat, o: nat, m: Msg)
    requires Safe(s) && Reaches(s, run, t) && (AwaitsReport(s, i, o, m) || Answered(s, m))
    ensures AwaitsReport(t, i, o, m) || Answered(t, m)
    decreases |run|
  {
    if run != [] {
      StepSafe(s, run[0]);
      if Answered(s, m) {
        AnsweredStays(s, run[0], m);
      } else {
        StepAwaits(s, run[0], i, o, m);
      }
      RunAwaits(Do(s, run[0]), run[1..], t, i, o, m);
    }
  }

  /** Goroutine i finds out that the agent of o is gone: before it starts a message it has popped, or
      when it wants to drain a queue that nobody drains. */
  predicate FindsAgentDead(s: State, i: nat, w: WorkerStep, o: nat) {
    i < |s.pcs| && o < |s.objs| && !s.objs[o].agent.Live?
    && ((w.CheckAgent? && s.pcs[i].Popped? && s.pcs[i].obj == o)
        || (w.OrphanLookup? && s.pcs[i].OrphanSpawned? && s.cur == Some(o)))
  }

  /** In any run: once the goroutine that found the agent of o dead is past its report, every message
      that was in the queue of o then, and the one it had popped, has been reported to its sender, unless
      a recall or a stop took it in the meantime. */
  lemma DeadQueueReported(s0: State, before: seq<Step>, s: State, i: nat, w: WorkerStep, o: nat, run: seq<Step>,
                          t: State, m: Msg)
    requires Init(s0) && Reaches(s0, before, s) && WellFormed(s) && FindsAgentDead(s, i, w, o)
    requires Reaches(Do(s, Worker(i, w)), run, t) && i < |t.pcs| && !t.pcs[i].Dropping?
    requires m in s.objs[o].queue || (w.CheckAgent? && m == s.pcs[i].msg)
    ensures Answered(t, m)
  {
    InitSafe(s0);
    RunSafe(s0, before, s);
    StepSafe(s, Worker(i, w));
    RunAwaits(Do(s, Worker(i, w)), run, t, i, o, m);
  }

  /** Messages that come in while the goroutine is about to report are reported with the others. */
  lemma LateMessagesReported(s0: State, before: seq<Step>, s: State, i: nat, o: nat, run: seq<Step>, t: State, m: Msg)
    requires Init(s0) && Reaches(s0, before, s) && AwaitsReport(s, i, o, m)
    requires Reaches(s, run, t) && i < |t.pcs| && !t.pcs[i].Dropping?
    ensures Answered(t, m)
  {
    InitSafe(s0);
    RunSafe(s0, before, s);
    RunAwaits(s, run, t, i, o, m);
  }

  lemma {:induction false} DroppedStays(s: State, run: seq<Step>, t: State, m: Msg)
    requires Reaches(s, run, t) && m in s.log.dropped
    ensures m in t.log.dropped
    decreases |run|
  {
    if run != [] {
      LogsGrow(s, run[0]);
      assert m in Do(s, run[0]).log.dropped;
      DroppedStays(Do(s, run[0]), run[1..], t, m);
    }
  }

  /** In any run: when the agent cannot be sent the prompt of a turn, every message queued behind that
      turn is reported to its sender, and no message remains queued behind it. */
  lemma FailedSendReported(s: State, i: nat, run: seq<Step>, t: State, m: Msg)
    requires WellFormed(s) && Enabled(s, Worker(i, SendFails)) && Reaches(Do(s, Worker(i, SendFails)), run, t)
    requires m in s.objs[s.pcs[i].obj].queue
    ensures m in t.log.dropped && Do(s, Worker(i, SendFails)).objs[s.pcs[i].obj].queue == []
  {
    DroppedStays(Do(s, Worker(i, SendFails)), run, t, m);
  }

  // --- A turn needs an agent ---

  predicate LiveAt(s: State, o: nat) {
    o < |s.objs| && s.objs[o].agent.Live?
  }

  /** At some point of the run the object had a live agent. */
  ghost predicate EverLive(s: State, run: seq<Step>, o: nat)
    decreases |run|
  {
    LiveAt(s, o) || (run != [] && WellFormed(s) && Enabled(s, run[0]) && EverLive(Do(s, run[0]), run[1..], o))
  }

  /** The object a goroutine runs turns on. */
  function WorksOn(pc: Pc): Option<nat> {
    match pc
    case Turn(o) => Some(o)
    case Draining(o) => Some(o)
    case Popped(o, _) => Some(o)
    case _ => None
  }

  lemma WorksOnAfter(s: State, step: Step, i: nat)
    requires WellFormed(s) && Enabled(s, step) && i < |Do(s, step).pcs| && WorksOn(Do(s, step).pcs[i]).Some?
    ensures var o := WorksOn(Do(s, step).pcs[i]).value;
            LiveAt(s, o) || LiveAt(Do(s, step), o) || (i < |s.pcs| && WorksOn(s.pcs[i]) == Some(o))
  {
    match step
    case Handler(j, h) => HandlerWorksOn(s, j, h, i);
    case Worker(j, w) =>
      WorkerMove(s, j, w);
      if j == i {
        OwnWorksOn(s, i, w);
      }
    case Env(e) => EnvPcs(s, e);
  }

  lemma HandlerWorksOn(s: State, j: nat, h: HandlerStep, i: nat)
    requires WellFormed(s) && j < |s.pcs| && HandlerEnabled(s.pcs[j], h)
    requires i < |DoHandler(s, j, h).pcs| && WorksOn(DoHandler(s, j, h).pcs[i]).Some?
    ensures i < |s.pcs| && WorksOn(s.pcs[i]) == WorksOn(DoHandler(s, j, h).pcs[i])
  {
  }

  lemma OwnWorksOn(s: State, i: nat, w: WorkerStep)
    requires WellFormed(s) && i < |s.pcs| && WorkerEnabled(s, s.pcs[i], w) && WorksOn(DoWorker(s, i, w).pcs[i]).Some?
    ensures var o := WorksOn(DoWorker(s, i, w).pcs[i]).value;
            LiveAt(s, o) || LiveAt(DoWorker(s, i, w), o) || WorksOn(s.pcs[i]) == Some(o)
  {
    if w.BeginTurn? {
      BeginLive(s, i, w.how);
    }
  }

  lemma BeginLive(s: State, i: nat, how: Begin)
    requires WellFormed(s) && i < |s.pcs| && WorkerEnabled(s, s.pcs[i], BeginTurn(how))
    requires WorksOn(DoBegin(s, i, how).pcs[i]).Some?
    ensures LiveAt(DoBegin(s, i, how), WorksOn(DoBegin(s, i, how).pcs[i]).value)
  {
  }

  lemma {:induction false} RunWorksOn(s: State, run: seq<Step>, t: State, i: nat)
    requires Reaches(s, run, t) && i < |t.pcs| && WorksOn(t.pcs[i]).Some?
    ensures i < |s.pcs| && (EverLive(s, run, WorksOn(t.pcs[i]).value) || WorksOn(s.pcs[i]) == WorksOn(t.pcs[i]))
    decreases |run|
  {
    if run != [] {
      var u := Do(s, run[0]);
      DoWellFormed(s, run[0]);
      RunWorksOn(u, run[1..], t, i);
      if WorksOn(u.pcs[i]) == WorksOn(t.pcs[i]) {
        WorksOnAfter(s, run[0], i);
      }
    }
  }

  /** In any run, failed starts included: whoever runs turns on an object runs them on one that has had
      a live agent in this run. */
  lemma TurnsNeedAnAgent(s: State, run: seq<Step>, t: State, i: nat)
    requires Init(s) && Reaches(s, run, t) && i < |t.pcs| && WorksOn(t.pcs[i]).Some?
    ensures EverLive(s, run, WorksOn(t.pcs[i]).value)
  {
    RunWorksOn(s, run, t, i);
  }

  // --- What is accepted ---

  lemma {:induction false} FinishedAcceptsNothing(s: State, run: seq<Step>, t: State, i: nat)
    requires Reaches(s, run, t) && i < |s.pcs| && s.pcs[i].Finished? && WellFormed(s)
    ensures i < |t.pcs| && t.pcs[i].Finished?
    ensures forall m :: m in t.log.accepted && m.owner == i ==> m in s.log.accepted
    decreases |run|
  {
    if run != [] {
      FinishedStep(s, run[0], i);
      DoWellFormed(s, run[0]);
      FinishedAcceptsNothing(Do(s, run[0]), run[1..], t, i);
    }
  }

  lemma FinishedStep(s: State, step: Step, i: nat)
    requires WellFormed(s) && Enabled(s, step) && i < |s.pcs| && s.pcs[i].Finished?
    ensures i < |Do(s, step).pcs| && Do(s, step).pcs[i].Finished?
    ensures forall m :: m in Do(s, step).log.accepted && m.owner == i ==> m in s.log.accepted
  {
    match step
    case Handler(j, h) => FinishedHandler(s, j, h, i);
    case Worker(j, w) =>
      WorkerMove(s, j, w);
      WorkerAccepts(s, j, w);
    case Env(e) => EnvPcs(s, e);
  }

  lemma FinishedHandler(s: State, j: nat, h: HandlerStep, i: nat)
    requires WellFormed(s) && j < |s.pcs| && HandlerEnabled(s.pcs[j], h) && i < |s.pcs| && s.pcs[i].Finished?
    ensures i < |DoHandler(s, j, h).pcs| && DoHandler(s, j, h).pcs[i].Finished?
    ensures forall m :: m in DoHandler(s, j, h).log.accepted && m.owner == i ==> m in s.log.accepted
  {
  }

  /** In any run: a message refused the lock whose handler then finds no state object, or one whose
      agent has died, is never queued. */
  lemma DeadAgentTakesNothing(s0: State, before: seq<Step>, s: State, i: nat, run: seq<Step>, t: State, m: Msg)
    requires Init(s0) && Reaches(s0, before, s) && WellFormed(s) && i < |s.pcs| && s.pcs[i].Refused?
    requires s.cur.None? || s.objs[s.cur.value].agent.Dead?
    requires Reaches(Do(s, Handler(i, Lookup)), run, t) && m.owner == i
    ensures m !in t.log.accepted
  {
    InitSafe(s0);
    RunSafe(s0, before, s);
    DoWellFormed(s, Handler(i, Lookup));
    FinishedAcceptsNothing(Do(s, Handler(i, Lookup)), run, t, i);
    assert forall x :: x in s.log.accepted ==> PastAppend(s.pcs[x.owner]);
  }

  /** A recall leaves no message with its id in the queue of the map's object, and every other message
      there. */
  lemma RecallTakesOut(s: State, id: string, m: Msg)
    requires WellFormed(s) && Enabled(s, Env(Recall(id))) && m in CurQueue(s)
    ensures var t := Do(s, Env(Recall(id)));
            WellFormed(t) && (m in CurQueue(t) <==> m.id != id) && (m.id == id ==> m in t.log.recalled)
  {
    RecallSplitsOne(CurQueue(s), id, m);
  }

  lemma {:induction false} RecallSplitsOne(q: seq<Msg>, id: string, m: Msg)
    requires m in q
    ensures (m in Without(q, id) <==> m.id != id) && (m in Matching(q, id) <==> m.id == id)
  {
    WithoutHasNone(q, id);
    RecalledOrKept(q, id, m);
  }

  lemma {:induction false} WithoutHasNone(q: seq<Msg>, id: string)
    ensures forall m :: m in Without(q, id) ==> m.id != id
    ensures forall m :: m in Matching(q, id) ==> m.id == id
  {
    if q != [] {
      WithoutHasNone(q[..|q| - 1], id);
    }
  }

  // --- The queue takes exactly its limit ---

  /** The messages of goroutines 1 to n. */
  function FirstMessages(ids: seq<string>, n: nat): seq<Msg>
    requires n < |ids|
  {
    seq(n, k requires 0 <= k < n => Msg(k + 1, ids[k + 1]))
  }

  /** Goroutine 0 has the lock and a placeholder in the map; messages 1 to n are queued on it. */
  predicate Filled(t: State, ids: seq<string>, limit: nat, n: nat)
    requires n < |ids|
  {
    && WellFormed(t) && t.ids == ids && t.limit == limit && t.busy && t.cur == Some(0)
    && |t.pcs| == |ids| && (forall j :: n < j < |ids| ==> t.pcs[j] == Arriving)
    && t.objs == [Obj(FirstMessages(ids, n), NoAgent)] && t.log.accepted == FirstMessages(ids, n)
  }

  lemma FirstLocked(ids: seq<string>, limit: nat) returns (run: seq<Step>, t: State)
    requires ids != []
    ensures Reaches(Start0(ids, limit), run, t) && HealthyRun(run) && Filled(t, ids, limit, 0)
  {
    var s := Start0(ids, limit);
    run, t := [], s;
    run, t := Take(s, run, t, Handler(0, FirstTryLock));
    run, t := Take(s, run, t, Handler(0, EnsureState));
    assert FirstMessages(ids, 0) == [];
  }

  lemma {:induction false} FillQueue(ids: seq<string>, limit: nat, n: nat) returns (run: seq<Step>, t: State)
    requires n <= limit && n < |ids|
    ensures Reaches(Start0(ids, limit), run, t) && HealthyRun(run) && Filled(t, ids, limit, n)
  {
    var s := Start0(ids, limit);
    if n == 0 {
      run, t := FirstLocked(ids, limit);
    } else {
      run, t := FillQueue(ids, limit, n - 1);
      run, t := Take(s, run, t, Handler(n, FirstTryLock));
      run, t := QueueBehindWorker(s, run, t, n);
      assert FirstMessages(ids, n) == FirstMessages(ids, n - 1) + [Msg(n, ids[n])];
    }
  }

  /** For every limit: while one message runs, the next `limit` messages are all queued, in order, and
      the one after them is not. */
  lemma QueueTakesExactlyLimit(ids: seq<string>, limit: nat) returns (run: seq<Step>, t: State)
    requires |ids| == limit + 2
    ensures Reaches(Start0(ids, limit), run, t) && HealthyRun(run) && |t.pcs| == |ids|
    ensures t.log.accepted == FirstMessages(ids, limit) && t.pcs[limit + 1].Enqueued?
    ensures t.objs == [Obj(FirstMessages(ids, limit), NoAgent)]
  {
    var s := Start0(ids, limit);
    run, t := FillQueue(ids, limit, limit);
    run, t := Take(s, run, t, Handler(limit + 1, FirstTryLock));
    run, t := Take(s, run, t, Handler(limit + 1, Lookup));
    run, t := Take(s, run, t, Handler(limit + 1, Append));
  }
}
