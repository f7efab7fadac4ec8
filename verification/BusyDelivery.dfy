/** What the busy-session protocol delivers while the agent stays alive and nobody stops the session. */
module BusyDelivery {
  // No message is orphaned, queued messages start in the order they were accepted, every run ends, and
  // at its end every accepted message is accounted for unless it was appended to, or left in, the queue
  // of a state object that was no longer in the map.

  import opened Wrappers
  import opened PendingQueue
  import opened BusyProtocol
  import opened BusySafety

  /** Starts succeed, nothing dies, nothing is stopped. Failed sends and recalls may happen. */
  predicate Healthy(step: Step) {
    match step
    case Handler(_, _) => true
    case Worker(_, w) =>
      !w.Shutdown? && (w.BeginTurn? && w.how.Start? ==> w.how.ok) && (w.BeginTurn? && w.how.Recycle? ==> w.how.ok)
    case Env(e) => e.Recall? || e.Placeholder?
  }

  ghost predicate HealthyRun(run: seq<Step>) {
    forall k :: 0 <= k < |run| ==> Healthy(run[k])
  }

  function CurQueue(s: State): seq<Msg>
    requires WellFormed(s)
  {
    if s.cur.None? then [] else s.objs[s.cur.value].queue
  }

  /** In the middle of queueing: refused, but not back from the retry of TryLock. */
  predicate Queueing(pc: Pc) {
    pc.Refused? || pc.LookedUp? || pc.Enqueued?
  }

  /** The agent is up wherever the lock holder needs it, and whenever nobody holds the lock but a
      handler is still queueing. */
  ghost predicate AgentUp(s: State)
    requires WellFormed(s)
  {
    && (s.cur.Some? ==> !s.objs[s.cur.value].agent.Dead?)
    && (forall i :: 0 <= i < |s.pcs| ==>
         match s.pcs[i]
         case Turn(o) => s.cur == Some(o) && CurLive(s)
         case Draining(o) => s.cur == Some(o) && CurLive(s)
         case Popped(o, _) => s.cur == Some(o) && CurLive(s)
         case OrphanSpawned => CurLive(s)
         case Dropping(_) => false
         case Returning(unlocked) => unlocked
         case _ => true)
    && (forall i :: 0 <= i < |s.pcs| && Queueing(s.pcs[i]) ==> s.busy || CurLive(s))
  }

  /** A non-empty queue always has somebody bound to look at it. */
  ghost predicate Attended(s: State)
    requires WellFormed(s)
  {
    CurQueue(s) != [] ==> s.busy || exists i :: 0 <= i < |s.pcs| && s.pcs[i].Enqueued?
  }

  /** What is queued outside the map entry is exactly what was stranded. */
  ghost predicate StrandedFor(s: State, m: Msg)
    requires WellFormed(s)
  {
    QueuedCount(s.objs, m) == Count(CurQueue(s), m) + Count(s.log.stranded, m)
  }

  /** Started, in hand, still queued: in that order, the messages accepted and not yet settled. */
  ghost function Line(s: State): seq<Msg>
    requires WellFormed(s)
  {
    s.log.started + (InHand(s.pcs) + CurQueue(s))
  }

  ghost predicate InOrder(s: State)
    requires WellFormed(s)
  {
    Subsequence(Line(s), s.log.accepted)
  }

  // --- Agent up ---

  lemma HandlerAgentUp(s: State, i: nat, h: HandlerStep)
    requires Safe(s) && i < |s.pcs| && HandlerEnabled(s.pcs[i], h) && AgentUp(s)
    ensures WellFormed(DoHandler(s, i, h)) && AgentUp(DoHandler(s, i, h))
  {
    var t := DoHandler(s, i, h);
    HandlerWellFormed(s, i, h);
    assert t.pcs == s.pcs[i := t.pcs[i]];
  }

  lemma BeginAgentUp(s: State, i: nat, how: Begin)
    requires Safe(s) && i < |s.pcs| && WorkerEnabled(s, s.pcs[i], BeginTurn(how)) && AgentUp(s)
    requires Healthy(Worker(i, BeginTurn(how)))
    ensures WellFormed(DoBegin(s, i, how)) && AgentUp(DoBegin(s, i, how)) && CurLive(DoBegin(s, i, how))
  {
    var t := DoBegin(s, i, how);
    WorkerWellFormed(s, i, BeginTurn(how));
    assert t.pcs == s.pcs[i := t.pcs[i]];
    assert Holds(s.pcs[i]);
  }

  lemma WorkerAgentUp(s: State, i: nat, w: WorkerStep)
    requires Safe(s) && i < |s.pcs| && WorkerEnabled(s, s.pcs[i], w) && AgentUp(s)
    requires Healthy(Worker(i, w))
    ensures WellFormed(DoWorker(s, i, w)) && AgentUp(DoWorker(s, i, w))
  {
    if w.BeginTurn? {
      BeginAgentUp(s, i, w.how);
    } else {
      var t := DoWorker(s, i, w);
      WorkerWellFormed(s, i, w);
      assert t.pcs == s.pcs[i := t.pcs[i]];
      assert CurLive(s) ==> CurLive(t);
    }
  }

  lemma StepAgentUp(s: State, step: Step)
    requires Safe(s) && Enabled(s, step) && AgentUp(s) && Healthy(step)
    ensures WellFormed(Do(s, step)) && AgentUp(Do(s, step))
  {
    match step
    case Handler(i, h) => HandlerAgentUp(s, i, h);
    case Worker(i, w) => WorkerAgentUp(s, i, w);
    case Env(e) => EnvWellFormed(s, e);
  }

  // --- No orphan ---

  lemma StepAttended(s: State, step: Step)
    requires Safe(s) && Enabled(s, step) && AgentUp(s) && Attended(s) && Healthy(step)
    ensures WellFormed(Do(s, step)) && Attended(Do(s, step))
  {
    DoWellFormed(s, step);
    match step
    case Handler(i, h) => HandlerAttended(s, i, h);
    case Worker(i, w) => WorkerAttended(s, i, w);
    case Env(e) =>
      if e.Recall? {
        WithoutIsSubsequence(CurQueue(s), e.id);
        if CurQueue(s) != [] && !s.busy {
          var k :| 0 <= k < |s.pcs| && s.pcs[k].Enqueued?;
          assert DoEnv(s, e).pcs[k].Enqueued?;
        }
      }
  }

  lemma HandlerAttended(s: State, i: nat, h: HandlerStep)
    requires Safe(s) && i < |s.pcs| && HandlerEnabled(s.pcs[i], h) && Attended(s)
    requires WellFormed(DoHandler(s, i, h))
    ensures Attended(DoHandler(s, i, h))
  {
    var t := DoHandler(s, i, h);
    assert t.pcs == s.pcs[i := t.pcs[i]];
    if h.Append? {
      assert t.pcs[i].Enqueued?;
    } else if CurQueue(s) != [] && !s.busy {
      var k :| 0 <= k < |s.pcs| && s.pcs[k].Enqueued?;
      assert k != i ==> t.pcs[k].Enqueued?;
    }
  }

  lemma WorkerAttended(s: State, i: nat, w: WorkerStep)
    requires Safe(s) && i < |s.pcs| && WorkerEnabled(s, s.pcs[i], w) && AgentUp(s) && Attended(s)
    requires Healthy(Worker(i, w)) && WellFormed(DoWorker(s, i, w))
    ensures Attended(DoWorker(s, i, w))
  {
    var t := DoWorker(s, i, w);
    WorkerMove(s, i, w);
    if w.DeferredUnlock? {
      if CurQueue(s) != [] && !s.busy {
        var k :| 0 <= k < |s.pcs| && s.pcs[k].Enqueued?;
        assert t.pcs[k].Enqueued?;
      }
    } else {
      assert Holds(s.pcs[i]);
    }
  }

  // --- What is outside the map entry was stranded ---

  lemma FreshStranded(s: State, a: AgentStatus, m: Msg)
    requires WellFormed(s) && StrandedFor(s, m) && s.cur.None?
    ensures WellFormed(Fresh(s, [], a)) && StrandedFor(Fresh(s, [], a), m)
  {
    QueuedPush(s.objs, Obj([], a), m);
  }

  lemma AppendStranded(s: State, i: nat, m: Msg)
    requires WellFormed(s) && i < |s.pcs| && s.pcs[i].LookedUp? && StrandedFor(s, m)
    requires WellFormed(DoHandler(s, i, Append))
    ensures StrandedFor(DoHandler(s, i, Append), m)
  {
    var o, x := s.pcs[i].obj, Msg(i, s.ids[i]);
    if |s.objs[o].queue| < s.limit {
      QueuedUpdate(s.objs, o, s.objs[o].(queue := s.objs[o].queue + [x]), m);
      var t := DoHandler(s, i, Append);
      assert CurQueue(t) == if s.cur == Some(o) then CurQueue(s) + [x] else CurQueue(s);
    }
  }

  lemma HandlerStranded(s: State, i: nat, h: HandlerStep, m: Msg)
    requires WellFormed(s) && i < |s.pcs| && HandlerEnabled(s.pcs[i], h) && StrandedFor(s, m)
    requires WellFormed(DoHandler(s, i, h))
    ensures StrandedFor(DoHandler(s, i, h), m)
  {
    if h.Append? {
      AppendStranded(s, i, m);
    } else if h.EnsureState? && s.cur.None? {
      FreshStranded(s, NoAgent, m);
    }
  }

  lemma BeginStranded(s: State, i: nat, how: Begin, m: Msg)
    requires WellFormed(s) && i < |s.pcs| && WorkerEnabled(s, s.pcs[i], BeginTurn(how)) && StrandedFor(s, m)
    requires WellFormed(DoBegin(s, i, how))
    ensures StrandedFor(DoBegin(s, i, how), m)
  {
    match how
    case Reuse =>
    case Start(ok) =>
      var a := if ok then Live else NoAgent;
      if s.cur.None? {
        FreshStranded(s, a, m);
      } else {
        var o := s.cur.value;
        QueuedUpdate(s.objs, o, s.objs[o].(queue := []), m);
        QueuedPush(s.objs[o := s.objs[o].(queue := [])], Obj(s.objs[o].queue, a), m);
      }
    case Recycle(ok) =>
      var o := s.cur.value;
      QueuedUpdate(s.objs, o, s.objs[o].(agent := Dead), m);
      QueuedPush(s.objs[o := s.objs[o].(agent := Dead)], Obj([], if ok then Live else NoAgent), m);
  }

  /** Any change of the queue in the map leaves the messages outside it where they are. */
  lemma RequeueStranded(s: State, q: seq<Msg>, m: Msg)
    requires WellFormed(s) && StrandedFor(s, m) && s.cur.Some?
    ensures WellFormed(SetQueue(s, s.cur.value, q)) && StrandedFor(SetQueue(s, s.cur.value, q), m)
  {
    QueuedUpdate(s.objs, s.cur.value, s.objs[s.cur.value].(queue := q), m);
  }

  lemma WorkerStranded(s: State, i: nat, w: WorkerStep, m: Msg)
    requires WellFormed(s) && i < |s.pcs| && WorkerEnabled(s, s.pcs[i], w) && AgentUp(s)
    requires Healthy(Worker(i, w)) && StrandedFor(s, m) && WellFormed(DoWorker(s, i, w))
    ensures StrandedFor(DoWorker(s, i, w), m)
  {
    if w.BeginTurn? {
      BeginStranded(s, i, w.how, m);
    } else if w.NextTurn? || w.DrainRound? {
      if CurQueue(s) != [] {
        RequeueStranded(s, CurQueue(s)[1..], m);
      }
    } else if w.SendFails? {
      RequeueStranded(s, [], m);
    }
  }

  lemma EnvStranded(s: State, e: EnvStep, m: Msg)
    requires WellFormed(s) && EnvEnabled(s, e) && StrandedFor(s, m)
    requires Healthy(Env(e)) && WellFormed(DoEnv(s, e))
    ensures StrandedFor(DoEnv(s, e), m)
  {
    match e
    case Recall(id) => RequeueStranded(s, Without(CurQueue(s), id), m);
    case Placeholder => FreshStranded(s, NoAgent, m);
  }

  lemma StepStranded(s: State, step: Step, m: Msg)
    requires Safe(s) && Enabled(s, step) && AgentUp(s) && Healthy(step) && StrandedFor(s, m)
    ensures WellFormed(Do(s, step)) && StrandedFor(Do(s, step), m)
  {
    DoWellFormed(s, step);
    match step
    case Handler(i, h) => HandlerStranded(s, i, h, m);
    case Worker(i, w) => WorkerStranded(s, i, w, m);
    case Env(e) => EnvStranded(s, e, m);
  }

  // --- Queued messages start in the order they were accepted ---

  lemma {:induction false} PrefixSubsequence(a: seq<Msg>, b: seq<Msg>, c: seq<Msg>)
    requires Subsequence(a + b, c)
    ensures Subsequence(a, c)
    decreases |b|
  {
    if b == [] {
      assert a + b == a;
    } else {
      SubsequenceDropLast(a + b, c);
      assert (a + b)[..|a + b| - 1] == a + b[..|b| - 1];
      PrefixSubsequence(a, b[..|b| - 1], c);
    }
  }

  /** The line after a handler's step: one more message at its end, or the same. */
  lemma HandlerLine(s: State, i: nat, h: HandlerStep)
    requires WellFormed(s) && i < |s.pcs| && HandlerEnabled(s.pcs[i], h)
    requires WellFormed(DoHandler(s, i, h))
    ensures var t := DoHandler(s, i, h);
            if h.Append? && |s.objs[s.pcs[i].obj].queue| < s.limit && s.cur == Some(s.pcs[i].obj)
            then Line(t) == Line(s) + [Msg(i, s.ids[i])] else Line(t) == Line(s)
  {
    var t := DoHandler(s, i, h);
    assert t.pcs == s.pcs[i := t.pcs[i]];
    InHandSame(s.pcs, i, t.pcs[i]);
  }

  lemma HandlerInOrder(s: State, i: nat, h: HandlerStep)
    requires WellFormed(s) && i < |s.pcs| && HandlerEnabled(s.pcs[i], h) && InOrder(s)
    requires WellFormed(DoHandler(s, i, h))
    ensures InOrder(DoHandler(s, i, h))
  {
    HandlerLine(s, i, h);
    if h.Append? {
      SubsequenceExtend(Line(s), s.log.accepted, Msg(i, s.ids[i]));
    }
  }

  lemma BeginInOrder(s: State, i: nat, how: Begin)
    requires WellFormed(s) && i < |s.pcs| && WorkerEnabled(s, s.pcs[i], BeginTurn(how)) && InOrder(s)
    requires WellFormed(DoBegin(s, i, how))
    ensures InOrder(DoBegin(s, i, how))
  {
    var t := DoBegin(s, i, how);
    assert t.pcs == s.pcs[i := t.pcs[i]];
    InHandSame(s.pcs, i, t.pcs[i]);
    if how.Recycle? {
      var front := s.log.started + InHand(s.pcs);
      assert Line(s) == front + CurQueue(s);
      PrefixSubsequence(front, CurQueue(s), s.log.accepted);
      assert Line(t) == front;
    } else {
      assert Line(t) == Line(s);
    }
  }

  lemma NextTurnInOrder(s: State, i: nat)
    requires Safe(s) && i < |s.pcs| && WorkerEnabled(s, s.pcs[i], NextTurn) && AgentUp(s)
    requires WellFormed(DoWorker(s, i, NextTurn))
    ensures Line(DoWorker(s, i, NextTurn)) == Line(s)
  {
    var t := DoWorker(s, i, NextTurn);
    HandOf(s, i, t);
    var q := CurQueue(s);
    assert q == [q[0]] + CurQueue(t);
  }

  lemma DrainRoundInOrder(s: State, i: nat)
    requires Safe(s) && i < |s.pcs| && s.pcs[i].Draining? && AgentUp(s)
    requires WellFormed(DoWorker(s, i, DrainRound))
    ensures Line(DoWorker(s, i, DrainRound)) == Line(s)
  {
    var t := DoWorker(s, i, DrainRound);
    HandOf(s, i, t);
    var q := CurQueue(s);
    if q != [] {
      assert InHand(t.pcs) == [q[0]];
      assert q == InHand(t.pcs) + CurQueue(t);
    }
  }

  lemma CheckAgentInOrder(s: State, i: nat)
    requires Safe(s) && i < |s.pcs| && s.pcs[i].Popped? && AgentUp(s)
    requires WellFormed(DoWorker(s, i, CheckAgent))
    ensures Line(DoWorker(s, i, CheckAgent)) == Line(s)
  {
    HandOf(s, i, DoWorker(s, i, CheckAgent));
  }

  lemma WorkerInOrder(s: State, i: nat, w: WorkerStep)
    requires Safe(s) && i < |s.pcs| && WorkerEnabled(s, s.pcs[i], w) && AgentUp(s) && InOrder(s)
    requires Healthy(Worker(i, w)) && WellFormed(DoWorker(s, i, w))
    ensures InOrder(DoWorker(s, i, w))
  {
    var t := DoWorker(s, i, w);
    WorkerMove(s, i, w);
    WorkerAccepts(s, i, w);
    if w.BeginTurn? {
      BeginInOrder(s, i, w.how);
    } else if w.NextTurn? {
      NextTurnInOrder(s, i);
    } else if w.DrainRound? {
      DrainRoundInOrder(s, i);
    } else if w.CheckAgent? {
      CheckAgentInOrder(s, i);
    } else {
      InHandSame(s.pcs, i, t.pcs[i]);
      if w.SendFails? {
        var front := s.log.started + InHand(s.pcs);
        assert Line(s) == front + CurQueue(s);
        PrefixSubsequence(front, CurQueue(s), s.log.accepted);
        assert Line(t) == front;
      } else {
        assert Line(t) == Line(s);
      }
    }
  }

  lemma EnvInOrder(s: State, e: EnvStep)
    requires WellFormed(s) && EnvEnabled(s, e) && InOrder(s)
    requires Healthy(Env(e)) && WellFormed(DoEnv(s, e))
    ensures InOrder(DoEnv(s, e))
  {
    var t := DoEnv(s, e);
    match e
    case Recall(id) =>
      var front := s.log.started + InHand(s.pcs);
      WithoutIsSubsequence(CurQueue(s), id);
      SubsequencePrefix(front, Without(CurQueue(s), id), CurQueue(s));
      assert Line(s) == front + CurQueue(s);
      assert Line(t) == front + Without(CurQueue(s), id);
      SubsequenceTrans(Line(t), Line(s), s.log.accepted);
    case Placeholder => assert Line(t) == Line(s);
  }

  lemma StepInOrder(s: State, step: Step)
    requires Safe(s) && Enabled(s, step) && AgentUp(s) && Healthy(step) && InOrder(s)
    ensures WellFormed(Do(s, step)) && InOrder(Do(s, step))
  {
    DoWellFormed(s, step);
    match step
    case Handler(i, h) => HandlerInOrder(s, i, h);
    case Worker(i, w) => WorkerInOrder(s, i, w);
    case Env(e) => EnvInOrder(s, e);
  }

  // --- Every goroutine can always go on, and all of them end ---

  /** How many steps goroutine positions and queue entries still have in them. */
  function Rank(pc: Pc): nat {
    match pc
    case Finished => 0
    case Returning(_) => 1
    case Draining(_) => 2
    case Dropping(_) => 2
    case Turn(_) => 3
    case Popped(_, _) => 4
    case Spawned => 5
    case OrphanSpawned => 5
    case LockedNew => 6
    case Enqueued => 6
    case LookedUp(_) => 10
    case Refused => 11
    case Arriving => 12
  }

  function RankSum(pcs: seq<Pc>): nat {
    if pcs == [] then 0 else RankSum(pcs[..|pcs| - 1]) + Rank(pcs[|pcs| - 1])
  }

  function QueueSum(objs: seq<Obj>): nat {
    if objs == [] then 0 else QueueSum(objs[..|objs| - 1]) + |objs[|objs| - 1].queue|
  }

  function Work(s: State): nat {
    RankSum(s.pcs) + 3 * QueueSum(s.objs)
  }

  lemma {:induction false} RankUpdate(pcs: seq<Pc>, i: nat, pc: Pc)
    requires i < |pcs|
    ensures RankSum(pcs[i := pc]) == RankSum(pcs) - Rank(pcs[i]) + Rank(pc)
  {
    var n := |pcs| - 1;
    if i < n {
      RankUpdate(pcs[..n], i, pc);
      assert pcs[i := pc][..n] == pcs[..n][i := pc];
    } else {
      assert pcs[i := pc][..n] == pcs[..n];
    }
  }

  lemma {:induction false} QueueSumUpdate(objs: seq<Obj>, o: nat, x: Obj)
    requires o < |objs|
    ensures QueueSum(objs[o := x]) == QueueSum(objs) - |objs[o].queue| + |x.queue|
  {
    var n := |objs| - 1;
    if o < n {
      QueueSumUpdate(objs[..n], o, x);
      assert objs[o := x][..n] == objs[..n][o := x];
    } else {
      assert objs[o := x][..n] == objs[..n];
    }
  }

  lemma QueueSumPush(objs: seq<Obj>, x: Obj)
    ensures QueueSum(objs + [x]) == QueueSum(objs) + |x.queue|
  {
    assert (objs + [x])[..|objs|] == objs;
  }

  lemma HandlerWork(s: State, i: nat, h: HandlerStep)
    requires WellFormed(s) && i < |s.pcs| && HandlerEnabled(s.pcs[i], h)
    ensures Work(DoHandler(s, i, h)) < Work(s)
  {
    var t := DoHandler(s, i, h);
    assert t.pcs == s.pcs[i := t.pcs[i]];
    RankUpdate(s.pcs, i, t.pcs[i]);
    if h.Append? {
      var o := s.pcs[i].obj;
      QueueSumUpdate(s.objs, o, s.objs[o].(queue := s.objs[o].queue + [Msg(i, s.ids[i])]));
    } else if h.EnsureState? {
      QueueSumPush(s.objs, Obj([], NoAgent));
    }
  }

  lemma AdoptWork(s: State, a: AgentStatus)
    requires WellFormed(s)
    ensures QueueSum(Adopting(s, a).objs) == QueueSum(s.objs)
  {
    if s.cur.None? {
      QueueSumPush(s.objs, Obj([], a));
    } else {
      var o := s.cur.value;
      QueueSumUpdate(s.objs, o, s.objs[o].(queue := []));
      QueueSumPush(s.objs[o := s.objs[o].(queue := [])], Obj(s.objs[o].queue, a));
    }
  }

  lemma RecycleWork(s: State, a: AgentStatus)
    requires WellFormed(s) && s.cur.Some?
    ensures QueueSum(Recycled(s, a).objs) == QueueSum(s.objs)
  {
    var o := s.cur.value;
    QueueSumUpdate(s.objs, o, s.objs[o].(agent := Dead));
    QueueSumPush(s.objs[o := s.objs[o].(agent := Dead)], Obj([], a));
  }

  lemma BeginQueues(s: State, i: nat, how: Begin)
    requires WellFormed(s) && i < |s.pcs| && WorkerEnabled(s, s.pcs[i], BeginTurn(how))
    ensures QueueSum(DoBegin(s, i, how).objs) == QueueSum(s.objs)
  {
    match how
    case Reuse =>
    case Start(ok) => AdoptWork(s, if ok then Live else NoAgent);
    case Recycle(ok) => RecycleWork(s, if ok then Live else NoAgent);
  }

  lemma BeginWork(s: State, i: nat, how: Begin)
    requires WellFormed(s) && i < |s.pcs| && WorkerEnabled(s, s.pcs[i], BeginTurn(how))
    ensures Work(DoBegin(s, i, how)) < Work(s)
  {
    BeginMove(s, i, how);
    BeginQueues(s, i, how);
    RankUpdate(s.pcs, i, DoBegin(s, i, how).pcs[i]);
  }

  lemma PopWork(s: State, i: nat, w: WorkerStep)
    requires WellFormed(s) && i < |s.pcs| && WorkerEnabled(s, s.pcs[i], w)
    requires w.NextTurn? || (w.DrainRound? && s.objs[s.pcs[i].obj].queue != [])
    ensures Rank(DoWorker(s, i, w).pcs[i]) + 3 * QueueSum(DoWorker(s, i, w).objs)
          < Rank(s.pcs[i]) + 3 * QueueSum(s.objs)
  {
    var o := s.pcs[i].obj;
    QueueSumUpdate(s.objs, o, s.objs[o].(queue := s.objs[o].queue[1..]));
  }

  lemma DropWork(s: State, i: nat, w: WorkerStep)
    requires WellFormed(s) && i < |s.pcs| && WorkerEnabled(s, s.pcs[i], w) && (w.SendFails? || w.ReportDropped?)
    ensures Rank(DoWorker(s, i, w).pcs[i]) + 3 * QueueSum(DoWorker(s, i, w).objs)
          < Rank(s.pcs[i]) + 3 * QueueSum(s.objs)
  {
    var o := s.pcs[i].obj;
    QueueSumUpdate(s.objs, o, s.objs[o].(queue := []));
  }

  lemma QueueWork(s: State, i: nat, w: WorkerStep)
    requires WellFormed(s) && i < |s.pcs| && WorkerEnabled(s, s.pcs[i], w) && !w.BeginTurn?
    ensures Rank(DoWorker(s, i, w).pcs[i]) + 3 * QueueSum(DoWorker(s, i, w).objs)
          < Rank(s.pcs[i]) + 3 * QueueSum(s.objs)
  {
    if w.NextTurn? || (w.DrainRound? && s.objs[s.pcs[i].obj].queue != []) {
      PopWork(s, i, w);
    } else if w.SendFails? || w.ReportDropped? {
      DropWork(s, i, w);
    }
  }

  lemma WorkerWork(s: State, i: nat, w: WorkerStep)
    requires WellFormed(s) && i < |s.pcs| && WorkerEnabled(s, s.pcs[i], w)
    ensures Work(DoWorker(s, i, w)) < Work(s)
  {
    if w.BeginTurn? {
      BeginWork(s, i, w.how);
    } else {
      WorkerMove(s, i, w);
      RankUpdate(s.pcs, i, DoWorker(s, i, w).pcs[i]);
      QueueWork(s, i, w);
    }
  }

  lemma EnvWork(s: State, e: EnvStep)
    requires WellFormed(s) && EnvEnabled(s, e)
    ensures Work(DoEnv(s, e)) <= Work(s)
  {
    match e
    case Recall(id) =>
      var o := s.cur.value;
      WithoutIsSubsequence(s.objs[o].queue, id);
      QueueSumUpdate(s.objs, o, s.objs[o].(queue := Without(s.objs[o].queue, id)));
    case Placeholder => QueueSumPush(s.objs, Obj([], NoAgent));
    case AgentDies(o) => QueueSumUpdate(s.objs, o, s.objs[o].(agent := Dead));
    case Detach =>
    case TakeAgent(o) => QueueSumUpdate(s.objs, o, s.objs[o].(agent := NoAgent));
    case Flush(o, _) => QueueSumUpdate(s.objs, o, s.objs[o].(queue := []));
  }

  function GoroutineSteps(run: seq<Step>): nat {
    if run == [] then 0 else (if run[0].Env? then 0 else 1) + GoroutineSteps(run[1..])
  }

  lemma {:induction false} RunWork(s: State, run: seq<Step>, t: State)
    requires WellFormed(s) && Reaches(s, run, t)
    ensures WellFormed(t) && GoroutineSteps(run) + Work(t) <= Work(s)
    decreases |run|
  {
    if run != [] {
      DoWellFormed(s, run[0]);
      match run[0] {
        case Handler(i, h) => HandlerWork(s, i, h);
        case Worker(i, w) => WorkerWork(s, i, w);
        case Env(e) => EnvWork(s, e);
      }
      RunWork(Do(s, run[0]), run[1..], t);
    }
  }

  lemma {:induction false} ArrivingRank(pcs: seq<Pc>)
    requires forall i :: 0 <= i < |pcs| ==> pcs[i] == Arriving
    ensures RankSum(pcs) == 12 * |pcs|
  {
    if pcs != [] {
      ArrivingRank(pcs[..|pcs| - 1]);
    }
  }

  /** No run, with failures or without, lets the goroutines of N messages take more than 12 N
      steps: handlers, workers and drains all terminate. */
  lemma GoroutinesTerminate(s: State, run: seq<Step>, t: State)
    requires Init(s) && Reaches(s, run, t)
    ensures GoroutineSteps(run) <= 12 * |s.pcs|
  {
    InitSafe(s);
    RunWork(s, run, t);
    ArrivingRank(s.pcs);
  }

  /** No goroutine is ever stuck, and none needs a failure to go on. */
  lemma NeverStuck(s: State, i: nat)
    requires WellFormed(s) && i < |s.pcs| && !s.pcs[i].Finished?
    ensures exists step :: Enabled(s, step) && Healthy(step) && !step.Env? && step.i == i
  {
    var step := match s.pcs[i]
      case Arriving => Handler(i, FirstTryLock)
      case Refused => Handler(i, Lookup)
      case LookedUp(_) => Handler(i, Append)
      case Enqueued => Handler(i, RetryTryLock)
      case LockedNew => Handler(i, EnsureState)
      case Spawned => Worker(i, BeginTurn(if CurLive(s) then Reuse else Start(true)))
      case OrphanSpawned => Worker(i, OrphanLookup)
      case Turn(_) => Worker(i, EndTurn)
      case Draining(_) => Worker(i, DrainRound)
      case Popped(_, _) => Worker(i, CheckAgent)
      case Dropping(_) => Worker(i, ReportDropped)
      case Returning(_) => Worker(i, DeferredUnlock)
      case Finished => Handler(i, FirstTryLock);
    assert Enabled(s, step) && Healthy(step) && step.i == i;
  }

  // --- Whole healthy runs ---

  ghost predicate Good(s: State) {
    Safe(s) && AgentUp(s) && Attended(s) && InOrder(s) && (forall m :: StrandedFor(s, m)) && s.log.discarded == []
  }

  lemma InitGood(s: State)
    requires Init(s)
    ensures Good(s)
  {
    InitSafe(s);
    InHandNone(s.pcs);
    assert Line(s) == [];
    forall m
      ensures StrandedFor(s, m)
    {
    }
  }

  lemma NothingDiscarded(s: State, step: Step)
    requires WellFormed(s) && Enabled(s, step) && Healthy(step)
    ensures Do(s, step).log.discarded == s.log.discarded
  {
  }

  lemma StepGood(s: State, step: Step)
    requires Good(s) && Enabled(s, step) && Healthy(step)
    ensures Good(Do(s, step))
  {
    StepSafe(s, step);
    StepAgentUp(s, step);
    StepAttended(s, step);
    StepInOrder(s, step);
    NothingDiscarded(s, step);
    forall m
      ensures StrandedFor(Do(s, step), m)
    {
      StepStranded(s, step, m);
    }
  }

  lemma {:induction false} RunGood(s: State, run: seq<Step>, t: State)
    requires Good(s) && Reaches(s, run, t) && HealthyRun(run)
    ensures Good(t)
    decreases |run|
  {
    if run != [] {
      StepGood(s, run[0]);
      assert forall k :: 0 <= k < |run[1..]| ==> run[1..][k] == run[k + 1];
      RunGood(Do(s, run[0]), run[1..], t);
    }
  }

  /** The goroutine holds the session lock and has not passed its atomic empty-check-and-unlock: it will
      still look at the queue. */
  predicate WillDrain(pc: Pc) {
    pc.LockedNew? || pc.Spawned? || pc.OrphanSpawned? || pc.Turn? || pc.Draining? || pc.Popped?
  }

  /** No orphaned message: in every interleaving with the agent alive, a non-empty queue in the map
      means that the lock is held by a worker that has not passed its empty-check-and-unlock, or
      that a handler stands between its append and its retry of TryLock. */
  lemma NoOrphan(s: State, run: seq<Step>, t: State)
    requires Init(s) && Reaches(s, run, t) && HealthyRun(run)
    ensures WellFormed(t)
    ensures CurQueue(t) != [] ==> exists i :: 0 <= i < |t.pcs| && (WillDrain(t.pcs[i]) || t.pcs[i].Enqueued?)
  {
    InitGood(s);
    RunGood(s, run, t);
    if CurQueue(t) != [] && t.busy {
      var i :| 0 <= i < |t.pcs| && Holds(t.pcs[i]);
      assert WillDrain(t.pcs[i]);
    }
  }

  /** Queued messages start in the order in which they were accepted, and the ones still waiting
      come after them in that order. */
  lemma StartedInOrder(s: State, run: seq<Step>, t: State)
    requires Init(s) && Reaches(s, run, t) && HealthyRun(run)
    ensures WellFormed(t) && Subsequence(t.log.started + (InHand(t.pcs) + CurQueue(t)), t.log.accepted)
  {
    InitGood(s);
    RunGood(s, run, t);
  }

  // --- Exactly when a message is lost ---

  /** The step leaves a message in the queue of an object that is not, or no longer, in the map:
      an append to a looked-up object that has been replaced meanwhile, or a recycle while messages
      are queued. Both are visible in the state the step is taken in. */
  predicate Strands(s: State, step: Step)
    requires WellFormed(s) && Enabled(s, step)
  {
    match step
    case Handler(i, h) =>
      h.Append? && s.cur != Some(s.pcs[i].obj) && |s.objs[s.pcs[i].obj].queue| < s.limit
    case Worker(i, w) => w.BeginTurn? && w.how.Recycle? && CurQueue(s) != []
    case Env(_) => false
  }

  ghost predicate EverStrands(s: State, run: seq<Step>)
    decreases |run|
  {
    run != [] && WellFormed(s) && Enabled(s, run[0])
    && (Strands(s, run[0]) || EverStrands(Do(s, run[0]), run[1..]))
  }

  lemma HandlerStrandedGrows(s: State, i: nat, h: HandlerStep)
    requires WellFormed(s) && Enabled(s, Handler(i, h))
    ensures |DoHandler(s, i, h).log.stranded| >= |s.log.stranded|
    ensures Strands(s, Handler(i, h)) <==> DoHandler(s, i, h).log.stranded != s.log.stranded
  {
  }

  lemma WorkerStrandedGrows(s: State, i: nat, w: WorkerStep)
    requires WellFormed(s) && Enabled(s, Worker(i, w))
    ensures |DoWorker(s, i, w).log.stranded| >= |s.log.stranded|
    ensures Strands(s, Worker(i, w)) <==> DoWorker(s, i, w).log.stranded != s.log.stranded
  {
  }

  lemma StrandedGrows(s: State, step: Step)
    requires WellFormed(s) && Enabled(s, step)
    ensures |Do(s, step).log.stranded| >= |s.log.stranded|
    ensures Strands(s, step) <==> Do(s, step).log.stranded != s.log.stranded
  {
    match step
    case Handler(i, h) => HandlerStrandedGrows(s, i, h);
    case Worker(i, w) => WorkerStrandedGrows(s, i, w);
    case Env(e) =>
  }

  lemma {:induction false} StrandedMeansStep(s: State, run: seq<Step>, t: State)
    requires WellFormed(s) && Reaches(s, run, t)
    ensures |t.log.stranded| >= |s.log.stranded|
    ensures s.log.stranded == [] ==> (t.log.stranded != [] <==> EverStrands(s, run))
    decreases |run|
  {
    if run != [] {
      var u := Do(s, run[0]);
      DoWellFormed(s, run[0]);
      StrandedGrows(s, run[0]);
      StrandedMeansStep(u, run[1..], t);
    }
  }

  /** When all handlers and workers of a healthy run are done, the lock is free, the queue in the
      map is empty, and every accepted message was started, reported as dropped or recalled, if and
      only if no step of the run stranded one. */
  lemma DeliveredIffNothingStranded(s: State, run: seq<Step>, t: State)
    requires Init(s) && Reaches(s, run, t) && HealthyRun(run)
    requires forall i :: 0 <= i < |t.pcs| ==> t.pcs[i].Finished?
    ensures WellFormed(t) && !t.busy && CurQueue(t) == []
    ensures (forall m :: m in t.log.accepted ==> m in t.log.started || m in t.log.dropped || m in t.log.recalled)
       <==> !EverStrands(s, run)
  {
    InitGood(s);
    RunGood(s, run, t);
    StrandedMeansStep(s, run, t);
    InHandNone(t.pcs);
    forall m
      ensures Count(t.log.accepted, m) == Count(t.log.stranded, m) + SettledCount(t.log, m)
    {
      assert LedgerFor(t, m) && StrandedFor(t, m);
    }
    SettledUnlessStranded(t);
  }

  /** With the ledger balanced by the stranded messages, all are settled exactly when none is stranded. */
  lemma SettledUnlessStranded(t: State)
    requires AcceptedOnce(t) && t.log.discarded == []
    requires forall m :: Count(t.log.accepted, m) == Count(t.log.stranded, m) + SettledCount(t.log, m)
    ensures (forall m :: m in t.log.accepted ==> m in t.log.started || m in t.log.dropped || m in t.log.recalled)
       <==> t.log.stranded == []
  {
    if t.log.stranded != [] {
      var m := t.log.stranded[0];
      assert Count(t.log.stranded, m) > 0;
      assert m in t.log.accepted;
      AcceptedCount(t, m);
    } else {
      forall m | m in t.log.accepted
        ensures m in t.log.started || m in t.log.dropped || m in t.log.recalled
      {
        assert Count(t.log.accepted, m) > 0 && SettledCount(t.log, m) > 0;
      }
    }
  }

  lemma AcceptedCount(t: State, m: Msg)
    requires AcceptedOnce(t) && m in t.log.accepted
    ensures Count(t.log.accepted, m) == 1
  {
    var k :| 0 <= k < |t.log.accepted| && t.log.accepted[k] == m;
    CountOnce(t.log.accepted, k);
  }

  /** A stranded message is never started, reported or recalled later, however the run goes on. */
  lemma StrandedForever(s: State, run: seq<Step>, t: State, m: Msg)
    requires Init(s) && Reaches(s, run, t) && HealthyRun(run) && m in t.log.stranded
    ensures m in t.log.accepted
    ensures m !in t.log.started && m !in t.log.dropped && m !in t.log.recalled
  {
    InitGood(s);
    RunGood(s, run, t);
    assert LedgerFor(t, m) && StrandedFor(t, m);
    assert Count(t.log.stranded, m) > 0;
    assert m in t.log.accepted;
    AcceptedCount(t, m);
  }
}
