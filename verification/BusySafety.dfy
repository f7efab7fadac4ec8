/** What every step of the busy-session protocol keeps, failures included. */
module BusySafety {
  // One lock holder, one Unlock per TryLock, bounded queues, and a ledger in which no accepted message
  // is lost.

  import opened Wrappers
  import opened PendingQueue
  import opened BusyProtocol

  // --- The session lock ---

  /** The goroutine owns the session lock. */
  predicate Holds(pc: Pc) {
    match pc
    case LockedNew => true
    case Spawned => true
    case OrphanSpawned => true
    case Turn(_) => true
    case Draining(_) => true
    case Popped(_, _) => true
    case Dropping(_) => true
    case Returning(unlocked) => !unlocked
    case _ => false
  }

  /** The goroutine has not tried the lock successfully yet. */
  predicate Fresh0(pc: Pc) {
    pc.Arriving? || pc.Refused? || pc.LookedUp? || pc.Enqueued?
  }

  ghost predicate Mutex(s: State) {
    && (forall i :: 0 <= i < |s.pcs| && Holds(s.pcs[i]) ==> s.busy)
    && (s.busy ==> exists i :: 0 <= i < |s.pcs| && Holds(s.pcs[i]))
    && (forall i, j :: 0 <= i < |s.pcs| && 0 <= j < |s.pcs| && Holds(s.pcs[i]) && Holds(s.pcs[j]) ==> i == j)
  }

  /** Per goroutine: locks minus unlocks is one exactly while it holds the lock, and it locks at
      most once. */
  ghost predicate Matched(s: State) {
    && |s.acquired| == |s.released| == |s.pcs|
    && forall i :: 0 <= i < |s.pcs| ==>
      && s.acquired[i] == s.released[i] + (if Holds(s.pcs[i]) then 1 else 0)
      && s.acquired[i] <= (if Fresh0(s.pcs[i]) then 0 else 1)
  }

  lemma HandlerMatched(s: State, i: nat, h: HandlerStep)
    requires WellFormed(s) && i < |s.pcs| && HandlerEnabled(s.pcs[i], h)
    requires Matched(s)
    ensures Matched(DoHandler(s, i, h))
  {
  }

  lemma HandlerMutex(s: State, i: nat, h: HandlerStep)
    requires WellFormed(s) && i < |s.pcs| && HandlerEnabled(s.pcs[i], h)
    requires Mutex(s)
    ensures Mutex(DoHandler(s, i, h))
  {
    var t := DoHandler(s, i, h);
    assert t.pcs == s.pcs[i := t.pcs[i]];
    if t.busy {
      if s.busy {
        var k :| 0 <= k < |s.pcs| && Holds(s.pcs[k]);
        assert Holds(t.pcs[k]);
      } else {
        assert Holds(t.pcs[i]);
      }
    }
  }

  /** How a worker step moves its own program counter, the flag and the unlock count. */
  predicate OwnMove(s: State, i: nat, t: State)
    requires WellFormed(s) && i < |s.pcs|
  {
    && |t.pcs| == |s.pcs| && t.pcs == s.pcs[i := t.pcs[i]]
    && !Fresh0(t.pcs[i]) && !Fresh0(s.pcs[i])
    && t.acquired == s.acquired
    && (if Holds(s.pcs[i]) && !Holds(t.pcs[i])
        then !t.busy && t.released == s.released[i := s.released[i] + 1]
        else t.busy == s.busy && t.released == s.released && Holds(t.pcs[i]) == Holds(s.pcs[i]))
  }

  lemma BeginMove(s: State, i: nat, how: Begin)
    requires WellFormed(s) && i < |s.pcs| && s.pcs[i].Spawned? && (how.Start? <==> !CurLive(s))
    ensures OwnMove(s, i, DoBegin(s, i, how))
  {
  }

  lemma WorkerMove(s: State, i: nat, w: WorkerStep)
    requires WellFormed(s) && i < |s.pcs| && WorkerEnabled(s, s.pcs[i], w)
    ensures OwnMove(s, i, DoWorker(s, i, w))
  {
    if w.BeginTurn? {
      BeginMove(s, i, w.how);
    }
  }

  lemma WorkerMutex(s: State, i: nat, w: WorkerStep)
    requires WellFormed(s) && i < |s.pcs| && WorkerEnabled(s, s.pcs[i], w)
    requires Mutex(s) && Matched(s)
    ensures Mutex(DoWorker(s, i, w)) && Matched(DoWorker(s, i, w))
  {
    var t := DoWorker(s, i, w);
    WorkerMove(s, i, w);
    if t.busy {
      var k :| 0 <= k < |s.pcs| && Holds(s.pcs[k]);
      assert Holds(t.pcs[k]);
    }
  }

  lemma EnvPcs(s: State, e: EnvStep)
    requires WellFormed(s) && EnvEnabled(s, e)
    ensures var t := DoEnv(s, e);
            t.pcs == s.pcs && t.busy == s.busy && t.acquired == s.acquired && t.released == s.released
            && t.log.accepted == s.log.accepted && t.limit == s.limit
  {
  }

  lemma StepMutex(s: State, step: Step)
    requires WellFormed(s) && Enabled(s, step) && Mutex(s) && Matched(s)
    ensures Mutex(Do(s, step)) && Matched(Do(s, step))
  {
    match step
    case Handler(i, h) =>
      HandlerMutex(s, i, h);
      HandlerMatched(s, i, h);
    case Worker(i, w) => WorkerMutex(s, i, w);
    case Env(e) =>
      EnvPcs(s, e);
      var t := DoEnv(s, e);
      if t.busy {
        var k :| 0 <= k < |s.pcs| && Holds(s.pcs[k]);
        assert Holds(t.pcs[k]);
      }
  }

  // --- The queue bound ---

  predicate Bounded(s: State) {
    forall o :: 0 <= o < |s.objs| ==> |s.objs[o].queue| <= s.limit
  }

  lemma StepBounded(s: State, step: Step)
    requires WellFormed(s) && Enabled(s, step) && Bounded(s)
    ensures Bounded(Do(s, step))
  {
    match step
    case Handler(i, h) => HandlerBounded(s, i, h);
    case Worker(i, w) => WorkerBounded(s, i, w);
    case Env(e) => EnvBounded(s, e);
  }

  lemma HandlerBounded(s: State, i: nat, h: HandlerStep)
    requires WellFormed(s) && i < |s.pcs| && HandlerEnabled(s.pcs[i], h) && Bounded(s)
    ensures Bounded(DoHandler(s, i, h))
  {
  }

  lemma WorkerBounded(s: State, i: nat, w: WorkerStep)
    requires WellFormed(s) && i < |s.pcs| && WorkerEnabled(s, s.pcs[i], w) && Bounded(s)
    ensures Bounded(DoWorker(s, i, w))
  {
  }

  lemma EnvBounded(s: State, e: EnvStep)
    requires WellFormed(s) && EnvEnabled(s, e) && Bounded(s)
    ensures Bounded(DoEnv(s, e))
  {
    if e.Recall? {
      WithoutIsSubsequence(s.objs[s.cur.value].queue, e.id);
    }
  }

  // --- The ledger ---

  ghost function Count(q: seq<Msg>, m: Msg): nat {
    multiset(q)[m]
  }

  /** How often `m` sits in some queue. */
  ghost function QueuedCount(objs: seq<Obj>, m: Msg): nat {
    if objs == [] then 0
    else QueuedCount(objs[..|objs| - 1], m) + Count(objs[|objs| - 1].queue, m)
  }

  /** Popped by a drain loop but neither started nor reported yet. */
  ghost function InHand(pcs: seq<Pc>): seq<Msg> {
    if pcs == [] then []
    else
      var rest := InHand(pcs[..|pcs| - 1]);
      if pcs[|pcs| - 1].Popped? then rest + [pcs[|pcs| - 1].msg] else rest
  }

  /** How often `m` was started, reported as dropped, recalled or discarded. */
  ghost function SettledCount(l: Log, m: Msg): nat {
    Count(l.started, m) + Count(l.dropped, m) + Count(l.recalled, m) + Count(l.discarded, m)
  }

  ghost predicate LedgerFor(s: State, m: Msg) {
    Count(s.log.accepted, m) == QueuedCount(s.objs, m) + Count(InHand(s.pcs), m) + SettledCount(s.log, m)
  }

  /** Every acceptance of a message is matched by exactly one of: still queued, in a drain loop's
      hand, started, dropped with a report, recalled, discarded. */
  ghost predicate Ledger(s: State) {
    forall m :: LedgerFor(s, m)
  }

  lemma {:induction false} QueuedUpdate(objs: seq<Obj>, o: nat, x: Obj, m: Msg)
    requires o < |objs|
    ensures QueuedCount(objs[o := x], m) == QueuedCount(objs, m) - Count(objs[o].queue, m) + Count(x.queue, m)
  {
    var n := |objs| - 1;
    if o < n {
      QueuedUpdate(objs[..n], o, x, m);
      assert objs[o := x][..n] == objs[..n][o := x];
    } else {
      assert objs[o := x][..n] == objs[..n];
    }
  }

  lemma QueuedPush(objs: seq<Obj>, x: Obj, m: Msg)
    ensures QueuedCount(objs + [x], m) == QueuedCount(objs, m) + Count(x.queue, m)
  {
    assert (objs + [x])[..|objs|] == objs;
  }

  lemma CountHead(q: seq<Msg>, m: Msg)
    requires q != []
    ensures Count(q, m) == Count([q[0]], m) + Count(q[1..], m)
  {
    assert q == [q[0]] + q[1..];
  }

  lemma {:induction false} InHandNone(pcs: seq<Pc>)
    requires forall j :: 0 <= j < |pcs| ==> !pcs[j].Popped?
    ensures InHand(pcs) == []
  {
    if pcs != [] {
      InHandNone(pcs[..|pcs| - 1]);
    }
  }

  lemma {:induction false} InHandOne(pcs: seq<Pc>, i: nat)
    requires i < |pcs|
    requires forall j :: 0 <= j < |pcs| && j != i ==> !pcs[j].Popped?
    ensures InHand(pcs) == if pcs[i].Popped? then [pcs[i].msg] else []
  {
    var n := |pcs| - 1;
    if i < n {
      InHandOne(pcs[..n], i);
    } else {
      InHandNone(pcs[..n]);
    }
  }

  /** A step of the lock holder i changes no other goroutine's hand, and only holders have one. */
  lemma HandOf(s: State, i: nat, t: State)
    requires Mutex(s) && i < |s.pcs| == |t.pcs|
    requires forall j :: 0 <= j < |s.pcs| && j != i ==> t.pcs[j] == s.pcs[j]
    requires Holds(s.pcs[i])
    ensures InHand(s.pcs) == if s.pcs[i].Popped? then [s.pcs[i].msg] else []
    ensures InHand(t.pcs) == if t.pcs[i].Popped? then [t.pcs[i].msg] else []
  {
    InHandOne(s.pcs, i);
    InHandOne(t.pcs, i);
  }

  lemma {:induction false} InHandSame(a: seq<Pc>, i: nat, pc: Pc)
    requires i < |a| && !a[i].Popped? && !pc.Popped?
    ensures InHand(a[i := pc]) == InHand(a)
  {
    var n := |a| - 1;
    if i < n {
      InHandSame(a[..n], i, pc);
      assert a[i := pc][..n] == a[..n][i := pc];
    } else {
      assert a[i := pc][..n] == a[..n];
    }
  }

  lemma AppendLedger(s: State, i: nat, h: HandlerStep, m: Msg)
    requires WellFormed(s) && i < |s.pcs| && h.Append? && HandlerEnabled(s.pcs[i], h)
    requires LedgerFor(s, m)
    ensures LedgerFor(DoHandler(s, i, h), m)
  {
    InHandSame(s.pcs, i, DoHandler(s, i, h).pcs[i]);
    var o := s.pcs[i].obj;
    QueuedUpdate(s.objs, o, s.objs[o].(queue := s.objs[o].queue + [Msg(i, s.ids[i])]), m);
  }

  lemma HandlerLedger(s: State, i: nat, h: HandlerStep, m: Msg)
    requires WellFormed(s) && i < |s.pcs| && HandlerEnabled(s.pcs[i], h)
    requires LedgerFor(s, m)
    ensures LedgerFor(DoHandler(s, i, h), m)
  {
    if h.Append? {
      AppendLedger(s, i, h, m);
    } else {
      InHandSame(s.pcs, i, DoHandler(s, i, h).pcs[i]);
      if h.EnsureState? { QueuedPush(s.objs, Obj([], NoAgent), m); }
    }
  }

  lemma BeginLedger(s: State, i: nat, how: Begin, m: Msg)
    requires WellFormed(s) && i < |s.pcs| && s.pcs[i].Spawned? && (how.Start? <==> !CurLive(s))
    requires LedgerFor(s, m)
    ensures LedgerFor(DoBegin(s, i, how), m)
  {
    InHandSame(s.pcs, i, DoBegin(s, i, how).pcs[i]);
    match how
    case Reuse =>
    case Start(ok) =>
      var a := if ok then Live else NoAgent;
      if s.cur.None? {
        QueuedPush(s.objs, Obj([], a), m);
      } else {
        var o := s.cur.value;
        QueuedUpdate(s.objs, o, s.objs[o].(queue := []), m);
        QueuedPush(s.objs[o := s.objs[o].(queue := [])], Obj(s.objs[o].queue, a), m);
      }
    case Recycle(ok) =>
      var o := s.cur.value;
      QueuedUpdate(s.objs, o, s.objs[o].(agent := Dead), m);
      QueuedPush(s.objs[o := s.objs[o].(agent := Dead)], Obj([], if ok then Live else NoAgent), m);
  }

  lemma DropLedger(s: State, o: nat, m: Msg)
    requires o < |s.objs| && LedgerFor(s, m)
    ensures LedgerFor(DropQueue(s, o), m)
  {
    QueuedUpdate(s.objs, o, s.objs[o].(queue := []), m);
  }

  lemma PopQueue(objs: seq<Obj>, o: nat, m: Msg)
    requires o < |objs| && objs[o].queue != []
    ensures QueuedCount(objs[o := objs[o].(queue := objs[o].queue[1..])], m)
         == QueuedCount(objs, m) - Count([objs[o].queue[0]], m)
  {
    QueuedUpdate(objs, o, objs[o].(queue := objs[o].queue[1..]), m);
    CountHead(objs[o].queue, m);
  }

  lemma NextTurnLedger(s: State, i: nat, m: Msg)
    requires WellFormed(s) && i < |s.pcs| && WorkerEnabled(s, s.pcs[i], NextTurn) && LedgerFor(s, m)
    ensures LedgerFor(DoWorker(s, i, NextTurn), m)
  {
    PopQueue(s.objs, s.pcs[i].obj, m);
  }

  lemma DrainRoundLedger(s: State, i: nat, m: Msg)
    requires WellFormed(s) && i < |s.pcs| && s.pcs[i].Draining? && Mutex(s) && LedgerFor(s, m)
    ensures LedgerFor(DoWorker(s, i, DrainRound), m)
  {
    var t := DoWorker(s, i, DrainRound);
    HandOf(s, i, t);
    if s.objs[s.pcs[i].obj].queue != [] {
      PopQueue(s.objs, s.pcs[i].obj, m);
    }
  }

  lemma CheckAgentLedger(s: State, i: nat, m: Msg)
    requires WellFormed(s) && i < |s.pcs| && s.pcs[i].Popped? && Mutex(s) && LedgerFor(s, m)
    ensures LedgerFor(DoWorker(s, i, CheckAgent), m)
  {
    HandOf(s, i, DoWorker(s, i, CheckAgent));
  }

  lemma WorkerLedger(s: State, i: nat, w: WorkerStep, m: Msg)
    requires WellFormed(s) && i < |s.pcs| && WorkerEnabled(s, s.pcs[i], w)
    requires Mutex(s) && LedgerFor(s, m)
    ensures LedgerFor(DoWorker(s, i, w), m)
  {
    var t := DoWorker(s, i, w);
    if w.BeginTurn? {
      BeginLedger(s, i, w.how, m);
    } else if w.NextTurn? {
      NextTurnLedger(s, i, m);
    } else if w.DrainRound? {
      DrainRoundLedger(s, i, m);
    } else if w.CheckAgent? {
      CheckAgentLedger(s, i, m);
    } else {
      InHandSame(s.pcs, i, t.pcs[i]);
      if w.SendFails? || w.ReportDropped? {
        DropLedger(s, s.pcs[i].obj, m);
      }
    }
  }

  lemma EnvLedger(s: State, e: EnvStep, m: Msg)
    requires WellFormed(s) && EnvEnabled(s, e) && LedgerFor(s, m)
    ensures LedgerFor(DoEnv(s, e), m)
  {
    match e
    case Recall(id) =>
      var o := s.cur.value;
      var q := s.objs[o].queue;
      QueuedUpdate(s.objs, o, s.objs[o].(queue := Without(q, id)), m);
      WithoutAndMatchingSplit(q, id);
      assert Count(q, m) == Count(Without(q, id), m) + Count(Matching(q, id), m);
    case Placeholder => QueuedPush(s.objs, Obj([], NoAgent), m);
    case AgentDies(o) => QueuedUpdate(s.objs, o, s.objs[o].(agent := Dead), m);
    case Detach =>
    case TakeAgent(o) => QueuedUpdate(s.objs, o, s.objs[o].(agent := NoAgent), m);
    case Flush(o, report) =>
      if report {
        DropLedger(s, o, m);
      } else {
        QueuedUpdate(s.objs, o, s.objs[o].(queue := []), m);
      }
  }

  lemma StepLedger(s: State, step: Step)
    requires WellFormed(s) && Enabled(s, step) && Mutex(s) && Ledger(s)
    ensures Ledger(Do(s, step))
  {
    forall m
      ensures LedgerFor(Do(s, step), m)
    {
      assert LedgerFor(s, m);
      match step
      case Handler(i, h) => HandlerLedger(s, i, h, m);
      case Worker(i, w) => WorkerLedger(s, i, w, m);
      case Env(e) => EnvLedger(s, e, m);
    }
  }

  // --- One acceptance per message ---

  predicate PastAppend(pc: Pc) {
    !pc.Arriving? && !pc.Refused? && !pc.LookedUp?
  }

  ghost predicate AcceptedOnce(s: State) {
    && (forall k :: 0 <= k < |s.log.accepted| ==>
         s.log.accepted[k].owner < |s.pcs| && PastAppend(s.pcs[s.log.accepted[k].owner]))
    && (forall j, k :: 0 <= j < k < |s.log.accepted| ==> s.log.accepted[j].owner != s.log.accepted[k].owner)
  }

  lemma HandlerAcceptedOnce(s: State, i: nat, h: HandlerStep)
    requires WellFormed(s) && i < |s.pcs| && HandlerEnabled(s.pcs[i], h) && AcceptedOnce(s)
    ensures AcceptedOnce(DoHandler(s, i, h))
  {
    var t := DoHandler(s, i, h);
    assert t.pcs == s.pcs[i := t.pcs[i]];
    assert PastAppend(s.pcs[i]) ==> PastAppend(t.pcs[i]);
  }

  lemma WorkerAccepts(s: State, i: nat, w: WorkerStep)
    requires WellFormed(s) && i < |s.pcs| && WorkerEnabled(s, s.pcs[i], w)
    ensures DoWorker(s, i, w).log.accepted == s.log.accepted
  {
  }

  lemma StepAcceptedOnce(s: State, step: Step)
    requires WellFormed(s) && Enabled(s, step) && AcceptedOnce(s)
    ensures AcceptedOnce(Do(s, step))
  {
    match step
    case Handler(i, h) => HandlerAcceptedOnce(s, i, h);
    case Worker(i, w) =>
      WorkerMove(s, i, w);
      WorkerAccepts(s, i, w);
    case Env(e) => EnvPcs(s, e);
  }

  lemma {:induction false} CountOnce(q: seq<Msg>, k: nat)
    requires k < |q|
    requires forall a, b :: 0 <= a < b < |q| ==> q[a].owner != q[b].owner
    ensures Count(q, q[k]) == 1
  {
    var n := |q| - 1;
    assert q == q[..n] + [q[n]];
    if k < n {
      CountOnce(q[..n], k);
    } else {
      assert q[n] !in q[..n];
    }
  }

  // --- All together, over whole runs ---

  ghost predicate Safe(s: State) {
    WellFormed(s) && Mutex(s) && Matched(s) && Bounded(s) && Ledger(s) && AcceptedOnce(s)
  }

  lemma InitSafe(s: State)
    requires Init(s)
    ensures Safe(s)
  {
    InHandNone(s.pcs);
    forall m
      ensures LedgerFor(s, m)
    {
    }
  }

  lemma StepSafe(s: State, step: Step)
    requires Safe(s) && Enabled(s, step)
    ensures Safe(Do(s, step))
  {
    DoWellFormed(s, step);
    StepMutex(s, step);
    StepBounded(s, step);
    StepLedger(s, step);
    StepAcceptedOnce(s, step);
  }

  /** Every interleaving, with failures, stops and shutdown, keeps all of it. */
  lemma {:induction false} RunSafe(s: State, run: seq<Step>, t: State)
    requires Safe(s) && Reaches(s, run, t)
    ensures Safe(t)
    decreases |run|
  {
    if run != [] {
      StepSafe(s, run[0]);
      RunSafe(Do(s, run[0]), run[1..], t);
    }
  }

  /** Mutual exclusion: whoever is about to run or running a turn is the only one. */
  lemma OneWorker(s: State, run: seq<Step>, t: State, i: nat, j: nat)
    requires Init(s) && Reaches(s, run, t)
    requires i < |t.pcs| && j < |t.pcs| && Holds(t.pcs[i]) && Holds(t.pcs[j])
    ensures i == j && t.busy
  {
    InitSafe(s);
    RunSafe(s, run, t);
  }

  /** A goroutine that has returned unlocked the session exactly as often as it locked it, at most
      once: the drain loop's unlock and the deferred fallback never both fire, nor neither. */
  lemma EveryLockReleasedOnce(s: State, run: seq<Step>, t: State, i: nat)
    requires Init(s) && Reaches(s, run, t) && i < |t.pcs| && t.pcs[i].Finished?
    ensures i < |t.acquired| == |t.released|
    ensures t.acquired[i] == t.released[i] <= 1
  {
    InitSafe(s);
    RunSafe(s, run, t);
  }

  /** The busy flag is only ever cleared by the goroutine that holds the lock. */
  lemma OnlyHolderUnlocks(s: State, step: Step)
    requires Safe(s) && Enabled(s, step) && s.busy && !Do(s, step).busy
    ensures step.Worker? && Holds(s.pcs[step.i]) && !Holds(Do(s, step).pcs[step.i])
  {
    match step
    case Handler(i, h) =>
    case Worker(i, w) => WorkerMove(s, i, w);
    case Env(e) => EnvPcs(s, e);
  }

  /** Conservation: an accepted message is in exactly one place, exactly once. */
  lemma ExactlyOnePlace(s: State, run: seq<Step>, t: State, m: Msg)
    requires Init(s) && Reaches(s, run, t) && m in t.log.accepted
    ensures QueuedCount(t.objs, m) + Count(InHand(t.pcs), m) + Count(t.log.started, m) + Count(t.log.dropped, m)
          + Count(t.log.recalled, m) + Count(t.log.discarded, m) == 1
  {
    InitSafe(s);
    RunSafe(s, run, t);
    var k :| 0 <= k < |t.log.accepted| && t.log.accepted[k] == m;
    CountOnce(t.log.accepted, k);
    assert LedgerFor(t, m);
  }

  /** Nothing is started, reported, recalled or queued that was not accepted. */
  lemma NothingInvented(s: State, run: seq<Step>, t: State, m: Msg)
    requires Init(s) && Reaches(s, run, t) && m !in t.log.accepted
    ensures m !in t.log.started && m !in t.log.dropped && m !in t.log.recalled && m !in t.log.discarded
    ensures QueuedCount(t.objs, m) == 0
  {
    InitSafe(s);
    RunSafe(s, run, t);
    assert LedgerFor(t, m);
  }

  lemma QueueNeverOverLimit(s: State, run: seq<Step>, t: State, o: nat)
    requires Init(s) && Reaches(s, run, t) && o < |t.objs|
    ensures |t.objs[o].queue| <= s.limit
  {
    InitSafe(s);
    RunSafe(s, run, t);
    RunLimit(s, run, t);
  }

  lemma {:induction false} RunLimit(s: State, run: seq<Step>, t: State)
    requires Reaches(s, run, t)
    ensures t.limit == s.limit && |t.pcs| == |s.pcs|
    decreases |run|
  {
    if run != [] {
      DoWellFormed(s, run[0]);
      RunLimit(Do(s, run[0]), run[1..], t);
    }
  }
}
