/** The busy-session protocol of core/engine.go as a step system. */
module BusyProtocol {
  // Any number of handler goroutines compete for one session; the one that takes the session lock
  // becomes, or spawns, the worker that runs turns. A step is one critical section or one decision of
  // one goroutine, so a run of the system is an interleaving of them.

  import opened Wrappers
  import opened PendingQueue

  datatype AgentStatus = NoAgent | Live | Dead

  /** One interactiveState object: its queue and the agent process it owns. */
  datatype Obj = Obj(queue: seq<Msg>, agent: AgentStatus)

  /** Where handler goroutine i, or the goroutine it started, stands. */
  datatype Pc =
    | Arriving                      // before the first TryLock
    | Refused                       // TryLock failed
    | LookedUp(obj: nat)            // holds a state reference, before the append section
    | Enqueued                      // after the append section, before the retry TryLock
    | LockedNew                     // TryLock succeeded, before ensureInteractiveStateForQueueing
    | Spawned                       // processInteractiveMessageWith started
    | OrphanSpawned                 // drainOrphanedQueue started
    | Turn(obj: nat)                // inside processInteractiveEvents
    | Draining(obj: nat)            // at the head of the drain loop
    | Popped(obj: nat, msg: Msg)    // popped by the drain loop, before its Alive check
    | Dropping(obj: nat)            // about to report the queue as dropped
    | Returning(unlocked: bool)     // before the deferred fallback unlock
    | Finished

  /** What became of every message, in the order it happened. */
  datatype Log = Log(
    accepted: seq<Msg>,    // appended to some queue
    started: seq<Msg>,     // taken from a queue and started as a turn
    dropped: seq<Msg>,     // reported to the sender as dropped
    recalled: seq<Msg>,    // removed by a recall
    discarded: seq<Msg>,   // thrown away without a report (silent stop)
    stranded: seq<Msg>)    // left in a queue whose state object was no longer in the map

  datatype State = State(
    limit: nat,            // maxQueuedMessages
    ids: seq<string>,      // platform message id of handler i's message
    pcs: seq<Pc>,
    busy: bool,            // the session's busy flag
    acquired: seq<nat>,    // successful TryLocks, per goroutine
    released: seq<nat>,    // Unlocks, per goroutine
    objs: seq<Obj>,        // every interactiveState ever allocated for the session key
    cur: Option<nat>,      // the one in the interactiveStates map
    log: Log)

  /** How getOrCreateInteractiveStateWith turns out. */
  datatype Begin = Reuse | Start(ok: bool) | Recycle(ok: bool)

  datatype HandlerStep = FirstTryLock | EnsureState | Lookup | Append | RetryTryLock

  datatype WorkerStep =
    | BeginTurn(how: Begin)
    | Shutdown
    | NextTurn
    | EndTurn
    | SendFails
    | DrainRound
    | CheckAgent
    | ReportDropped
    | OrphanLookup
    | DeferredUnlock

  /** Other parts of the engine, and the agent process itself. */
  datatype EnvStep =
    | Recall(id: string)
    | Placeholder
    | AgentDies(o: nat)
    | Detach
    | TakeAgent(o: nat)
    | Flush(o: nat, report: bool)

  datatype Step = Handler(i: nat, h: HandlerStep) | Worker(i: nat, w: WorkerStep) | Env(e: EnvStep)

  predicate CurLive(s: State) {
    s.cur.Some? && s.cur.value < |s.objs| && s.objs[s.cur.value].agent.Live?
  }

  predicate RefOk(n: nat, pc: Pc) {
    match pc
    case LookedUp(o) => o < n
    case Turn(o) => o < n
    case Draining(o) => o < n
    case Popped(o, _) => o < n
    case Dropping(o) => o < n
    case _ => true
  }

  /** Object references point to allocated state objects. */
  predicate WellFormed(s: State) {
    && |s.ids| == |s.acquired| == |s.released| == |s.pcs|
    && (forall i :: 0 <= i < |s.pcs| ==> RefOk(|s.objs|, s.pcs[i]))
    && (s.cur.Some? ==> s.cur.value < |s.objs|)
  }

  predicate HandlerEnabled(pc: Pc, h: HandlerStep) {
    match h
    case FirstTryLock => pc.Arriving?
    case EnsureState => pc.LockedNew?
    case Lookup => pc.Refused?
    case Append => pc.LookedUp?
    case RetryTryLock => pc.Enqueued?
  }

  predicate WorkerEnabled(s: State, pc: Pc, w: WorkerStep) {
    match w
    case BeginTurn(how) => pc.Spawned? && (how.Start? <==> !CurLive(s))
    case Shutdown => pc.Spawned?
    case NextTurn => pc.Turn? && pc.obj < |s.objs| && s.objs[pc.obj].queue != []
    case EndTurn => pc.Turn?
    case SendFails => pc.Turn?
    case DrainRound => pc.Draining?
    case CheckAgent => pc.Popped?
    case ReportDropped => pc.Dropping?
    case OrphanLookup => pc.OrphanSpawned?
    case DeferredUnlock => pc.Returning?
  }

  predicate EnvEnabled(s: State, e: EnvStep) {
    match e
    case Recall(_) => s.cur.Some?
    case Placeholder => s.cur.None?
    case AgentDies(o) => o < |s.objs| && s.objs[o].agent.Live?
    case Detach => s.cur.Some?
    case TakeAgent(o) => o < |s.objs|
    case Flush(o, _) => o < |s.objs|
  }

  predicate Enabled(s: State, step: Step) {
    match step
    case Handler(i, h) => i < |s.pcs| && HandlerEnabled(s.pcs[i], h)
    case Worker(i, w) => i < |s.pcs| && WorkerEnabled(s, s.pcs[i], w)
    case Env(e) => EnvEnabled(s, e)
  }

  function Go(s: State, i: nat, pc: Pc): State
    requires i < |s.pcs|
  {
    s.(pcs := s.pcs[i := pc])
  }

  function Locked(s: State, i: nat): State
    requires i < |s.acquired|
  {
    s.(busy := true, acquired := s.acquired[i := s.acquired[i] + 1])
  }

  function Unlocked(s: State, i: nat): State
    requires i < |s.released|
  {
    s.(busy := false, released := s.released[i := s.released[i] + 1])
  }

  function SetQueue(s: State, o: nat, q: seq<Msg>): State
    requires o < |s.objs|
  {
    s.(objs := s.objs[o := s.objs[o].(queue := q)])
  }

  function SetAgent(s: State, o: nat, a: AgentStatus): State
    requires o < |s.objs|
  {
    s.(objs := s.objs[o := s.objs[o].(agent := a)])
  }

  /** A fresh state object with this queue becomes the map entry. */
  function Fresh(s: State, q: seq<Msg>, a: AgentStatus): State {
    s.(objs := s.objs + [Obj(q, a)], cur := Some(|s.objs|))
  }

  /** The fresh map entry adopts the old entry's queue. */
  function Adopting(s: State, a: AgentStatus): State
    requires WellFormed(s)
  {
    if s.cur.None? then Fresh(s, [], a)
    else Fresh(SetQueue(s, s.cur.value, []), s.objs[s.cur.value].queue, a)
  }

  /** Recycling closes the agent and deletes the entry before the new one is made, so the new
      object finds nothing to adopt and the old queue stays behind. */
  function Recycled(s: State, a: AgentStatus): State
    requires WellFormed(s) && s.cur.Some?
  {
    var o := s.cur.value;
    Fresh(SetAgent(s, o, Dead), [], a).(log := s.log.(stranded := s.log.stranded + s.objs[o].queue))
  }

  function DoHandler(s: State, i: nat, h: HandlerStep): State
    requires WellFormed(s) && i < |s.pcs| && HandlerEnabled(s.pcs[i], h)
  {
    match h
    case FirstTryLock =>
      if s.busy then Go(s, i, Refused) else Go(Locked(s, i), i, LockedNew)
    case EnsureState =>
      Go(if s.cur.None? then Fresh(s, [], NoAgent) else s, i, Spawned)
    case Lookup =>
      Go(s, i, if s.cur.None? || s.objs[s.cur.value].agent.Dead? then Finished else LookedUp(s.cur.value))
    case Append =>
      var o, m := s.pcs[i].obj, Msg(i, s.ids[i]);
      if |s.objs[o].queue| >= s.limit then Go(s, i, Enqueued)
      else
        Go(SetQueue(s, o, s.objs[o].queue + [m]), i, Enqueued)
        .(log := s.log.(accepted := s.log.accepted + [m],
                        stranded := if s.cur == Some(o) then s.log.stranded else s.log.stranded + [m]))
    case RetryTryLock =>
      if s.busy then Go(s, i, Finished) else Go(Locked(s, i), i, OrphanSpawned)
  }

  /** The worker empties the queue of `o` into a report to the senders. */
  function DropQueue(s: State, o: nat): State
    requires o < |s.objs|
  {
    SetQueue(s, o, []).(log := s.log.(dropped := s.log.dropped + s.objs[o].queue))
  }

  function DoBegin(s: State, i: nat, how: Begin): State
    requires WellFormed(s) && i < |s.pcs| && s.pcs[i].Spawned? && (how.Start? <==> !CurLive(s))
  {
    match how
    case Reuse => Go(s, i, Turn(s.cur.value))
    case Start(ok) =>
      var t := Adopting(s, if ok then Live else NoAgent);
      Go(t, i, if ok then Turn(t.cur.value) else Returning(false))
    case Recycle(ok) =>
      var t := Recycled(s, if ok then Live else NoAgent);
      Go(t, i, if ok then Turn(t.cur.value) else Returning(false))
  }

  function DoWorker(s: State, i: nat, w: WorkerStep): State
    requires WellFormed(s) && i < |s.pcs| && WorkerEnabled(s, s.pcs[i], w)
  {
    match w
    case BeginTurn(how) => DoBegin(s, i, how)
    case Shutdown => Go(s, i, Returning(false))
    case NextTurn =>
      var o := s.pcs[i].obj;
      var q := s.objs[o].queue;
      SetQueue(s, o, q[1..]).(log := s.log.(started := s.log.started + [q[0]]))
    case EndTurn => Go(s, i, Draining(s.pcs[i].obj))
    case SendFails => Go(DropQueue(s, s.pcs[i].obj), i, Draining(s.pcs[i].obj))
    case DrainRound =>
      var o := s.pcs[i].obj;
      var q := s.objs[o].queue;
      if q == [] then Go(Unlocked(s, i), i, Returning(true))
      else Go(SetQueue(s, o, q[1..]), i, Popped(o, q[0]))
    case CheckAgent =>
      var o, m := s.pcs[i].obj, s.pcs[i].msg;
      if s.objs[o].agent.Live? then Go(s, i, Turn(o)).(log := s.log.(started := s.log.started + [m]))
      else Go(s, i, Dropping(o)).(log := s.log.(dropped := s.log.dropped + [m]))
    case ReportDropped => Go(DropQueue(s, s.pcs[i].obj), i, Returning(false))
    case OrphanLookup =>
      Go(s, i, if s.cur.None? then Returning(false)
               else if s.objs[s.cur.value].agent.Live? then Draining(s.cur.value)
               else Dropping(s.cur.value))
    case DeferredUnlock =>
      Go(if s.pcs[i].unlocked then s else Unlocked(s, i), i, Finished)
  }

  function DoEnv(s: State, e: EnvStep): State
    requires WellFormed(s) && EnvEnabled(s, e)
  {
    match e
    case Recall(id) =>
      var q := s.objs[s.cur.value].queue;
      SetQueue(s, s.cur.value, Without(q, id)).(log := s.log.(recalled := s.log.recalled + Matching(q, id)))
    case Placeholder => Fresh(s, [], NoAgent)
    case AgentDies(o) => SetAgent(s, o, Dead)
    case Detach => s.(cur := None)
    case TakeAgent(o) => SetAgent(s, o, NoAgent)
    case Flush(o, report) =>
      if report then DropQueue(s, o)
      else SetQueue(s, o, []).(log := s.log.(discarded := s.log.discarded + s.objs[o].queue))
  }

  function Do(s: State, step: Step): State
    requires WellFormed(s) && Enabled(s, step)
  {
    match step
    case Handler(i, h) => DoHandler(s, i, h)
    case Worker(i, w) => DoWorker(s, i, w)
    case Env(e) => DoEnv(s, e)
  }

  /** Any number of messages arriving at an engine that holds nothing for the session key. */
  predicate Init(s: State) {
    && |s.ids| == |s.acquired| == |s.released| == |s.pcs|
    && (forall i :: 0 <= i < |s.pcs| ==> s.pcs[i] == Arriving && s.acquired[i] == s.released[i] == 0)
    && !s.busy
    && s.objs == [] && s.cur == None
    && s.log == Log([], [], [], [], [], [])
  }

  predicate SameShape(s: State, t: State) {
    |t.pcs| == |s.pcs| && t.ids == s.ids && t.limit == s.limit && |s.objs| <= |t.objs|
  }

  lemma HandlerWellFormed(s: State, i: nat, h: HandlerStep)
    requires WellFormed(s) && i < |s.pcs| && HandlerEnabled(s.pcs[i], h)
    ensures WellFormed(DoHandler(s, i, h)) && SameShape(s, DoHandler(s, i, h))
  {
  }

  lemma WorkerWellFormed(s: State, i: nat, w: WorkerStep)
    requires WellFormed(s) && i < |s.pcs| && WorkerEnabled(s, s.pcs[i], w)
    ensures WellFormed(DoWorker(s, i, w)) && SameShape(s, DoWorker(s, i, w))
  {
    if w.BeginTurn? {
      BeginWellFormed(s, i, w.how);
    }
  }

  lemma BeginWellFormed(s: State, i: nat, how: Begin)
    requires WellFormed(s) && i < |s.pcs| && WorkerEnabled(s, s.pcs[i], BeginTurn(how))
    ensures WellFormed(DoBegin(s, i, how)) && SameShape(s, DoBegin(s, i, how))
  {
  }

  lemma EnvWellFormed(s: State, e: EnvStep)
    requires WellFormed(s) && EnvEnabled(s, e)
    ensures WellFormed(DoEnv(s, e)) && SameShape(s, DoEnv(s, e))
  {
  }

  lemma DoWellFormed(s: State, step: Step)
    requires WellFormed(s) && Enabled(s, step)
    ensures WellFormed(Do(s, step)) && SameShape(s, Do(s, step))
  {
    match step
    case Handler(i, h) => HandlerWellFormed(s, i, h);
    case Worker(i, w) => WorkerWellFormed(s, i, w);
    case Env(e) => EnvWellFormed(s, e);
  }

  /** `t` is reached from `s` by the steps of `run`. */
  ghost predicate Reaches(s: State, run: seq<Step>, t: State)
    decreases |run|
  {
    if run == [] then s == t
    else WellFormed(s) && Enabled(s, run[0]) && Reaches(Do(s, run[0]), run[1..], t)
  }
}
