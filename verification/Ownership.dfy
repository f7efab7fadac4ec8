/** Who is responsible for closing which agent process (core/engine.go). */
module Ownership {
  // The interactiveStates map, cleanupInteractiveState with and without an expected state, /stop,
  // recycling and engine shutdown, interleaved at their critical sections.

  import opened Wrappers

  type Key = string

  /** A goroutine between two critical sections. */
  datatype Proc =
    | CleanupClosing(key: Key, expected: Option<nat>, agent: Option<nat>)
    | CleanupDeleting(key: Key, expected: Option<nat>)
    | AsyncClosing(agent: Option<nat>)
    | EngineClosing(left: seq<nat>)
    | Done

  /** Where an interactiveState object can be reached from. History: no step looks at it. */
  datatype Spot = InMap(key: Key) | InSnapshot(proc: nat) | Off

  /** Where an agent is, over its whole life. History: no step looks at it. */
  datatype Place =
    | Held(obj: nat)      // field of an object in the map or in engine Stop's snapshot
    | Pending(proc: nat)  // captured by a goroutine that is about to close it
    | Closed
    | Abandoned           // its dead process was replaced without a Close
    | Leaked              // its object was deleted from the map while nobody was closing it

  datatype State = State(
    table: map<Key, nat>,           // interactiveStates: key to object
    agents: seq<Option<nat>>,       // per object: its agentSession field
    procs: seq<Proc>,
    closes: seq<nat>,               // the Close calls, in order
    spot: seq<Spot>,                // per object
    place: seq<Place>)              // per agent

  datatype Begin = Reuse | Recycle(ok: bool) | StartNew(ok: bool)

  datatype Step =
    | CleanupBegin(key: Key, expected: Option<nat>)
    | CleanupClose(p: nat)
    | CleanupDelete(p: nat)
    | Stop(key: Key)
    | AsyncClose(p: nat)
    | GetOrCreate(key: Key, how: Begin)
    | Placeholder(key: Key)
    | EngineStop(order: seq<nat>)
    | EngineCloseNext(p: nat)

  /** Nothing is left to do: also for an engine shutdown that has worked off its snapshot. */
  predicate Finished(p: Proc) {
    p == Done || p == EngineClosing([])
  }

  predicate AllFinished(s: State) {
    forall p :: 0 <= p < |s.procs| ==> Finished(s.procs[p])
  }

  predicate WellFormed(s: State) {
    |s.spot| == |s.agents| && forall k <- s.table :: s.table[k] < |s.agents|
  }

  function AgentAt(s: State, key: Key): Option<nat> {
    if key in s.table && s.table[key] < |s.agents| then s.agents[s.table[key]] else None
  }

  ghost predicate Enabled(s: State, step: Step) {
    match step
    case CleanupBegin(_, _) => true
    case CleanupClose(p) => p < |s.procs| && s.procs[p].CleanupClosing?
    case CleanupDelete(p) => p < |s.procs| && s.procs[p].CleanupDeleting?
    case Stop(key) => key in s.table
    case AsyncClose(p) => p < |s.procs| && s.procs[p].AsyncClosing?
    case GetOrCreate(key, how) => !how.StartNew? ==> AgentAt(s, key).Some?
    case Placeholder(key) => key !in s.table
    case EngineStop(order) =>
      // the snapshot of the map, in Go's iteration order
      && (forall i :: 0 <= i < |order| ==> order[i] in s.table.Values)
      && (forall k :: k in s.table ==> s.table[k] in order)
      && (forall i, j :: 0 <= i < j < |order| ==> order[i] != order[j])
    case EngineCloseNext(p) =>
      p < |s.procs| && s.procs[p].EngineClosing? && s.procs[p].left != [] && s.procs[p].left[0] < |s.agents|
  }

  function Move(s: State, a: Option<nat>, to: Place): State {
    if a.Some? && a.value < |s.place| then s.(place := s.place[a.value := to]) else s
  }

  function Close(s: State, a: Option<nat>): State {
    if a.Some? then Move(s, a, Closed).(closes := s.closes + [a.value]) else s
  }

  function Proceed(s: State, p: nat, next: Proc): State
    requires p < |s.procs|
  {
    s.(procs := s.procs[p := next])
  }

  /** delete(e.interactiveStates, key) */
  function Delete(s: State, key: Key): State
    requires WellFormed(s)
  {
    if key in s.table then s.(table := s.table - {key}, spot := s.spot[s.table[key] := Off]) else s
  }

  function Push(s: State, key: Key, ok: bool): State
    requires WellFormed(s)
  {
    var o, a := |s.agents|, |s.place|;
    s.(table := s.table[key := o],
       agents := s.agents + [if ok then Some(a) else None],
       spot := s.spot + [InMap(key)],
       place := if ok then s.place + [Held(o)] else s.place)
  }

  /** A new object in the map, with a new agent if the start succeeded. */
  function Install(s: State, key: Key, ok: bool): State
    requires WellFormed(s)
  {
    Push(Delete(s, key), key, ok)
  }

  function Do(s: State, step: Step): State
    requires WellFormed(s)
    requires step.CleanupClose? ==> step.p < |s.procs| && s.procs[step.p].CleanupClosing?
    requires step.CleanupDelete? ==> step.p < |s.procs| && s.procs[step.p].CleanupDeleting?
    requires step.AsyncClose? ==> step.p < |s.procs| && s.procs[step.p].AsyncClosing?
    requires step.EngineCloseNext? ==>
               step.p < |s.procs| && s.procs[step.p].EngineClosing? && s.procs[step.p].left != []
               && s.procs[step.p].left[0] < |s.agents|
  {
    match step
    case CleanupBegin(key, expected) =>
      if expected.Some? && (key !in s.table || s.table[key] != expected.value) then s
      else if key !in s.table then s.(procs := s.procs + [CleanupClosing(key, expected, None)])
      else
        Move(s, AgentAt(s, key), Pending(|s.procs|))
        .(agents := s.agents[s.table[key] := None],
          procs := s.procs + [CleanupClosing(key, expected, AgentAt(s, key))])
    case CleanupClose(p) =>
      Proceed(Close(s, s.procs[p].agent), p, CleanupDeleting(s.procs[p].key, s.procs[p].expected))
    case CleanupDelete(p) =>
      var c := s.procs[p];
      if c.key in s.table && c.expected.Some? && s.table[c.key] != c.expected.value then Proceed(s, p, Done)
      else Proceed(Delete(Move(s, AgentAt(s, c.key), Leaked), c.key), p, Done)
    case Stop(key) =>
      Delete(Move(s, AgentAt(s, key), Pending(|s.procs|)), key)
      .(procs := s.procs + [AsyncClosing(AgentAt(s, key))])
    case AsyncClose(p) => Proceed(Close(s, s.procs[p].agent), p, Done)
    case GetOrCreate(key, how) =>
      (match how
       case Reuse => s
       case Recycle(ok) => Install(Close(s, AgentAt(s, key)), key, ok)
       case StartNew(ok) => Install(Move(s, AgentAt(s, key), Abandoned), key, ok))
    case Placeholder(key) => Install(s, key, false)
    case EngineStop(order) =>
      s.(table := map[],
         procs := s.procs + [EngineClosing(order)],
         spot := seq(|s.spot|, o requires 0 <= o < |s.spot| => if s.spot[o].InMap? then InSnapshot(|s.procs|) else s.spot[o]))
    case EngineCloseNext(p) =>
      var o := s.procs[p].left[0];
      var t := Proceed(Close(s, s.agents[o]), p, EngineClosing(s.procs[p].left[1..]));
      if o < |s.spot| then t.(spot := s.spot[o := Off]) else t
  }

  ghost predicate Reaches(s: State, run: seq<Step>, t: State)
    decreases |run|
  {
    if run == [] then s == t
    else WellFormed(s) && Enabled(s, run[0]) && Reaches(Do(s, run[0]), run[1..], t)
  }

  predicate Init(s: State) {
    s == State(map[], [], [], [], [], [])
  }

  // --- The invariant ---

  /** The agent a goroutine has captured for closing. */
  function Captured(p: Proc): Option<nat> {
    match p
    case CleanupClosing(_, _, a) => a
    case AsyncClosing(a) => a
    case _ => None
  }

  /** The map and the snapshots hold exactly the objects whose spot says so. */
  ghost predicate SpotsOk(s: State) {
    && WellFormed(s)
    && (forall k :: k in s.table ==> s.spot[s.table[k]] == InMap(k))
    && (forall o :: 0 <= o < |s.spot| && s.spot[o].InMap? ==>
          s.spot[o].key in s.table && s.table[s.spot[o].key] == o)
    && (forall p, i :: 0 <= p < |s.procs| && s.procs[p].EngineClosing? && 0 <= i < |s.procs[p].left| ==>
          s.procs[p].left[i] < |s.spot| && s.spot[s.procs[p].left[i]] == InSnapshot(p))
    && (forall o :: 0 <= o < |s.spot| && s.spot[o].InSnapshot? ==>
          && s.spot[o].proc < |s.procs| && s.procs[s.spot[o].proc].EngineClosing?
          && o in s.procs[s.spot[o].proc].left)
    && (forall p :: 0 <= p < |s.procs| && s.procs[p].EngineClosing? ==>
          forall i, j :: 0 <= i < j < |s.procs[p].left| ==> s.procs[p].left[i] != s.procs[p].left[j])
  }

  /** An object that can be reached holds its agent, a goroutine holds the agent it captured, and
      an agent's place says where it is. */
  ghost predicate Owned(s: State) {
    && |s.spot| == |s.agents|
    && (forall o :: 0 <= o < |s.agents| && s.spot[o] != Off && s.agents[o].Some? ==>
          s.agents[o].value < |s.place| && s.place[s.agents[o].value] == Held(o))
    && (forall p :: 0 <= p < |s.procs| && Captured(s.procs[p]).Some? ==>
          Captured(s.procs[p]).value < |s.place| && s.place[Captured(s.procs[p]).value] == Pending(p))
    && (forall a :: 0 <= a < |s.place| && s.place[a].Held? ==>
          s.place[a].obj < |s.agents| && s.spot[s.place[a].obj] != Off && s.agents[s.place[a].obj] == Some(a))
    && (forall a :: 0 <= a < |s.place| && s.place[a].Pending? ==>
          s.place[a].proc < |s.procs| && Captured(s.procs[s.place[a].proc]) == Some(a))
  }

  ghost predicate ClosesOk(s: State) {
    forall a :: multiset(s.closes)[a] == if 0 <= a < |s.place| && s.place[a] == Closed then 1 else 0
  }

  /** A cleanup that expects an object has already taken that object's agent. */
  ghost predicate ExpectedEmpty(s: State) {
    forall p :: 0 <= p < |s.procs| && (s.procs[p].CleanupClosing? || s.procs[p].CleanupDeleting?)
                && s.procs[p].expected.Some? ==>
      s.procs[p].expected.value < |s.agents| && s.agents[s.procs[p].expected.value] == None
  }

  // --- Objects ---

  /** Only goroutines without a snapshot were added or moved on. */
  ghost predicate SameSnapshots(s: State, t: State) {
    && |s.procs| <= |t.procs|
    && (forall p :: 0 <= p < |s.procs| ==> t.procs[p].EngineClosing? == s.procs[p].EngineClosing?)
    && (forall p :: 0 <= p < |s.procs| && s.procs[p].EngineClosing? ==> t.procs[p] == s.procs[p])
    && (forall p :: |s.procs| <= p < |t.procs| ==> !t.procs[p].EngineClosing?)
  }

  lemma SameSpots(s: State, t: State)
    requires SpotsOk(s) && SameSnapshots(s, t)
    requires t.table == s.table && t.spot == s.spot && |t.agents| == |s.agents|
    ensures SpotsOk(t)
  {
  }

  lemma DeleteSpots(s: State, key: Key)
    requires SpotsOk(s)
    ensures SpotsOk(Delete(s, key))
  {
  }

  lemma InstallSpots(s: State, key: Key, ok: bool)
    requires SpotsOk(s)
    ensures SpotsOk(Install(s, key, ok))
  {
    DeleteSpots(s, key);
  }

  lemma EngineStopSpots(s: State, order: seq<nat>)
    requires SpotsOk(s) && Enabled(s, EngineStop(order))
    ensures SpotsOk(Do(s, EngineStop(order)))
  {
  }

  lemma EngineCloseNextSpots(s: State, p: nat)
    requires SpotsOk(s) && Enabled(s, EngineCloseNext(p))
    ensures SpotsOk(Do(s, EngineCloseNext(p)))
  {
    var o, left := s.procs[p].left[0], s.procs[p].left;
    assert s.spot[o] == InSnapshot(p);
    assert left == [o] + left[1..];
    NextSpots(s, p, Proceed(s, p, EngineClosing(left[1..])).(spot := s.spot[o := Off]));
    SameSpots(Proceed(s, p, EngineClosing(left[1..])).(spot := s.spot[o := Off]), Do(s, EngineCloseNext(p)));
  }

  lemma NextSpots(s: State, p: nat, t: State)
    requires SpotsOk(s) && p < |s.procs| && s.procs[p].EngineClosing? && s.procs[p].left != []
    requires s.procs[p].left[0] < |s.spot|
    requires t == s.(procs := s.procs[p := EngineClosing(s.procs[p].left[1..])], spot := s.spot[s.procs[p].left[0] := Off])
    requires s.procs[p].left == [s.procs[p].left[0]] + s.procs[p].left[1..]
    ensures SpotsOk(t)
  {
    assert forall q :: 0 <= q < |s.procs| && q != p ==> t.procs[q] == s.procs[q];
  }

  lemma CleanupDeleteSpots(s: State, p: nat)
    requires SpotsOk(s) && Enabled(s, CleanupDelete(p))
    ensures SpotsOk(Do(s, CleanupDelete(p)))
  {
    var t := Do(s, CleanupDelete(p));
    var c := s.procs[p];
    if c.key in s.table && c.expected.Some? && s.table[c.key] != c.expected.value {
      SameSpots(s, t);
    } else {
      var u := Move(s, AgentAt(s, c.key), Leaked);
      SameSpots(s, u);
      DeleteSpots(u, c.key);
      SameSpots(Delete(u, c.key), t);
    }
  }

  lemma StopSpots(s: State, key: Key)
    requires SpotsOk(s) && key in s.table
    ensures SpotsOk(Do(s, Stop(key)))
  {
    var u := Move(s, AgentAt(s, key), Pending(|s.procs|));
    DeleteSpots(u, key);
    SameSpots(Delete(u, key), Do(s, Stop(key)));
  }

  lemma CreateSpots(s: State, key: Key, how: Begin)
    requires SpotsOk(s)
    ensures SpotsOk(Do(s, GetOrCreate(key, how)))
  {
    if how.Recycle? {
      InstallSpots(Close(s, AgentAt(s, key)), key, how.ok);
    } else if how.StartNew? {
      InstallSpots(Move(s, AgentAt(s, key), Abandoned), key, how.ok);
    }
  }

  lemma StepSpots(s: State, step: Step)
    requires SpotsOk(s) && Enabled(s, step)
    ensures SpotsOk(Do(s, step))
  {
    if step.CleanupBegin? || step.CleanupClose? || step.AsyncClose? {
      SameSpots(s, Do(s, step));
    } else {
      match step
      case CleanupDelete(p) => CleanupDeleteSpots(s, p);
      case Stop(key) => StopSpots(s, key);
      case GetOrCreate(key, how) => CreateSpots(s, key, how);
      case Placeholder(key) => InstallSpots(s, key, false);
      case EngineStop(order) => EngineStopSpots(s, order);
      case EngineCloseNext(p) => EngineCloseNextSpots(s, p);
    }
  }

  // --- Agents ---

  lemma CaptureOwned(s: State, key: Key, c: Proc)
    requires SpotsOk(s) && Owned(s) && key in s.table && Captured(c) == AgentAt(s, key)
    ensures Owned(Move(s, AgentAt(s, key), Pending(|s.procs|))
                  .(agents := s.agents[s.table[key] := None], procs := s.procs + [c]))
  {
    assert s.spot[s.table[key]] == InMap(key);
  }

  lemma AddIdleOwned(s: State, c: Proc)
    requires Owned(s) && Captured(c) == None
    ensures Owned(s.(procs := s.procs + [c]))
  {
  }

  lemma CleanupBeginOwned(s: State, key: Key, expected: Option<nat>)
    requires SpotsOk(s) && Owned(s)
    ensures Owned(Do(s, CleanupBegin(key, expected)))
  {
    if key in s.table {
      CaptureOwned(s, key, CleanupClosing(key, expected, AgentAt(s, key)));
    } else {
      AddIdleOwned(s, CleanupClosing(key, expected, None));
    }
  }

  lemma CloseCapturedOwned(s: State, p: nat, next: Proc)
    requires SpotsOk(s) && Owned(s) && p < |s.procs| && Captured(next) == None
    ensures Owned(Proceed(Close(s, Captured(s.procs[p])), p, next))
  {
    var t := Proceed(Close(s, Captured(s.procs[p])), p, next);
    assert t.spot == s.spot && t.agents == s.agents && t.procs == s.procs[p := next];
  }

  /** An object that could be reached goes. Its agent, if any, goes to a place that is not held, and
      if it is pending there, the one goroutine that is new has captured it. */
  lemma OffOwned(s: State, t: State, o: nat, to: Place, started: seq<Proc>)
    requires Owned(s) && o < |s.agents| && s.spot[o] != Off && !to.Held?
    requires t.spot == s.spot[o := Off] && t.agents == s.agents && t.procs == s.procs + started
    requires s.agents[o].Some? ==> s.agents[o].value < |s.place| && t.place == s.place[s.agents[o].value := to]
    requires s.agents[o].None? ==> t.place == s.place
    requires if to.Pending?
             then to.proc == |s.procs| && |started| == 1 && Captured(started[0]) == s.agents[o]
             else started == []
    ensures Owned(t)
  {
  }

  /** The object at `key` goes; its agent goes to a place that is neither held nor captured. */
  lemma DeleteOwned(s: State, key: Key, to: Place)
    requires SpotsOk(s) && Owned(s) && !to.Held? && !to.Pending?
    ensures Owned(Delete(Move(s, AgentAt(s, key), to), key))
  {
    if key in s.table {
      assert s.spot[s.table[key]] == InMap(key);
      OffOwned(s, Delete(Move(s, AgentAt(s, key), to), key), s.table[key], to, []);
    }
  }

  lemma PushOwned(s: State, key: Key, ok: bool)
    requires SpotsOk(s) && Owned(s)
    ensures Owned(Push(s, key, ok))
  {
    var t := Push(s, key, ok);
    var o := |s.agents|;
    assert forall x :: 0 <= x < o ==> t.agents[x] == s.agents[x] && t.spot[x] == s.spot[x];
    assert forall a :: 0 <= a < |s.place| ==> t.place[a] == s.place[a];
    assert t.procs == s.procs;
  }

  lemma ReplaceOwned(s: State, key: Key, to: Place, ok: bool)
    requires SpotsOk(s) && Owned(s) && !to.Held? && !to.Pending?
    ensures Owned(Install(Move(s, AgentAt(s, key), to), key, ok))
  {
    var u := Move(s, AgentAt(s, key), to);
    SameSpots(s, u);
    DeleteSpots(u, key);
    DeleteOwned(s, key, to);
    PushOwned(Delete(u, key), key, ok);
  }

  lemma CreateOwned(s: State, key: Key, how: Begin)
    requires SpotsOk(s) && Owned(s) && Enabled(s, GetOrCreate(key, how))
    ensures Owned(Do(s, GetOrCreate(key, how)))
  {
    if how.Recycle? {
      ReplaceOwned(s, key, Closed, how.ok);
      var t := Install(Move(s, AgentAt(s, key), Closed), key, how.ok);
      assert Do(s, GetOrCreate(key, how)) == t.(closes := s.closes + [AgentAt(s, key).value]);
    } else if how.StartNew? {
      ReplaceOwned(s, key, Abandoned, how.ok);
    }
  }

  lemma StopOwned(s: State, key: Key)
    requires SpotsOk(s) && Owned(s) && key in s.table
    ensures Owned(Do(s, Stop(key)))
  {
    assert s.spot[s.table[key]] == InMap(key);
    OffOwned(s, Do(s, Stop(key)), s.table[key], Pending(|s.procs|), [AsyncClosing(AgentAt(s, key))]);
  }

  lemma EngineStopOwned(s: State, order: seq<nat>)
    requires SpotsOk(s) && Owned(s) && Enabled(s, EngineStop(order))
    ensures Owned(Do(s, EngineStop(order)))
  {
  }

  lemma EngineCloseNextOwned(s: State, p: nat)
    requires SpotsOk(s) && Owned(s) && Enabled(s, EngineCloseNext(p))
    ensures Owned(Do(s, EngineCloseNext(p)))
  {
    assert s.spot[s.procs[p].left[0]] == InSnapshot(p);
  }

  lemma ProceedOwned(s: State, p: nat, next: Proc)
    requires Owned(s) && p < |s.procs| && Captured(s.procs[p]) == Captured(next) == None
    ensures Owned(Proceed(s, p, next))
  {
  }

  lemma CleanupDeleteOwned(s: State, p: nat)
    requires SpotsOk(s) && Owned(s) && Enabled(s, CleanupDelete(p))
    ensures Owned(Do(s, CleanupDelete(p)))
  {
    var c := s.procs[p];
    if c.key in s.table && c.expected.Some? && s.table[c.key] != c.expected.value {
      ProceedOwned(s, p, Done);
    } else {
      DeleteOwned(s, c.key, Leaked);
      ProceedOwned(Delete(Move(s, AgentAt(s, c.key), Leaked), c.key), p, Done);
    }
  }

  lemma StepOwned(s: State, step: Step)
    requires SpotsOk(s) && Owned(s) && Enabled(s, step)
    ensures Owned(Do(s, step))
  {
    match step
    case CleanupBegin(key, expected) => CleanupBeginOwned(s, key, expected);
    case CleanupClose(p) => CloseCapturedOwned(s, p, CleanupDeleting(s.procs[p].key, s.procs[p].expected));
    case CleanupDelete(p) => CleanupDeleteOwned(s, p);
    case Stop(key) => StopOwned(s, key);
    case AsyncClose(p) => CloseCapturedOwned(s, p, Done);
    case GetOrCreate(key, how) => CreateOwned(s, key, how);
    case Placeholder(key) => PlaceholderOwned(s, key);
    case EngineStop(order) => EngineStopOwned(s, order);
    case EngineCloseNext(p) => EngineCloseNextOwned(s, p);
  }

  lemma PlaceholderOwned(s: State, key: Key)
    requires SpotsOk(s) && Owned(s) && key !in s.table
    ensures Owned(Install(s, key, false))
  {
    PushOwned(s, key, false);
  }

  // --- Close calls ---

  /** Either nothing was closed and no agent's place changed to or from Closed, or one agent that
      was held or captured was closed. */
  ghost predicate ClosedOneOrNone(s: State, t: State) {
    && |s.place| <= |t.place|
    && (forall a :: |s.place| <= a < |t.place| ==> t.place[a] != Closed)
    && (t.closes == s.closes ==> forall a :: 0 <= a < |s.place| ==> (t.place[a] == Closed <==> s.place[a] == Closed))
    && (t.closes != s.closes ==>
          exists c :: 0 <= c < |s.place| && t.closes == s.closes + [c] && s.place[c] != Closed && t.place[c] == Closed
            && forall a :: 0 <= a < |s.place| && a != c ==> (t.place[a] == Closed <==> s.place[a] == Closed))
  }

  lemma ClosesGrow(s: State, t: State)
    requires ClosesOk(s) && ClosedOneOrNone(s, t)
    ensures ClosesOk(t)
  {
    if t.closes != s.closes {
      var c :| 0 <= c < |s.place| && t.closes == s.closes + [c] && s.place[c] != Closed && t.place[c] == Closed
               && forall a :: 0 <= a < |s.place| && a != c ==> (t.place[a] == Closed <==> s.place[a] == Closed);
      forall a
        ensures multiset(t.closes)[a] == if 0 <= a < |t.place| && t.place[a] == Closed then 1 else 0
      {
        assert multiset(t.closes)[a] == multiset(s.closes)[a] + (if a == c then 1 else 0);
      }
    }
  }

  lemma CloseOne(s: State, a: nat, t: State)
    requires a < |s.place| <= |t.place| && s.place[a] != Closed && t.closes == s.closes + [a] && t.place[a] == Closed
    requires forall b :: 0 <= b < |s.place| && b != a ==> t.place[b] == s.place[b]
    requires forall b :: |s.place| <= b < |t.place| ==> t.place[b] != Closed
    ensures ClosedOneOrNone(s, t)
  {
    assert |t.closes| != |s.closes|;
  }

  lemma KeyHeld(s: State, key: Key)
    requires SpotsOk(s) && Owned(s) && AgentAt(s, key).Some?
    ensures AgentAt(s, key).value < |s.place| && s.place[AgentAt(s, key).value] == Held(s.table[key])
  {
    assert s.spot[s.table[key]] == InMap(key);
  }

  lemma KeyedCloses(s: State, step: Step, key: Key)
    requires SpotsOk(s) && Owned(s) && Enabled(s, step)
    requires match step
             case CleanupBegin(k, _) => k == key
             case CleanupDelete(p) => s.procs[p].key == key
             case Stop(k) => k == key
             case _ => false
    ensures ClosedOneOrNone(s, Do(s, step))
  {
    if AgentAt(s, key).Some? {
      KeyHeld(s, key);
    }
  }

  lemma CreateCloses(s: State, key: Key, how: Begin)
    requires SpotsOk(s) && Owned(s) && Enabled(s, GetOrCreate(key, how))
    ensures ClosedOneOrNone(s, Do(s, GetOrCreate(key, how)))
  {
    if how.Recycle? {
      RecycleCloses(s, key, how.ok);
    } else if AgentAt(s, key).Some? {
      KeyHeld(s, key);
    }
  }

  lemma RecycleCloses(s: State, key: Key, ok: bool)
    requires SpotsOk(s) && Owned(s) && Enabled(s, GetOrCreate(key, Recycle(ok)))
    ensures ClosedOneOrNone(s, Do(s, GetOrCreate(key, Recycle(ok))))
  {
    KeyHeld(s, key);
    CloseOne(s, AgentAt(s, key).value, Do(s, GetOrCreate(key, Recycle(ok))));
  }

  lemma EngineCloses(s: State, p: nat)
    requires SpotsOk(s) && Owned(s) && Enabled(s, EngineCloseNext(p))
    ensures ClosedOneOrNone(s, Do(s, EngineCloseNext(p)))
  {
    var o := s.procs[p].left[0];
    assert s.spot[o] == InSnapshot(p);
    if s.agents[o].Some? {
      CloseOne(s, s.agents[o].value, Do(s, EngineCloseNext(p)));
    }
  }

  lemma StepCloses(s: State, step: Step)
    requires SpotsOk(s) && Owned(s) && Enabled(s, step)
    ensures ClosedOneOrNone(s, Do(s, step))
  {
    match step
    case CleanupBegin(key, _) => KeyedCloses(s, step, key);
    case CleanupClose(p) =>
      if s.procs[p].agent.Some? { CloseOne(s, s.procs[p].agent.value, Do(s, step)); }
    case CleanupDelete(p) => KeyedCloses(s, step, s.procs[p].key);
    case Stop(key) => KeyedCloses(s, step, key);
    case AsyncClose(p) =>
      if s.procs[p].agent.Some? { CloseOne(s, s.procs[p].agent.value, Do(s, step)); }
    case GetOrCreate(key, how) => CreateCloses(s, key, how);
    case Placeholder(_) =>
    case EngineStop(_) =>
    case EngineCloseNext(p) => EngineCloses(s, p);
  }

  // --- Cleanup with an expected state ---

  lemma AgentsOnlyCleared(s: State, step: Step)
    requires WellFormed(s) && Enabled(s, step)
    ensures |Do(s, step).agents| >= |s.agents|
    ensures forall o :: 0 <= o < |s.agents| && s.agents[o] == None ==> Do(s, step).agents[o] == None
  {
  }

  lemma CleanupBeginExpected(s: State, key: Key, expected: Option<nat>)
    requires WellFormed(s) && ExpectedEmpty(s)
    ensures ExpectedEmpty(Do(s, CleanupBegin(key, expected)))
  {
  }

  lemma ExpectedKept(s: State, step: Step)
    requires WellFormed(s) && Enabled(s, step) && !step.CleanupBegin?
    ensures |Do(s, step).procs| >= |s.procs|
    ensures forall p :: 0 <= p < |Do(s, step).procs| ==>
              var c := Do(s, step).procs[p];
              c.CleanupClosing? || c.CleanupDeleting? ==>
                p < |s.procs| && (s.procs[p].CleanupClosing? || s.procs[p].CleanupDeleting?)
                && s.procs[p].expected == c.expected
  {
  }

  lemma StepExpected(s: State, step: Step)
    requires WellFormed(s) && ExpectedEmpty(s) && Enabled(s, step)
    ensures ExpectedEmpty(Do(s, step))
  {
    if step.CleanupBegin? {
      CleanupBeginExpected(s, step.key, step.expected);
    } else {
      AgentsOnlyCleared(s, step);
      ExpectedKept(s, step);
    }
  }

  // --- Whole runs ---

  ghost predicate Inv(s: State) {
    SpotsOk(s) && Owned(s) && ClosesOk(s) && ExpectedEmpty(s)
  }

  lemma StepInv(s: State, step: Step)
    requires Inv(s) && Enabled(s, step)
    ensures Inv(Do(s, step))
  {
    StepSpots(s, step);
    StepOwned(s, step);
    StepCloses(s, step);
    ClosesGrow(s, Do(s, step));
    StepExpected(s, step);
  }

  lemma {:induction false} RunInv(s: State, run: seq<Step>, t: State)
    requires Inv(s) && Reaches(s, run, t)
    ensures Inv(t)
    decreases |run|
  {
    if run != [] {
      StepInv(s, run[0]);
      RunInv(Do(s, run[0]), run[1..], t);
    }
  }

  lemma InitInv(s: State)
    requires Init(s)
    ensures Inv(s)
  {
  }

  lemma TwiceCounts(closes: seq<nat>, i: nat, j: nat)
    requires i < j < |closes|
    ensures closes[i] == closes[j] ==> multiset(closes)[closes[j]] >= 2
  {
    assert closes == closes[..j] + [closes[j]] + closes[j + 1..];
    assert closes[i] in closes[..j];
  }

  /** Over any interleaving of cleanup, stop, recycling and shutdown, no agent session is handed to
      Close twice. */
  lemma ClosedAtMostOnce(s: State, run: seq<Step>, t: State, i: nat, j: nat)
    requires Init(s) && Reaches(s, run, t) && i < j < |t.closes|
    ensures t.closes[i] != t.closes[j]
  {
    InitInv(s);
    RunInv(s, run, t);
    TwiceCounts(t.closes, i, j);
  }

  /** The stages of the goroutine that a cleanup, with an expected object or without, has started. */
  ghost predicate CleansUp(t: State, p: nat, key: Key, e: Option<nat>, agent: Option<nat>) {
    p < |t.procs|
    && match t.procs[p]
       case CleanupClosing(k, x, a) => k == key && x == e && a == agent
       case CleanupDeleting(k, x) => k == key && x == e && (agent.Some? ==> agent.value in t.closes)
       case Done => agent.Some? ==> agent.value in t.closes
       case _ => false
  }

  lemma ClosesOnlyGrow(s: State, step: Step)
    requires WellFormed(s) && Enabled(s, step)
    ensures s.closes <= Do(s, step).closes
  {
  }

  lemma CleansUpClose(s: State, p: nat, key: Key, e: Option<nat>, agent: Option<nat>)
    requires WellFormed(s) && Enabled(s, CleanupClose(p)) && CleansUp(s, p, key, e, agent)
    ensures CleansUp(Do(s, CleanupClose(p)), p, key, e, agent)
  {
    assert agent.Some? ==> Do(s, CleanupClose(p)).closes == s.closes + [agent.value];
  }

  /** A goroutine stays where it is while others take their steps. */
  lemma OtherStepKeeps(s: State, step: Step, p: nat)
    requires WellFormed(s) && Enabled(s, step) && p < |s.procs|
    requires step != CleanupClose(p) && step != CleanupDelete(p) && step != AsyncClose(p) && step != EngineCloseNext(p)
    ensures p < |Do(s, step).procs| && Do(s, step).procs[p] == s.procs[p]
  {
  }

  lemma CleansUpStep(s: State, step: Step, p: nat, key: Key, e: Option<nat>, agent: Option<nat>)
    requires WellFormed(s) && Enabled(s, step) && CleansUp(s, p, key, e, agent)
    ensures CleansUp(Do(s, step), p, key, e, agent)
  {
    ClosesOnlyGrow(s, step);
    if step == CleanupClose(p) {
      CleansUpClose(s, p, key, e, agent);
    } else {
      if step != CleanupDelete(p) {
        OtherStepKeeps(s, step, p);
      }
      assert agent.Some? && agent.value in s.closes ==> agent.value in Do(s, step).closes;
    }
  }

  lemma {:induction false} CleansUpRun(s: State, run: seq<Step>, t: State, p: nat, key: Key, e: Option<nat>, agent: Option<nat>)
    requires Inv(s) && Reaches(s, run, t) && CleansUp(s, p, key, e, agent)
    ensures Inv(t) && CleansUp(t, p, key, e, agent)
    decreases |run|
  {
    if run != [] {
      StepInv(s, run[0]);
      CleansUpStep(s, run[0], p, key, e, agent);
      CleansUpRun(Do(s, run[0]), run[1..], t, p, key, e, agent);
    }
  }

  lemma ExpectedDelete(t: State, p: nat, key: Key, e: nat)
    requires Inv(t) && p < |t.procs| && t.procs[p] == CleanupDeleting(key, Some(e))
    ensures Do(t, CleanupDelete(p))
         == t.(table := if key in t.table && t.table[key] == e then t.table - {key} else t.table,
               spot := if key in t.table && t.table[key] == e then t.spot[e := Off] else t.spot,
               procs := t.procs[p := Done])
  {
  }

  /** A cleanup with an expected state, from its first section to its delete, interleaved with
      anything: it starts working only if the map holds that state; the agent it found is closed
      before it deletes; and the delete removes the entry if it still holds that state, and changes
      no other entry, no agent and no agent's place. */
  lemma ExpectedCleanupInAnyRun(s0: State, before: seq<Step>, s: State, key: Key, e: nat, run: seq<Step>, t: State)
    requires Init(s0) && Reaches(s0, before, s)
    requires WellFormed(s) && Reaches(Do(s, CleanupBegin(key, Some(e))), run, t)
    ensures !(key in s.table && s.table[key] == e) ==> Do(s, CleanupBegin(key, Some(e))) == s
    ensures key in s.table && s.table[key] == e ==>
              var p := |s.procs|;
              && CleansUp(t, p, key, Some(e), AgentAt(s, key))
              && (t.procs[p].CleanupDeleting? ==>
                   Enabled(t, CleanupDelete(p)) && WellFormed(t)
                   && var u := Do(t, CleanupDelete(p));
                      && u.table == (if key in t.table && t.table[key] == e then t.table - {key} else t.table)
                      && u.agents == t.agents && u.place == t.place && u.closes == t.closes)
  {
    InitInv(s0);
    RunInv(s0, before, s);
    if key in s.table && s.table[key] == e {
      var p := |s.procs|;
      StepInv(s, CleanupBegin(key, Some(e)));
      CleansUpRun(Do(s, CleanupBegin(key, Some(e))), run, t, p, key, Some(e), AgentAt(s, key));
      if t.procs[p].CleanupDeleting? {
        ExpectedDelete(t, p, key, e);
      }
    }
  }

  lemma CleanupTakes(s: State, key: Key)
    requires Inv(s)
    ensures CleansUp(Do(s, CleanupBegin(key, None)), |s.procs|, key, None, AgentAt(s, key))
  {
  }

  lemma CleanupDeletes(t: State, p: nat, key: Key)
    requires Inv(t) && p < |t.procs| && t.procs[p] == CleanupDeleting(key, None)
    ensures Enabled(t, CleanupDelete(p)) && Do(t, CleanupDelete(p)).table == t.table - {key}
  {
    if key !in t.table {
      assert t.table - {key} == t.table;
    }
  }

  /** A cleanup without an expected state, interleaved with anything: the agent it found is closed before
      it deletes, and the delete removes the entry, whatever it holds by then, and no other. */
  lemma CleanupInAnyRun(s0: State, before: seq<Step>, s: State, key: Key, run: seq<Step>, t: State)
    requires Init(s0) && Reaches(s0, before, s)
    requires WellFormed(s) && Reaches(Do(s, CleanupBegin(key, None)), run, t)
    ensures var p := |s.procs|;
            && CleansUp(t, p, key, None, AgentAt(s, key))
            && (t.procs[p].CleanupDeleting? ==>
                 Enabled(t, CleanupDelete(p)) && WellFormed(t) && Do(t, CleanupDelete(p)).table == t.table - {key})
  {
    InitInv(s0);
    RunInv(s0, before, s);
    StepInv(s, CleanupBegin(key, None));
    CleanupTakes(s, key);
    CleansUpRun(Do(s, CleanupBegin(key, None)), run, t, |s.procs|, key, None, AgentAt(s, key));
    if t.procs[|s.procs|].CleanupDeleting? {
      CleanupDeletes(t, |s.procs|, key);
    }
  }

  // --- Stop ---

  /** The agent has been closed, or the goroutine that a stop has started is about to close it. */
  ghost predicate ClosedOrAsync(t: State, p: nat, a: nat) {
    a in t.closes || (p < |t.procs| && t.procs[p] == AsyncClosing(Some(a)))
  }

  lemma AsyncStays(s: State, step: Step, p: nat, a: nat)
    requires WellFormed(s) && Enabled(s, step) && ClosedOrAsync(s, p, a)
    ensures ClosedOrAsync(Do(s, step), p, a)
  {
    ClosesOnlyGrow(s, step);
    if a in s.closes {
      assert a in Do(s, step).closes;
    } else if step == AsyncClose(p) {
      assert Do(s, step).closes == s.closes + [a];
    }
  }

  lemma {:induction false} AsyncRun(s: State, run: seq<Step>, t: State, p: nat, a: nat)
    requires Reaches(s, run, t) && ClosedOrAsync(s, p, a)
    ensures ClosedOrAsync(t, p, a)
    decreases |run|
  {
    if run != [] {
      AsyncStays(s, run[0], p, a);
      AsyncRun(Do(s, run[0]), run[1..], t, p, a);
    }
  }

  /** A stop, interleaved with anything: the entry is out of the map at once, every other entry stays, and
      once its closer has finished the agent is closed. */
  lemma StopEndsSession(s0: State, before: seq<Step>, s: State, key: Key, run: seq<Step>, t: State)
    requires Init(s0) && Reaches(s0, before, s) && WellFormed(s) && key in s.table
    requires Reaches(Do(s, Stop(key)), run, t)
    ensures Do(s, Stop(key)).table == s.table - {key}
    ensures AgentAt(s, key).Some? && |s.procs| < |t.procs| && Finished(t.procs[|s.procs|]) ==>
              AgentAt(s, key).value in t.closes
  {
    if AgentAt(s, key).Some? {
      AsyncRun(Do(s, Stop(key)), run, t, |s.procs|, AgentAt(s, key).value);
    }
  }

  // --- Starting ---

  /** Every entry but this one stays, with its agent. */
  ghost predicate OthersStay(s: State, t: State, key: Key) {
    forall k :: k != key ==> (k in t.table <==> k in s.table) && AgentAt(t, k) == AgentAt(s, k)
  }

  lemma InstallGives(s: State, key: Key, ok: bool)
    requires WellFormed(s)
    ensures var t := Install(s, key, ok);
            && WellFormed(t) && key in t.table && AgentAt(t, key) == (if ok then Some(|s.place|) else None)
            && OthersStay(s, t, key) && t.closes == s.closes
  {
  }

  /** What a message finds after getOrCreate: an entry for its key; with a started agent that never
      existed before if the start succeeded; the same one on reuse; on a recycle the old agent is closed.
      No other entry and no other entry's agent changes. */
  lemma CreateGivesAgent(s: State, key: Key, how: Begin)
    requires Inv(s) && Enabled(s, GetOrCreate(key, how))
    ensures var t := Do(s, GetOrCreate(key, how));
            && WellFormed(t) && key in t.table && OthersStay(s, t, key)
            && match how
               case Reuse => t == s
               case Recycle(ok) => AgentAt(t, key) == (if ok then Some(|s.place|) else None)
                                   && t.closes == s.closes + [AgentAt(s, key).value]
               case StartNew(ok) => AgentAt(t, key) == (if ok then Some(|s.place|) else None) && t.closes == s.closes
  {
    match how
    case Reuse =>
    case Recycle(ok) => InstallGives(Close(s, AgentAt(s, key)), key, ok);
    case StartNew(ok) => InstallGives(Move(s, AgentAt(s, key), Abandoned), key, ok);
  }

  lemma PlaceholderGivesEntry(s: State, key: Key)
    requires Inv(s) && Enabled(s, Placeholder(key))
    ensures var t := Do(s, Placeholder(key));
            WellFormed(t) && key in t.table && AgentAt(t, key) == None && OthersStay(s, t, key)
  {
    InstallGives(s, key, false);
  }

  // --- Engine shutdown ---

  /** The agent has been closed, or its object still waits in the shutdown's snapshot. */
  ghost predicate ClosedOrWaiting(t: State, p: nat, o: nat, a: nat) {
    a in t.closes
    || (p < |t.procs| && t.procs[p].EngineClosing? && o in t.procs[p].left && o < |t.agents| && t.agents[o] == Some(a))
  }

  lemma SnapshotAgentKept(s: State, step: Step, o: nat)
    requires WellFormed(s) && SpotsOk(s) && Enabled(s, step) && o < |s.agents| && s.spot[o].InSnapshot?
    ensures o < |Do(s, step).agents| && Do(s, step).agents[o] == s.agents[o]
  {
  }

  lemma WaitingStays(s: State, step: Step, p: nat, o: nat, a: nat)
    requires Inv(s) && Enabled(s, step) && ClosedOrWaiting(s, p, o, a)
    ensures ClosedOrWaiting(Do(s, step), p, o, a)
  {
    ClosesOnlyGrow(s, step);
    if a !in s.closes {
      var i :| 0 <= i < |s.procs[p].left| && s.procs[p].left[i] == o;
      assert s.spot[o] == InSnapshot(p);
      if step == EngineCloseNext(p) {
        EngineCloseNextKeeps(s, p, o, a);
      } else {
        SnapshotAgentKept(s, step, o);
        OtherStepKeeps(s, step, p);
      }
    }
  }

  lemma EngineCloseNextKeeps(s: State, p: nat, o: nat, a: nat)
    requires Enabled(s, EngineCloseNext(p)) && WellFormed(s)
    requires o in s.procs[p].left && o < |s.agents| && s.agents[o] == Some(a)
    ensures ClosedOrWaiting(Do(s, EngineCloseNext(p)), p, o, a)
  {
    var left := s.procs[p].left;
    assert left == [left[0]] + left[1..];
  }

  lemma {:induction false} WaitingRun(s: State, run: seq<Step>, t: State, p: nat, o: nat, a: nat)
    requires Inv(s) && Reaches(s, run, t) && ClosedOrWaiting(s, p, o, a)
    ensures ClosedOrWaiting(t, p, o, a)
    decreases |run|
  {
    if run != [] {
      StepInv(s, run[0]);
      WaitingStays(s, run[0], p, o, a);
      WaitingRun(Do(s, run[0]), run[1..], t, p, o, a);
    }
  }

  lemma SnapshotTaken(s: State, order: seq<nat>, key: Key)
    requires Inv(s) && Enabled(s, EngineStop(order)) && AgentAt(s, key).Some?
    ensures ClosedOrWaiting(Do(s, EngineStop(order)), |s.procs|, s.table[key], AgentAt(s, key).value)
  {
  }

  /** Engine shutdown interleaved with anything: once its loop is through, every agent that was in the
      map when it took its snapshot has been closed. */
  lemma ShutdownClosesAll(s0: State, before: seq<Step>, s: State, order: seq<nat>, run: seq<Step>, t: State, key: Key)
    requires Init(s0) && Reaches(s0, before, s)
    requires WellFormed(s) && Enabled(s, EngineStop(order)) && Reaches(Do(s, EngineStop(order)), run, t)
    requires AgentAt(s, key).Some?
    ensures Do(s, EngineStop(order)).table == map[]
    ensures |s.procs| < |t.procs| && Finished(t.procs[|s.procs|]) ==> AgentAt(s, key).value in t.closes
  {
    InitInv(s0);
    RunInv(s0, before, s);
    StepInv(s, EngineStop(order));
    SnapshotTaken(s, order, key);
    WaitingRun(Do(s, EngineStop(order)), run, t, |s.procs|, s.table[key], AgentAt(s, key).value);
  }

  /** How many steps the goroutines have left. */
  function StepsLeft(p: Proc): nat {
    match p
    case CleanupClosing(_, _, _) => 2
    case CleanupDeleting(_, _) => 1
    case AsyncClosing(_) => 1
    case EngineClosing(left) => |left|
    case Done => 0
  }

  function TotalLeft(procs: seq<Proc>): nat {
    if procs == [] then 0 else TotalLeft(procs[..|procs| - 1]) + StepsLeft(procs[|procs| - 1])
  }

  lemma {:induction false} TotalLeftUpdate(procs: seq<Proc>, p: nat, next: Proc)
    requires p < |procs|
    ensures TotalLeft(procs[p := next]) == TotalLeft(procs) - StepsLeft(procs[p]) + StepsLeft(next)
  {
    var n := |procs| - 1;
    if p < n {
      TotalLeftUpdate(procs[..n], p, next);
      assert procs[p := next][..n] == procs[..n][p := next];
    } else {
      assert procs[p := next][..n] == procs[..n];
    }
  }

  predicate OwnStep(step: Step) {
    step.CleanupClose? || step.CleanupDelete? || step.AsyncClose? || step.EngineCloseNext?
  }

  function NextStep(c: Proc, p: nat): Step {
    match c
    case CleanupClosing(_, _, _) => CleanupClose(p)
    case CleanupDeleting(_, _) => CleanupDelete(p)
    case AsyncClosing(_) => AsyncClose(p)
    case _ => EngineCloseNext(p)
  }

  function NextStage(c: Proc): Proc {
    match c
    case CleanupClosing(key, expected, _) => CleanupDeleting(key, expected)
    case EngineClosing(left) => if left == [] then Done else EngineClosing(left[1..])
    case _ => Done
  }

  /** An unfinished goroutine can always take its next step. */
  lemma GoroutineMoves(s: State, p: nat)
    requires SpotsOk(s) && p < |s.procs| && !Finished(s.procs[p])
    ensures Enabled(s, NextStep(s.procs[p], p)) && OwnStep(NextStep(s.procs[p], p))
    ensures Do(s, NextStep(s.procs[p], p)).procs == s.procs[p := NextStage(s.procs[p])]
  {
    if s.procs[p].EngineClosing? {
      assert s.spot[s.procs[p].left[0]] == InSnapshot(p);
    }
  }

  lemma SomeoneMoves(s: State) returns (step: Step)
    requires Inv(s) && !AllFinished(s)
    ensures WellFormed(s) && Enabled(s, step) && OwnStep(step)
    ensures Inv(Do(s, step)) && TotalLeft(Do(s, step).procs) < TotalLeft(s.procs)
  {
    var p :| 0 <= p < |s.procs| && !Finished(s.procs[p]);
    step := NextStep(s.procs[p], p);
    GoroutineMoves(s, p);
    TotalLeftUpdate(s.procs, p, NextStage(s.procs[p]));
    StepInv(s, step);
  }

  lemma ReachesCons(s: State, step: Step, rest: seq<Step>, t: State)
    requires WellFormed(s) && Enabled(s, step) && Reaches(Do(s, step), rest, t)
    ensures Reaches(s, [step] + rest, t)
  {
    assert ([step] + rest)[1..] == rest;
  }

  /** From any state the goroutines alone, shutdowns included, can run to their end. */
  lemma {:induction false} EveryoneCanFinish(s: State) returns (run: seq<Step>, t: State)
    requires Inv(s)
    ensures Reaches(s, run, t) && AllFinished(t)
    ensures forall k :: 0 <= k < |run| ==> OwnStep(run[k])
    decreases TotalLeft(s.procs)
  {
    if AllFinished(s) {
      return [], s;
    }
    var step := SomeoneMoves(s);
    var rest: seq<Step>;
    rest, t := EveryoneCanFinish(Do(s, step));
    run := [step] + rest;
    ReachesCons(s, step, rest, t);
  }

  /** A cleanup's final delete leaks an agent: exactly when no state was expected and the entry now
      holds an object that owns an agent, that is, one created while the old agent was closing. */
  predicate LeaksOnDelete(s: State, step: Step) {
    step.CleanupDelete? && step.p < |s.procs| && s.procs[step.p].CleanupDeleting?
    && s.procs[step.p].expected.None? && AgentAt(s, s.procs[step.p].key).Some?
  }

  ghost function LeakedSet(s: State): set<nat> {
    set a | 0 <= a < |s.place| && s.place[a] == Leaked
  }

  lemma LeaksExactlyThen(s: State, step: Step)
    requires Inv(s) && Enabled(s, step)
    ensures LeaksOnDelete(s, step) <==> LeakedSet(Do(s, step)) != LeakedSet(s)
    ensures LeakedSet(s) <= LeakedSet(Do(s, step))
  {
    var t := Do(s, step);
    PlacesAfter(s, step);
    if LeaksOnDelete(s, step) {
      var a := AgentAt(s, s.procs[step.p].key).value;
      KeyHeld(s, s.procs[step.p].key);
      assert a in LeakedSet(t) && a !in LeakedSet(s);
    } else {
      assert forall a :: a in LeakedSet(t) ==> a in LeakedSet(s);
    }
  }

  /** Places only change for agents that were held or captured, and to Leaked only in that case. */
  ghost predicate PlacesMoved(s: State, t: State, leak: bool) {
    && |s.place| <= |t.place|
    && (forall a :: 0 <= a < |s.place| && t.place[a] != s.place[a] ==> s.place[a].Held? || s.place[a].Pending?)
    && (!leak ==> forall a :: 0 <= a < |t.place| && t.place[a] == Leaked ==> a < |s.place| && s.place[a] == Leaked)
  }

  lemma PlacesAfterKeyed(s: State, step: Step, key: Key)
    requires Inv(s) && Enabled(s, step)
    requires step == Stop(key) || (step.CleanupBegin? && step.key == key)
    ensures PlacesMoved(s, Do(s, step), false)
  {
    if AgentAt(s, key).Some? {
      KeyHeld(s, key);
    }
  }

  lemma PlacesAfterRecycle(s: State, key: Key, ok: bool)
    requires Inv(s) && Enabled(s, GetOrCreate(key, Recycle(ok)))
    ensures PlacesMoved(s, Do(s, GetOrCreate(key, Recycle(ok))), false)
  {
    if AgentAt(s, key).Some? {
      KeyHeld(s, key);
    }
  }

  lemma PlacesAfterStart(s: State, key: Key, ok: bool)
    requires Inv(s) && Enabled(s, GetOrCreate(key, StartNew(ok)))
    ensures PlacesMoved(s, Do(s, GetOrCreate(key, StartNew(ok))), false)
  {
    if AgentAt(s, key).Some? {
      KeyHeld(s, key);
    }
  }

  lemma PlacesAfterCreate(s: State, key: Key, how: Begin)
    requires Inv(s) && Enabled(s, GetOrCreate(key, how))
    ensures PlacesMoved(s, Do(s, GetOrCreate(key, how)), false)
  {
    match how
    case Reuse =>
    case Recycle(ok) => PlacesAfterRecycle(s, key, ok);
    case StartNew(ok) => PlacesAfterStart(s, key, ok);
  }

  lemma PlacesAfterDelete(s: State, p: nat)
    requires Inv(s) && Enabled(s, CleanupDelete(p))
    ensures PlacesMoved(s, Do(s, CleanupDelete(p)), LeaksOnDelete(s, CleanupDelete(p)))
  {
    if AgentAt(s, s.procs[p].key).Some? {
      KeyHeld(s, s.procs[p].key);
    }
  }

  lemma PlacesAfterCaptured(s: State, step: Step)
    requires Inv(s) && Enabled(s, step) && (step.CleanupClose? || step.AsyncClose?)
    ensures PlacesMoved(s, Do(s, step), false)
  {
  }

  lemma PlacesAfterSnapshot(s: State, p: nat)
    requires Inv(s) && Enabled(s, EngineCloseNext(p))
    ensures PlacesMoved(s, Do(s, EngineCloseNext(p)), false)
  {
    assert s.spot[s.procs[p].left[0]] == InSnapshot(p);
  }

  lemma PlacesAfter(s: State, step: Step)
    requires Inv(s) && Enabled(s, step)
    ensures PlacesMoved(s, Do(s, step), LeaksOnDelete(s, step))
  {
    match step
    case CleanupBegin(key, _) => PlacesAfterKeyed(s, step, key);
    case CleanupClose(_) => PlacesAfterCaptured(s, step);
    case CleanupDelete(p) => PlacesAfterDelete(s, p);
    case Stop(key) => PlacesAfterKeyed(s, step, key);
    case AsyncClose(_) => PlacesAfterCaptured(s, step);
    case GetOrCreate(key, how) => PlacesAfterCreate(s, key, how);
    case Placeholder(_) =>
    case EngineStop(_) =>
    case EngineCloseNext(p) => PlacesAfterSnapshot(s, p);
  }

  ghost predicate EverLeaks(s: State, run: seq<Step>)
    decreases |run|
  {
    run != [] && WellFormed(s) && Enabled(s, run[0])
    && (LeaksOnDelete(s, run[0]) || EverLeaks(Do(s, run[0]), run[1..]))
  }

  lemma {:induction false} LeakedMeansStep(s: State, run: seq<Step>, t: State)
    requires Inv(s) && Reaches(s, run, t)
    ensures LeakedSet(s) <= LeakedSet(t)
    ensures LeakedSet(s) == {} ==> (LeakedSet(t) != {} <==> EverLeaks(s, run))
    decreases |run|
  {
    if run != [] {
      var u := Do(s, run[0]);
      StepInv(s, run[0]);
      LeaksExactlyThen(s, run[0]);
      LeakedMeansStep(u, run[1..], t);
    }
  }

  /** Once every goroutine is finished, engine shutdowns included, each agent ever started is in the map, was closed (once), or
      died and was replaced; and that holds of every agent if and only if no unconditional cleanup
      deleted a state that had replaced the one it cleaned up. */
  lemma EveryAgentAccountedIff(s: State, run: seq<Step>, t: State)
    requires Init(s) && Reaches(s, run, t)
    requires AllFinished(t)
    ensures WellFormed(t)
    ensures (forall a :: 0 <= a < |t.place| ==> Accounted(t, a)) <==> !EverLeaks(s, run)
  {
    InitInv(s);
    RunInv(s, run, t);
    LeakedMeansStep(s, run, t);
    forall a | 0 <= a < |t.place|
      ensures t.place[a] != Leaked <==> Accounted(t, a)
    {
      AccountedUnlessLeaked(t, a);
    }
    assert LeakedSet(t) == {} <==> forall a :: 0 <= a < |t.place| ==> t.place[a] != Leaked by {
      assert forall a :: 0 <= a < |t.place| && t.place[a] == Leaked ==> a in LeakedSet(t);
    }
  }

  /** The agent is in the map, was closed, or died and was replaced. */
  ghost predicate Accounted(t: State, a: nat)
    requires WellFormed(t) && a < |t.place|
  {
    (exists k :: k in t.table && AgentAt(t, k) == Some(a)) || a in t.closes || t.place[a] == Abandoned
  }

  lemma AccountedUnlessLeaked(t: State, a: nat)
    requires Inv(t) && a < |t.place| && AllFinished(t)
    ensures t.place[a] != Leaked <==> Accounted(t, a)
  {
    if t.place[a].Held? {
      var o := t.place[a].obj;
      assert t.spot[o].InMap?;
      assert AgentAt(t, t.spot[o].key) == Some(a);
    } else if t.place[a] == Closed {
      assert multiset(t.closes)[a] == 1;
    } else if t.place[a] == Leaked {
      assert multiset(t.closes)[a] == 0;
      forall k | k in t.table
        ensures AgentAt(t, k) != Some(a)
      {
        assert t.spot[t.table[k]] == InMap(k);
      }
    }
  }

  lemma {:induction false} ReachesMore(s: State, run: seq<Step>, t: State, step: Step)
    requires Reaches(s, run, t) && WellFormed(t) && Enabled(t, step)
    ensures Reaches(s, run + [step], Do(t, step))
    decreases |run|
  {
    if run == [] {
      assert [step][1..] == [];
    } else {
      ReachesMore(Do(s, run[0]), run[1..], t, step);
      assert (run + [step])[1..] == run[1..] + [step];
    }
  }

  /** An agent has been started, and an unconditional cleanup has taken it for closing. */
  lemma CleanupUnderWay(key: Key) returns (run: seq<Step>, t: State)
    ensures Reaches(State(map[], [], [], [], [], []), run, t)
    ensures t == State(map[key := 0], [None], [CleanupClosing(key, None, Some(0))], [], [InMap(key)], [Pending(0)])
  {
    var s := State(map[], [], [], [], [], []);
    var begin := GetOrCreate(key, StartNew(true));
    var s1 := Do(s, begin);
    ReachesMore(s, [], s, begin);
    t := Do(s1, CleanupBegin(key, None));
    ReachesMore(s, [] + [begin], s1, CleanupBegin(key, None));
    run := [] + [begin] + [CleanupBegin(key, None)];
  }

  /** A message arrives while an unconditional cleanup is closing the old agent: the agent started
      for it ends up in no map and is never closed. */
  lemma UnconditionalCleanupLeaksReplacement(key: Key) returns (s: State, run: seq<Step>, t: State)
    ensures Init(s) && Reaches(s, run, t)
    ensures t.table == map[] && t.closes == [0] && |t.place| == 2 && t.place[1] == Leaked
    ensures forall p :: 0 <= p < |t.procs| ==> t.procs[p] == Done
  {
    s := State(map[], [], [], [], [], []);
    var s2: State;
    run, s2 := CleanupUnderWay(key);
    var s3 := Do(s2, GetOrCreate(key, StartNew(true)));
    ReachesMore(s, run, s2, GetOrCreate(key, StartNew(true)));
    run := run + [GetOrCreate(key, StartNew(true))];
    assert s3.table == map[key := 1] && s3.agents == [None, Some(1)];
    var s4 := Do(s3, CleanupClose(0));
    ReachesMore(s, run, s3, CleanupClose(0));
    run := run + [CleanupClose(0)];
    t := Do(s4, CleanupDelete(0));
    ReachesMore(s, run, s4, CleanupDelete(0));
    run := run + [CleanupDelete(0)];
  }
}
