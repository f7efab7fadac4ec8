/** Concrete interleavings in which the busy-session protocol loses an accepted message. */
module BusyLosses {
  // Also the exact condition for the one loss that is not a stranding: the silent stop.

  import opened Wrappers
  import opened PendingQueue
  import opened BusyProtocol
  import opened BusySafety
  import opened BusyDelivery

  /** An engine about to receive these messages. */
  function Start0(ids: seq<string>, limit: nat): (s: State)
    ensures Init(s)
  {
    State(limit, ids, seq(|ids|, _ => Arriving), false, seq(|ids|, _ => 0), seq(|ids|, _ => 0), [], None,
          Log([], [], [], [], [], []))
  }

  lemma {:induction false} ReachesMore(s: State, run: seq<Step>, t: State, step: Step)
    requires Reaches(s, run, t) && WellFormed(t) && Enabled(t, step)
    ensures Reaches(s, run + [step], Do(t, step))
    decreases |run|
  {
    if run == [] {
      assert [step][1..] == [];
    } else {
      ReachesMore(Do(s, run[0]), run[1..], t, step);
      assert (run + [step])[1..] == run[1..] + [step];
    }
  }

  lemma Take(s: State, run: seq<Step>, t: State, step: Step) returns (run': seq<Step>, t': State)
    requires Reaches(s, run, t) && WellFormed(t) && Enabled(t, step)
    ensures t' == Do(t, step)
    ensures Reaches(s, run', t') && WellFormed(t')
    ensures HealthyRun(run) && Healthy(step) ==> HealthyRun(run')
  {
    run', t' := run + [step], Do(t, step);
    ReachesMore(s, run, t, step);
    DoWellFormed(t, step);
  }

  /** Goroutine i, in the middle of a turn, finishes it, finds the queue empty and returns. */
  lemma FinishTurn(s: State, run: seq<Step>, t: State, i: nat) returns (run': seq<Step>, t': State)
    requires Reaches(s, run, t) && WellFormed(t) && HealthyRun(run)
    requires i < |t.pcs| && t.pcs[i].Turn? && t.objs[t.pcs[i].obj].queue == []
    ensures Reaches(s, run', t') && WellFormed(t') && HealthyRun(run')
    ensures t' == t.(pcs := t.pcs[i := Finished], busy := false, released := t.released[i := t.released[i] + 1])
  {
    run', t' := Take(s, run, t, Worker(i, EndTurn));
    run', t' := Take(s, run', t', Worker(i, DrainRound));
    run', t' := Take(s, run', t', Worker(i, DeferredUnlock));
  }

  /** Message 0 got the lock, message 1 was refused it. */
  lemma BothArrived(ids: seq<string>, limit: nat) returns (run: seq<Step>, t: State)
    requires |ids| == 2
    ensures Reaches(Start0(ids, limit), run, t) && WellFormed(t) && HealthyRun(run)
    ensures t == State(limit, ids, [LockedNew, Refused], true, [1, 0], [0, 0], [], None, Log([], [], [], [], [], []))
  {
    var s := Start0(ids, limit);
    run, t := [], s;
    run, t := Take(s, run, t, Handler(0, FirstTryLock));
    run, t := Take(s, run, t, Handler(1, FirstTryLock));
  }

  /** Goroutine 0 holds the lock and has put a placeholder into the map; message 1 was refused the lock
      and has looked that placeholder up. */
  lemma LookedUpPlaceholder(ids: seq<string>, limit: nat) returns (run: seq<Step>, t: State)
    requires |ids| == 2
    ensures Reaches(Start0(ids, limit), run, t) && WellFormed(t) && HealthyRun(run)
    ensures t == State(limit, ids, [Spawned, LookedUp(0)], true, [1, 0], [0, 0], [Obj([], NoAgent)], Some(0),
                       Log([], [], [], [], [], []))
  {
    var s := Start0(ids, limit);
    run, t := BothArrived(ids, limit);
    run, t := Take(s, run, t, Handler(0, EnsureState));
    run, t := Take(s, run, t, Handler(1, Lookup));
  }

  /** Message 1 is appended to the placeholder after message 0's worker has replaced it, and is
      never looked at again although the agent is alive throughout. */
  lemma StaleAppendLosesMessage(a: string, b: string, limit: nat) returns (run: seq<Step>, t: State)
    requires limit > 0
    ensures Reaches(Start0([a, b], limit), run, t) && HealthyRun(run)
    ensures forall i :: 0 <= i < |t.pcs| ==> t.pcs[i].Finished?
    ensures !t.busy && t.log.accepted == [Msg(1, b)]
    ensures t.log.started == t.log.dropped == t.log.recalled == t.log.discarded == []
  {
    var s := Start0([a, b], limit);
    run, t := LookedUpPlaceholder([a, b], limit);
    run, t := Take(s, run, t, Worker(0, BeginTurn(Start(true))));
    run, t := Take(s, run, t, Handler(1, Append));
    run, t := Take(s, run, t, Handler(1, RetryTryLock));
    run, t := FinishTurn(s, run, t, 0);
  }

  /** Message 0 has been answered; its agent lives on in the map. */
  lemma FirstAnswered(ids: seq<string>, limit: nat) returns (run: seq<Step>, t: State)
    requires |ids| == 3
    ensures Reaches(Start0(ids, limit), run, t) && WellFormed(t) && HealthyRun(run)
    ensures t.ids == ids && t.limit == limit && t.pcs == [Finished, Arriving, Arriving] && !t.busy
    ensures t.objs == [Obj([], NoAgent), Obj([], Live)] && t.cur == Some(1)
    ensures t.log == Log([], [], [], [], [], [])
  {
    var s := Start0(ids, limit);
    run, t := [], s;
    run, t := Take(s, run, t, Handler(0, FirstTryLock));
    run, t := Take(s, run, t, Handler(0, EnsureState));
    run, t := Take(s, run, t, Worker(0, BeginTurn(Start(true))));
    run, t := FinishTurn(s, run, t, 0);
  }

  /** Goroutine i, refused the lock, queues its message on the object in the map and returns. */
  lemma QueueBehindWorker(s: State, run: seq<Step>, t: State, i: nat) returns (run': seq<Step>, t': State)
    requires Reaches(s, run, t) && WellFormed(t) && HealthyRun(run) && t.busy
    requires i < |t.pcs| && t.pcs[i].Refused? && t.cur.Some?
    requires !t.objs[t.cur.value].agent.Dead? && |t.objs[t.cur.value].queue| < t.limit
    ensures Reaches(s, run', t') && WellFormed(t') && HealthyRun(run')
    ensures var o, m := t.cur.value, Msg(i, t.ids[i]);
            t' == SetQueue(t, o, t.objs[o].queue + [m])
                  .(pcs := t.pcs[i := Finished], log := t.log.(accepted := t.log.accepted + [m]))
  {
    run', t' := Take(s, run, t, Handler(i, Lookup));
    run', t' := Take(s, run', t', Handler(i, Append));
    run', t' := Take(s, run', t', Handler(i, RetryTryLock));
  }

  /** Then goroutine 1 takes the lock, and goroutine 2 is refused it. */
  lemma SecondLocked(ids: seq<string>, limit: nat) returns (run: seq<Step>, t: State)
    requires |ids| == 3
    ensures Reaches(Start0(ids, limit), run, t) && WellFormed(t) && HealthyRun(run)
    ensures t.ids == ids && t.limit == limit && t.pcs == [Finished, LockedNew, Refused] && t.busy
    ensures t.objs == [Obj([], NoAgent), Obj([], Live)] && t.cur == Some(1)
    ensures t.log == Log([], [], [], [], [], [])
  {
    var s := Start0(ids, limit);
    run, t := FirstAnswered(ids, limit);
    run, t := Take(s, run, t, Handler(1, FirstTryLock));
    run, t := Take(s, run, t, Handler(2, FirstTryLock));
  }

  /** Message 2 is queued on the live state object that message 1's worker then recycles. */
  lemma RecycleLosesMessage(a: string, b: string, c: string, limit: nat) returns (run: seq<Step>, t: State)
    requires limit > 0
    ensures Reaches(Start0([a, b, c], limit), run, t) && HealthyRun(run)
    ensures forall i :: 0 <= i < |t.pcs| ==> t.pcs[i].Finished?
    ensures !t.busy && t.log.accepted == [Msg(2, c)]
    ensures t.log.started == t.log.dropped == t.log.recalled == t.log.discarded == []
  {
    var s := Start0([a, b, c], limit);
    run, t := SecondLocked([a, b, c], limit);
    run, t := QueueBehindWorker(s, run, t, 2);
    run, t := Take(s, run, t, Handler(1, EnsureState));
    run, t := Take(s, run, t, Worker(1, BeginTurn(Recycle(true))));
    run, t := FinishTurn(s, run, t, 1);
  }

  // --- The silent stop ---

  /** A stop without notification while messages are queued (a recall of the running message). */
  predicate Discards(s: State, step: Step)
    requires WellFormed(s) && Enabled(s, step)
  {
    step.Env? && step.e.Flush? && !step.e.report && s.objs[step.e.o].queue != []
  }

  ghost predicate EverDiscards(s: State, run: seq<Step>)
    decreases |run|
  {
    run != [] && WellFormed(s) && Enabled(s, run[0])
    && (Discards(s, run[0]) || EverDiscards(Do(s, run[0]), run[1..]))
  }

  lemma DiscardedGrows(s: State, step: Step)
    requires WellFormed(s) && Enabled(s, step)
    ensures |Do(s, step).log.discarded| >= |s.log.discarded|
    ensures Discards(s, step) <==> Do(s, step).log.discarded != s.log.discarded
  {
  }

  lemma {:induction false} DiscardedMeansStep(s: State, run: seq<Step>, t: State)
    requires WellFormed(s) && Reaches(s, run, t)
    ensures |t.log.discarded| >= |s.log.discarded|
    ensures s.log.discarded == [] ==> (t.log.discarded != [] <==> EverDiscards(s, run))
    decreases |run|
  {
    if run != [] {
      DoWellFormed(s, run[0]);
      DiscardedGrows(s, run[0]);
      DiscardedMeansStep(Do(s, run[0]), run[1..], t);
    }
  }

  /** Over all runs, failures included: every accepted message is queued, in hand, started, reported
      as dropped, or recalled, if and only if no silent stop hit a non-empty queue. */
  lemma FourWayPartitionIff(s: State, run: seq<Step>, t: State)
    requires Init(s) && Reaches(s, run, t)
    ensures (forall m :: m in t.log.accepted ==>
               QueuedCount(t.objs, m) + Count(InHand(t.pcs), m) + Count(t.log.started, m)
               + Count(t.log.dropped, m) + Count(t.log.recalled, m) == 1)
       <==> !EverDiscards(s, run)
  {
    InitSafe(s);
    DiscardedMeansStep(s, run, t);
    forall m | m in t.log.accepted
      ensures QueuedCount(t.objs, m) + Count(InHand(t.pcs), m) + Count(t.log.started, m) + Count(t.log.dropped, m)
              + Count(t.log.recalled, m) == 1 - Count(t.log.discarded, m)
    {
      ExactlyOnePlace(s, run, t, m);
    }
    if t.log.discarded != [] {
      var m := t.log.discarded[0];
      if m !in t.log.accepted {
        NothingInvented(s, run, t, m);
      }
      assert Count(t.log.discarded, m) > 0;
    }
  }

  /** Message 0's turn is running on a started agent, and message 1 has been refused the lock. */
  lemma RunningTurn(ids: seq<string>, limit: nat) returns (run: seq<Step>, t: State)
    requires |ids| == 2
    ensures Reaches(Start0(ids, limit), run, t) && WellFormed(t)
    ensures t == State(limit, ids, [Turn(1), Refused], true, [1, 0], [0, 0], [Obj([], NoAgent), Obj([], Live)], Some(1),
                       Log([], [], [], [], [], []))
  {
    var s := Start0(ids, limit);
    run, t := BothArrived(ids, limit);
    run, t := Take(s, run, t, Handler(0, EnsureState));
    run, t := Take(s, run, t, Worker(0, BeginTurn(Start(true))));
  }

  /** The recall of the running message 0 takes message 1 with it, unreported. */
  lemma SilentStopLosesMessage(a: string, b: string, limit: nat) returns (run: seq<Step>, t: State)
    requires limit > 0
    ensures Reaches(Start0([a, b], limit), run, t)
    ensures t.log.accepted == t.log.discarded == [Msg(1, b)]
    ensures t.log.started == t.log.dropped == t.log.recalled == []
  {
    var s := Start0([a, b], limit);
    run, t := RunningTurn([a, b], limit);
    run, t := Take(s, run, t, Handler(1, Lookup));
    run, t := Take(s, run, t, Handler(1, Append));
    run, t := Take(s, run, t, Env(Detach));
    run, t := Take(s, run, t, Env(Flush(1, false)));
  }
}
