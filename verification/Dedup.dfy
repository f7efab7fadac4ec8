/** core/dedup.go: the message-id cache, checked against the full log of calls. */
module Dedup {
  /** One call: the message id and the (monotonic) clock reading, in nanoseconds. */
  datatype Call = Call(id: string, now: int)

  const DEDUP_TTL: int := 60_000_000_000

  /** The specification, over the full log and without any cache: call k repeats an id that an
      earlier call introduced (was not itself a duplicate) at most the TTL ago. */
  ghost predicate Duplicate(calls: seq<Call>, k: nat)
    requires k < |calls|
    decreases k
  {
    calls[k].id != ""
    && exists j :: 0 <= j < k && calls[j].id == calls[k].id && !Duplicate(calls, j)
                   && calls[k].now - calls[j].now <= DEDUP_TTL
  }

  /** Call j put its id on record. */
  ghost predicate Introduces(calls: seq<Call>, j: nat, id: string)
    requires j < |calls|
  {
    calls[j].id == id && id != "" && !Duplicate(calls, j)
  }

  lemma {:induction false} DuplicatePrefix(calls: seq<Call>, more: seq<Call>, k: nat)
    requires k < |calls|
    ensures Duplicate(calls + more, k) == Duplicate(calls, k)
    decreases k
  {
    var all := calls + more;
    forall j: nat | j < k
      ensures Duplicate(all, j) == Duplicate(calls, j)
    {
      DuplicatePrefix(calls, more, j);
    }
  }

  /** Two calls that are both let through for one id are more than the TTL apart, and between two
      calls that are at most the TTL apart at most one is let through. */
  lemma LetThroughFarApart(calls: seq<Call>, j: nat, k: nat)
    requires j < k < |calls| && calls[j].id == calls[k].id != ""
    requires !Duplicate(calls, j) && !Duplicate(calls, k)
    ensures calls[k].now - calls[j].now > DEDUP_TTL
  {
  }

  /** A duplicate does not extend the window: some call within the TTL before it was let through. */
  lemma DuplicateHasRecentOriginal(calls: seq<Call>, k: nat) returns (j: nat)
    requires k < |calls| && Duplicate(calls, k)
    ensures j < k && Introduces(calls, j, calls[k].id) && calls[k].now - calls[j].now <= DEDUP_TTL
  {
    j :| j < k && calls[j].id == calls[k].id && !Duplicate(calls, j) && calls[k].now - calls[j].now <= DEDUP_TTL;
  }

  /** An entry is the time of an introducing call. */
  ghost predicate EntriesOk(seen: map<string, int>, calls: seq<Call>) {
    forall id :: id in seen ==> exists j :: 0 <= j < |calls| && Introduces(calls, j, id) && calls[j].now == seen[id]
  }

  /** An introducing call has an entry at least as young, unless it had expired by the last call. */
  ghost predicate IntroducersOk(seen: map<string, int>, calls: seq<Call>) {
    forall j :: 0 <= j < |calls| && Introduces(calls, j, calls[j].id) ==>
      (calls[j].id in seen && seen[calls[j].id] >= calls[j].now)
      || calls[|calls| - 1].now - calls[j].now > DEDUP_TTL
  }

  /** The cache agrees with the log. */
  ghost predicate Agrees(seen: map<string, int>, calls: seq<Call>) {
    EntriesOk(seen, calls) && IntroducersOk(seen, calls)
  }

  /** What the sweep leaves. */
  ghost predicate Swept(before: map<string, int>, after: map<string, int>, now: int) {
    && (forall id :: id in after ==> id in before && after[id] == before[id] && now - after[id] <= DEDUP_TTL)
    && (forall id :: id in before && now - before[id] <= DEDUP_TTL ==> id in after)
  }

  lemma IntroducesPrefix(calls: seq<Call>, call: Call, j: nat, id: string)
    requires j < |calls|
    ensures Introduces(calls + [call], j, id) == Introduces(calls, j, id)
    ensures (calls + [call])[j] == calls[j]
  {
    DuplicatePrefix(calls, [call], j);
  }

  lemma SweptSound(seen: map<string, int>, calls: seq<Call>, swept: map<string, int>, call: Call)
    requires EntriesOk(seen, calls) && Swept(seen, swept, call.now) && call.id != "" && call.id in swept
    ensures Duplicate(calls + [call], |calls|)
  {
    var all, n := calls + [call], |calls|;
    var j :| 0 <= j < n && Introduces(calls, j, call.id) && calls[j].now == seen[call.id];
    IntroducesPrefix(calls, call, j, call.id);
    assert all[j].id == all[n].id && !Duplicate(all, j) && all[n].now - all[j].now <= DEDUP_TTL;
  }

  lemma SweptComplete(seen: map<string, int>, calls: seq<Call>, swept: map<string, int>, call: Call)
    requires IntroducersOk(seen, calls) && Swept(seen, swept, call.now) && call.id != ""
    requires calls != [] ==> calls[|calls| - 1].now <= call.now
    requires Duplicate(calls + [call], |calls|)
    ensures call.id in swept
  {
    var j := DuplicateHasRecentOriginal(calls + [call], |calls|);
    IntroducesPrefix(calls, call, j, call.id);
    assert Introduces(calls, j, calls[j].id);
  }

  lemma SweptFinds(seen: map<string, int>, calls: seq<Call>, swept: map<string, int>, call: Call)
    requires Agrees(seen, calls) && Swept(seen, swept, call.now) && call.id != ""
    requires calls != [] ==> calls[|calls| - 1].now <= call.now
    ensures call.id in swept <==> Duplicate(calls + [call], |calls|)
  {
    if call.id in swept {
      SweptSound(seen, calls, swept, call);
    } else if Duplicate(calls + [call], |calls|) {
      SweptComplete(seen, calls, swept, call);
    }
  }

  lemma EntriesAfter(seen: map<string, int>, calls: seq<Call>, swept: map<string, int>, call: Call, after: map<string, int>)
    requires EntriesOk(seen, calls)
    requires forall id :: id in swept ==> id in seen && swept[id] == seen[id]
    requires after == swept
          || (after == swept[call.id := call.now] && Introduces(calls + [call], |calls|, call.id))
    ensures EntriesOk(after, calls + [call])
  {
    var all, n := calls + [call], |calls|;
    forall id | id in after
      ensures exists j :: 0 <= j < |all| && Introduces(all, j, id) && all[j].now == after[id]
    {
      if id in swept && after[id] == swept[id] {
        var j :| 0 <= j < n && Introduces(calls, j, id) && calls[j].now == seen[id];
        IntroducesPrefix(calls, call, j, id);
        assert Introduces(all, j, id) && all[j].now == after[id];
      } else {
        assert Introduces(all, n, id) && all[n].now == after[id];
      }
    }
  }

  lemma IntroducersAfter(seen: map<string, int>, calls: seq<Call>, call: Call, after: map<string, int>)
    requires IntroducersOk(seen, calls)
    requires calls != [] ==> calls[|calls| - 1].now <= call.now
    requires forall id :: id in seen && call.now - seen[id] <= DEDUP_TTL ==> id in after && after[id] >= seen[id]
    requires Introduces(calls + [call], |calls|, call.id) ==> call.id in after && after[call.id] >= call.now
    ensures IntroducersOk(after, calls + [call])
  {
    var all, n := calls + [call], |calls|;
    forall j | 0 <= j < |all| && Introduces(all, j, all[j].id)
      ensures (all[j].id in after && after[all[j].id] >= all[j].now) || all[|all| - 1].now - all[j].now > DEDUP_TTL
    {
      if j < n {
        IntroducesPrefix(calls, call, j, calls[j].id);
        assert Introduces(calls, j, calls[j].id);
      }
    }
  }

  lemma AgreesAfter(seen: map<string, int>, calls: seq<Call>, swept: map<string, int>, call: Call, after: map<string, int>)
    requires Agrees(seen, calls) && Swept(seen, swept, call.now) && call.id != ""
    requires calls != [] ==> calls[|calls| - 1].now <= call.now
    requires after == if call.id in swept then swept else swept[call.id := call.now]
    ensures Agrees(after, calls + [call])
  {
    SweptFinds(seen, calls, swept, call);
    EntriesAfter(seen, calls, swept, call, after);
    IntroducersAfter(seen, calls, call, after);
  }

  lemma EmptyIdAgrees(seen: map<string, int>, calls: seq<Call>, call: Call)
    requires Agrees(seen, calls) && call.id == ""
    requires calls != [] ==> calls[|calls| - 1].now <= call.now
    ensures Agrees(seen, calls + [call]) && !Duplicate(calls + [call], |calls|)
  {
    EntriesAfter(seen, calls, seen, call, seen);
    IntroducersAfter(seen, calls, call, seen);
  }

  // --- Whole runs ---

  /** One call on a cache: what it answers and the cache it leaves. */
  ghost predicate Answers(seen: map<string, int>, call: Call, dup: bool, after: map<string, int>) {
    if call.id == "" then !dup && after == seen
    else
      exists swept :: Swept(seen, swept, call.now) && (dup <==> call.id in swept)
                      && after == if dup then swept else swept[call.id := call.now]
  }

  /** The caches of a run that starts empty, one before each call and one at the end. */
  ghost predicate RunOf(caches: seq<map<string, int>>, calls: seq<Call>, answers: seq<bool>) {
    && |caches| == |calls| + 1 && |answers| == |calls| && caches[0] == map[]
    && (forall i :: 0 < i < |calls| ==> calls[i - 1].now <= calls[i].now)
    && (forall i :: 0 <= i < |calls| ==> Answers(caches[i], calls[i], answers[i], caches[i + 1]))
  }

  lemma AnswerIsRight(seen: map<string, int>, calls: seq<Call>, call: Call, dup: bool, after: map<string, int>)
    requires Agrees(seen, calls) && (calls != [] ==> calls[|calls| - 1].now <= call.now)
    requires Answers(seen, call, dup, after)
    ensures Agrees(after, calls + [call]) && (dup <==> Duplicate(calls + [call], |calls|))
  {
    if call.id == "" {
      EmptyIdAgrees(seen, calls, call);
    } else {
      var swept :| Swept(seen, swept, call.now) && (dup <==> call.id in swept)
                   && after == if dup then swept else swept[call.id := call.now];
      SweptFinds(seen, calls, swept, call);
      AgreesAfter(seen, calls, swept, call, after);
    }
  }

  lemma {:induction false} RunAgrees(caches: seq<map<string, int>>, calls: seq<Call>, answers: seq<bool>, n: nat)
    requires RunOf(caches, calls, answers) && n <= |calls|
    ensures Agrees(caches[n], calls[..n])
    ensures n > 0 ==> (answers[n - 1] <==> Duplicate(calls[..n], n - 1))
  {
    if n > 0 {
      RunAgrees(caches, calls, answers, n - 1);
      assert calls[..n] == calls[..n - 1] + [calls[n - 1]];
      AnswerIsRight(caches[n - 1], calls[..n - 1], calls[n - 1], answers[n - 1], caches[n]);
    }
  }

  /** Every answer of every run is the one the full log gives. */
  lemma AnswersAreRight(caches: seq<map<string, int>>, calls: seq<Call>, answers: seq<bool>, k: nat)
    requires RunOf(caches, calls, answers) && k < |calls|
    ensures answers[k] <==> Duplicate(calls, k)
  {
    RunAgrees(caches, calls, answers, k + 1);
    assert calls == calls[..k + 1] + calls[k + 1..];
    DuplicatePrefix(calls[..k + 1], calls[k + 1..], k);
  }

  /** In every run of the cache, however much it has forgotten, two calls for one id that were both let
      through are more than the TTL apart. */
  lemma RunLetsThroughFarApart(caches: seq<map<string, int>>, calls: seq<Call>, answers: seq<bool>, j: nat, k: nat)
    requires RunOf(caches, calls, answers) && j < k < |calls|
    requires calls[j].id == calls[k].id != "" && !answers[j] && !answers[k]
    ensures calls[k].now - calls[j].now > DEDUP_TTL
  {
    AnswersAreRight(caches, calls, answers, j);
    AnswersAreRight(caches, calls, answers, k);
    LetThroughFarApart(calls, j, k);
  }

  /** In every run a repetition within a minute of a call that was let through is refused ... */
  lemma RepetitionRefused(caches: seq<map<string, int>>, calls: seq<Call>, answers: seq<bool>, j: nat, k: nat)
    requires RunOf(caches, calls, answers) && j < k < |calls|
    requires calls[j].id == calls[k].id != "" && !answers[j] && calls[k].now - calls[j].now <= 60_000_000_000
    ensures answers[k]
  {
    AnswersAreRight(caches, calls, answers, j);
    AnswersAreRight(caches, calls, answers, k);
  }

  /** ... and a call is let through if it has no id, or none with its id came in the minute before. */
  lemma FreshLetThrough(caches: seq<map<string, int>>, calls: seq<Call>, answers: seq<bool>, k: nat)
    requires RunOf(caches, calls, answers) && k < |calls|
    requires calls[k].id == ""
          || forall j :: 0 <= j < k && calls[j].id == calls[k].id ==> calls[k].now - calls[j].now > 60_000_000_000
    ensures !answers[k]
  {
    AnswersAreRight(caches, calls, answers, k);
  }

  class MessageDedup {
    var seen: map<string, int>
    ghost var calls: seq<Call>

    ghost predicate Valid()
      reads this
    {
      Agrees(seen, calls)
    }

    constructor ()
      ensures Valid() && calls == []
    {
      seen, calls := map[], [];
    }

    /** The sweep visits the entries in any order and deletes the expired ones. */
    method Sweep(now: int)
      modifies this`seen
      ensures Swept(old(seen), seen, now)
    {
      ghost var before := seen;
      var rest := seen.Keys;
      while rest != {}
        invariant forall id :: id in seen ==> id in before && seen[id] == before[id]
        invariant forall id :: id in seen && id !in rest ==> now - seen[id] <= DEDUP_TTL
        invariant forall id :: id in before && (id in rest || now - before[id] <= DEDUP_TTL) ==> id in seen
        invariant rest <= before.Keys
        decreases rest
      {
        var id :| id in rest;
        if now - seen[id] > DEDUP_TTL {
          seen := seen - {id};
        }
        rest := rest - {id};
      }
    }

    /** The answer is the one the full log gives, although the cache forgets. */
    method IsDuplicate(id: string, now: int) returns (dup: bool)
      requires Valid()
      requires calls != [] ==> calls[|calls| - 1].now <= now
      modifies this
      ensures Valid() && calls == old(calls) + [Call(id, now)]
      ensures dup <==> Duplicate(calls, |calls| - 1)
      ensures Answers(old(seen), Call(id, now), dup, seen)
      ensures id == "" ==> seen == old(seen)
      ensures id != "" ==> forall k :: k in seen ==> now - seen[k] <= DEDUP_TTL
    {
      ghost var call := Call(id, now);
      ghost var before, was := seen, calls;
      calls := calls + [call];
      if id == "" {
        EmptyIdAgrees(before, was, call);
        return false;
      }
      Sweep(now);
      SweptFinds(before, was, seen, call);
      ghost var swept := seen;
      dup := id in seen;
      if !dup {
        seen := seen[id := now];
      }
      AgreesAfter(before, was, swept, call, seen);
    }
  }
}
