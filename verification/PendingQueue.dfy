/** The queue of one interactive session (core/engine.go) and the session's busy flag (core/session.go). */
module PendingQueue {
  // In the shape the engine gives them: a Go slice over a shared backing array that is appended to,
  // re-sliced from the front and compacted in place.

  /** A queued message: the handler goroutine that accepted it and its platform message id. */
  datatype Msg = Msg(owner: nat, id: string)

  /** What is left of `q` once every message with this platform id is taken out. */
  function Without(q: seq<Msg>, id: string): (r: seq<Msg>) {
    if q == [] then []
    else
      var rest := Without(q[..|q| - 1], id);
      if q[|q| - 1].id == id then rest else rest + [q[|q| - 1]]
  }

  /** What a recall of `id` takes out of `q`. */
  function Matching(q: seq<Msg>, id: string): (r: seq<Msg>) {
    if q == [] then []
    else
      var rest := Matching(q[..|q| - 1], id);
      if q[|q| - 1].id == id then rest + [q[|q| - 1]] else rest
  }

  /** `a` can be read off `b` from left to right, skipping elements of `b`. */
  ghost predicate Subsequence<T(!new)>(a: seq<T>, b: seq<T>)
    decreases |b|
  {
    a == []
    || (b != [] && Subsequence(a, b[..|b| - 1]))
    || (b != [] && a[|a| - 1] == b[|b| - 1] && Subsequence(a[..|a| - 1], b[..|b| - 1]))
  }

  lemma {:induction false} SubsequenceRefl<T(!new)>(a: seq<T>)
    ensures Subsequence(a, a)
    decreases |a|
  {
    if a != [] {
      SubsequenceRefl(a[..|a| - 1]);
    }
  }

  lemma {:induction false} SubsequenceExtend<T(!new)>(a: seq<T>, b: seq<T>, x: T)
    requires Subsequence(a, b)
    ensures Subsequence(a, b + [x])
    ensures Subsequence(a + [x], b + [x])
  {
    assert (b + [x])[..|b|] == b;
    assert (a + [x])[..|a|] == a;
  }

  lemma {:induction false} SubsequenceDropLast<T(!new)>(a: seq<T>, b: seq<T>)
    requires a != [] && Subsequence(a, b)
    ensures Subsequence(a[..|a| - 1], b)
    decreases |b|
  {
    var c := b[..|b| - 1];
    if Subsequence(a, c) {
      SubsequenceDropLast(a, c);
    } else if a[..|a| - 1] != [] {
      assert Subsequence(a[..|a| - 1], c);
    }
  }

  lemma {:induction false} SubsequenceTrans<T(!new)>(a: seq<T>, b: seq<T>, c: seq<T>)
    requires Subsequence(a, b) && Subsequence(b, c)
    ensures Subsequence(a, c)
    decreases |b| + |c|
  {
    if a != [] {
      var c' := c[..|c| - 1];
      if Subsequence(b, c') {
        SubsequenceTrans(a, b, c');
      } else if Subsequence(a, b[..|b| - 1]) {
        SubsequenceTrans(a, b[..|b| - 1], c');
      } else {
        SubsequenceTrans(a[..|a| - 1], b[..|b| - 1], c');
      }
    }
  }

  lemma {:induction false} SubsequencePrefix<T(!new)>(p: seq<T>, a: seq<T>, b: seq<T>)
    requires Subsequence(a, b)
    ensures Subsequence(p + a, p + b)
    decreases |b|
  {
    if b == [] {
      assert p + a == p == p + b;
      SubsequenceRefl(p);
    } else {
      var b' := b[..|b| - 1];
      assert (p + b)[..|p + b| - 1] == p + b';
      if a == [] {
        SubsequencePrefix(p, a, b');
      } else if Subsequence(a, b') {
        SubsequencePrefix(p, a, b');
      } else {
        SubsequencePrefix(p, a[..|a| - 1], b');
        assert (p + a)[..|p + a| - 1] == p + a[..|a| - 1];
      }
    }
  }

  lemma {:induction false} WithoutIsSubsequence(q: seq<Msg>, id: string)
    ensures Subsequence(Without(q, id), q)
    ensures |Without(q, id)| <= |q|
  {
    if q != [] {
      var init := q[..|q| - 1];
      WithoutIsSubsequence(init, id);
      SubsequenceExtend(Without(init, id), init, q[|q| - 1]);
      assert q == init + [q[|q| - 1]];
    }
  }

  lemma {:induction false} SplitCount(q: seq<Msg>, id: string, m: Msg)
    ensures multiset(q)[m] == multiset(Without(q, id))[m] + multiset(Matching(q, id))[m]
  {
    if q != [] {
      var n := |q| - 1;
      SplitCount(q[..n], id, m);
      assert q == q[..n] + [q[n]];
    }
  }

  lemma WithoutAndMatchingSplit(q: seq<Msg>, id: string)
    ensures multiset(Without(q, id)) + multiset(Matching(q, id)) == multiset(q)
  {
    forall m
      ensures (multiset(Without(q, id)) + multiset(Matching(q, id)))[m] == multiset(q)[m]
    {
      SplitCount(q, id, m);
    }
  }

  lemma {:induction false} WithoutUnmatched(q: seq<Msg>, id: string)
    requires Matching(q, id) == []
    ensures Without(q, id) == q
  {
    if q != [] {
      WithoutUnmatched(q[..|q| - 1], id);
    }
  }

  lemma {:induction false} RecallSelectsById(q: seq<Msg>, id: string)
    ensures forall m <- Without(q, id) :: m.id != id
    ensures forall m <- Matching(q, id) :: m.id == id
  {
    if q != [] {
      RecallSelectsById(q[..|q| - 1], id);
    }
  }

  /** Recall keeps the other messages in order, removes every match and loses nothing. */
  lemma RecallSplitsQueue(q: seq<Msg>, id: string)
    ensures forall m <- Without(q, id) :: m.id != id
    ensures forall m <- Matching(q, id) :: m.id == id
    ensures Subsequence(Without(q, id), q)
    ensures multiset(Without(q, id)) + multiset(Matching(q, id)) == multiset(q)
    ensures Matching(q, id) == [] ==> Without(q, id) == q
    ensures |Without(q, id)| <= |q|
  {
    RecallSelectsById(q, id);
    WithoutIsSubsequence(q, id);
    WithoutAndMatchingSplit(q, id);
    if Matching(q, id) == [] {
      WithoutUnmatched(q, id);
    }
  }

  lemma WithoutSnoc(q: seq<Msg>, m: Msg, id: string)
    ensures Without(q + [m], id) == if m.id == id then Without(q, id) else Without(q, id) + [m]
  {
    assert (q + [m])[..|q|] == q;
  }

  lemma {:induction false} WithoutLength(q: seq<Msg>, id: string)
    ensures |Without(q, id)| + |Matching(q, id)| == |q|
  {
    if q != [] {
      WithoutLength(q[..|q| - 1], id);
    }
  }

  /** The loop over `filtered := pending[:0]`: writes the kept messages over the front of the
      slice they are read from. */
  method CompactInPlace(a: array<Msg>, lo: nat, hi: nat, id: string) returns (w: nat)
    requires lo <= hi <= a.Length
    modifies a
    ensures lo <= w <= hi
    ensures a[lo..w] == Without(old(a[lo..hi]), id)
  {
    ghost var q := a[lo..hi];
    ghost var seen: seq<Msg>, kept: seq<Msg> := [], [];
    w := lo;
    var k := lo;
    while k < hi
      invariant lo <= w <= k <= hi
      invariant |seen| == k - lo && lo + |kept| == w && kept == Without(seen, id)
      invariant forall i :: 0 <= i < |seen| ==> seen[i] == q[i]
      invariant forall i :: 0 <= i < |kept| ==> kept[i] == a[lo + i]
      invariant forall i :: k <= i < hi ==> a[i] == q[i - lo]
    {
      var queued := a[k];
      WithoutSnoc(seen, queued, id);
      seen := seen + [queued];
      k := k + 1;
      if queued.id != id {
        a[w] := queued;
        kept := kept + [queued];
        w := w + 1;
      }
    }
    assert seen == q;
    SliceIs(a, lo, w, kept);
  }

  lemma SliceIs(a: array<Msg>, lo: nat, hi: nat, s: seq<Msg>)
    requires lo <= hi <= a.Length && |s| == hi - lo
    requires forall i :: 0 <= i < |s| ==> s[i] == a[lo + i]
    ensures a[lo..hi] == s
  {
    forall i | 0 <= i < |s|
      ensures a[lo..hi][i] == s[i]
    {
      assert a[lo..hi][i] == a[lo + i];
    }
  }

  /** core/session.go: the busy flag, tested and set under the session's own mutex. */
  class Session {
    var busy: bool

    constructor ()
      ensures !busy
    {
      busy := false;
    }

    method TryLock() returns (ok: bool)
      modifies this
      ensures ok == !old(busy)
      ensures busy
    {
      if busy {
        return false;
      }
      busy := true;
      return true;
    }

    method Unlock()
      modifies this
      ensures !busy
    {
      busy := false;
    }
  }

  /** core/engine.go: the `pendingMessages` slice of an interactive state. Each method is one
      critical section under `state.mu`. */
  class InteractiveState {
    var buf: array<Msg>
    var lo: nat
    var hi: nat

    ghost predicate Valid()
      reads this
    {
      lo <= hi <= buf.Length
    }

    /** The messages the slice currently shows. */
    ghost function Queue(): (q: seq<Msg>)
      requires Valid()
      reads this, buf
    {
      buf[lo..hi]
    }

    constructor ()
      ensures Valid() && fresh(buf) && Queue() == []
    {
      buf, lo, hi := new Msg[0], 0, 0;
    }

    /** Go's append when the backing array is full: the slice moves to a larger one. */
    method Grow()
      requires Valid()
      modifies this
      ensures Valid() && fresh(buf) && hi < buf.Length
      ensures Queue() == old(Queue())
    {
      var src, start, n := buf, lo, hi - lo;
      ghost var q := Queue();
      var bigger := new Msg[2 * n + 1];
      var k := 0;
      while k < n
        invariant 0 <= k <= n
        invariant forall j :: 0 <= j < k ==> bigger[j] == q[j]
        modifies bigger
      {
        bigger[k] := src[start + k];
        k := k + 1;
      }
      buf, lo, hi := bigger, 0, n;
    }

    /** The append of queueMessageForBusySession: refused when the queue is full. */
    method TryAppend(m: Msg, limit: nat) returns (accepted: bool)
      requires Valid()
      modifies this, buf
      ensures Valid() && (buf == old(buf) || fresh(buf))
      ensures accepted == (|old(Queue())| < limit)
      ensures Queue() == if accepted then old(Queue()) + [m] else old(Queue())
    {
      if hi - lo >= limit {
        return false;
      }
      if hi == buf.Length {
        Grow();
      }
      buf[hi] := m;
      hi := hi + 1;
      return true;
    }

    /** The pop of the event loop and of the drain loop: re-slices from the front. */
    method PopFront() returns (m: Msg)
      requires Valid() && Queue() != []
      modifies this`lo
      ensures Valid()
      ensures [m] + Queue() == old(Queue())
    {
      m := buf[lo];
      lo := lo + 1;
    }

    /** One round of drainPendingMessages: the emptiness test and the unlock are one section. */
    method PopOrUnlock(session: Session) returns (unlocked: bool, m: Msg)
      requires Valid() && session.busy
      modifies this`lo, session
      ensures Valid()
      ensures unlocked == (old(Queue()) == [])
      ensures session.busy == !unlocked
      ensures if unlocked then Queue() == [] else [m] + Queue() == old(Queue())
    {
      m := Msg(0, "");
      if hi == lo {
        session.Unlock();
        return true, m;
      }
      m := PopFront();
      return false, m;
    }

    /** removeQueuedMessageByID: compacts the slice in place over its own backing array. */
    method RemoveById(id: string) returns (removed: bool)
      requires Valid()
      modifies this`hi, buf
      ensures Valid()
      ensures Queue() == Without(old(Queue()), id)
      ensures removed == (Matching(old(Queue()), id) != [])
    {
      var w := CompactInPlace(buf, lo, hi, id);
      WithoutLength(old(Queue()), id);
      removed := w != hi;
      if removed {
        hi := w;
      }
    }

    /** notifyDroppedQueuedMessages: takes the whole queue away and hands it to the reporter. */
    method DropAll() returns (remaining: seq<Msg>)
      requires Valid()
      modifies this
      ensures Valid() && fresh(buf) && Queue() == []
      ensures remaining == old(Queue())
    {
      remaining := buf[lo..hi];
      buf, lo, hi := new Msg[0], 0, 0;
    }

    /** adoptPendingFromPlaceholder: a non-empty queue moves over unchanged. */
    method AdoptFrom(existing: InteractiveState?)
      requires Valid() && (existing != null ==> existing.Valid())
      modifies this, existing
      ensures Valid() && (existing != null ==> existing.Valid())
      ensures existing != null && existing != this && |old(existing.Queue())| > 0 ==>
                Queue() == old(existing.Queue()) && existing.Queue() == []
      ensures existing == null || existing == this || |old(existing.Queue())| == 0 ==>
                Queue() == old(Queue()) && unchanged(this)
      ensures existing != null && (existing == this || |old(existing.Queue())| == 0) ==> unchanged(existing)
    {
      if existing == null || existing == this {
        return;
      }
      if existing.hi > existing.lo {
        buf, lo, hi := existing.buf, existing.lo, existing.hi;
        var none := new Msg[0];
        existing.buf, existing.lo, existing.hi := none, 0, 0;
      }
    }
  }
}
