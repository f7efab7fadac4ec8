/** Facts about slices and concatenations, for elements of any type. They are kept apart from the
    modules that use them because slices of concatenations are what the solver is slowest at: named
    here once, each is a single step there. */
module SeqFacts {
  lemma SliceSnoc<T>(s: seq<T>, a: nat, b: nat)
    requires a <= b < |s|
    ensures s[a..b] + [s[b]] == s[a..b + 1]
  {
  }

  lemma SliceOfSlice<T>(s: seq<T>, a: nat, b: nat, i: nat, j: nat)
    requires a <= b <= |s| && i <= j <= b - a
    ensures s[a..b][i..j] == s[a + i..a + j]
  {
    assert s[a..b][..j] == s[a..a + j];
  }

  lemma Assoc<T>(a: seq<T>, b: seq<T>, c: seq<T>)
    ensures a + b + c == a + (b + c)
  {
  }

  lemma AssocThree<T>(a: seq<T>, b: seq<T>, c: seq<T>, d: seq<T>)
    ensures a + (b + c + d) == a + b + c + d
  {
  }

  /** Replacing a middle part. */
  lemma Middle<T>(before: seq<T>, mid: seq<T>, mid': seq<T>, behind: seq<T>)
    ensures var s := before + (mid + behind);
            && |before| + |mid| <= |s|
            && s[|before|..|before| + |mid|] == mid
            && s[..|before|] + mid' + s[|before| + |mid|..] == before + (mid' + behind)
  {
  }

  lemma Update<T>(s: seq<T>, from: nat, until: nat, i: nat, x: T)
    requires from <= i < until <= |s|
    ensures s[..from] + s[from..until][i - from := x] + s[until..] == s[i := x]
  {
  }

  lemma UpdateFront<T>(front: seq<T>, behind: seq<T>, i: nat, x: T)
    requires i < |front|
    ensures (front + behind)[i := x] == front[i := x] + behind
  {
  }

  /** The elements from a up to b, one after the other: easier to step through than a slice. */
  function Span<T>(s: seq<T>, a: int, b: int): seq<T>
    decreases b - a
  {
    if 0 <= a < b <= |s| then [s[a]] + Span(s, a + 1, b) else []
  }

  lemma SpanNext<T>(s: seq<T>, a: int, b: int)
    requires 0 <= a < b <= |s|
    ensures Span(s, a, b) != [] && Span(s, a, b)[0] == s[a] && Span(s, a, b)[1..] == Span(s, a + 1, b)
  {
  }

  lemma {:induction false} SpanSplit<T>(s: seq<T>, a: int, m: int, b: int)
    requires 0 <= a <= m <= b <= |s|
    ensures Span(s, a, b) == Span(s, a, m) + Span(s, m, b) && |Span(s, a, m)| == m - a
    decreases m - a
  {
    if a < m {
      SpanSplit(s, a + 1, m, b);
      Assoc([s[a]], Span(s, a + 1, m), Span(s, m, b));
    }
  }

  lemma AppendParts<T>(a: seq<T>, b: seq<T>, c: seq<T>, d: seq<T>)
    requires a + b == c + d && |a| == |c|
    ensures a == c && b == d
  {
    assert a == (a + b)[..|a|] && c == (c + d)[..|c|];
    assert b == (a + b)[|a|..] && d == (c + d)[|c|..];
  }

  /** Cutting a span at a known place. */
  lemma SpanParts<T>(s: seq<T>, a: int, b: int, front: seq<T>, behind: seq<T>)
    requires 0 <= a <= b <= |s| && Span(s, a, b) == front + behind
    ensures a + |front| <= b
    ensures Span(s, a, a + |front|) == front && Span(s, a + |front|, b) == behind
  {
    SpanSplit(s, a, b, b);
    SpanSplit(s, a, a + |front|, b);
    AppendParts(Span(s, a, a + |front|), Span(s, a + |front|, b), front, behind);
  }

  lemma {:induction false} SpanIsSlice<T>(s: seq<T>, a: int, b: int)
    requires 0 <= a <= b <= |s|
    ensures Span(s, a, b) == s[a..b]
    decreases b - a
  {
    if a < b {
      SpanIsSlice(s, a + 1, b);
      assert s[a..b] == [s[a]] + s[a + 1..b];
    }
  }

  lemma SpanAll<T>(s: seq<T>)
    ensures Span(s, 0, |s|) == s
  {
    SpanIsSlice(s, 0, |s|);
    assert s[0..|s|] == s;
  }
}
