/** core/engine.go: splitMessage, which cuts an outgoing text into chunks a platform accepts. */
module SplitMessage {
  import opened SeqFacts

  /** The last newline among the first n runes, or -1. */
  function LastNewline(s: string, n: nat): (idx: int)
    requires n <= |s|
    ensures -1 <= idx < n
    ensures idx >= 0 ==> s[idx] == '\n'
    ensures forall i :: idx < i < n ==> s[i] != '\n'
  {
    if n == 0 then -1 else if s[n - 1] == '\n' then n - 1 else LastNewline(s, n - 1)
  }

  function Cut(s: string, max: nat): (end: nat)
    requires 0 < max <= |s|
  {
    var idx := LastNewline(s, max);
    if idx > 0 && idx >= max / 2 then idx + 1 else max
  }

  function Chunks(s: string, max: nat): (r: seq<string>)
    requires max > 0
  {
    if |s| <= max then [s] else [s[..Cut(s, max)]] + Chunks(s[Cut(s, max)..], max)
  }

  /** The loop of splitMessage. */
  method Split(text: string, max: nat) returns (chunks: seq<string>)
    requires max > 0
    ensures chunks == Chunks(text, max)
  {
    if |text| <= max {
      return [text];
    }
    var runes := text;
    chunks := [];
    while |runes| > 0
      invariant runes != [] ==> chunks + Chunks(runes, max) == Chunks(text, max)
      invariant runes == [] ==> chunks == Chunks(text, max)
      decreases |runes|
    {
      if |runes| <= max {
        chunks := chunks + [runes];
        break;
      }
      var end := max;
      var idx := LastNewline(runes, end);
      if idx > 0 {
        if idx >= end / 2 {
          end := idx + 1;
        }
      }
      ghost var rest := Chunks(runes[end..], max);
      assert chunks + ([runes[..end]] + rest) == (chunks + [runes[..end]]) + rest;
      chunks := chunks + [runes[..end]];
      runes := runes[end..];
    }
  }

  function Concat(parts: seq<string>): string {
    if parts == [] then [] else parts[0] + Concat(parts[1..])
  }

  /** Nothing is lost, repeated or reordered. */
  lemma {:induction false} ChunksConcatenate(s: string, max: nat)
    requires max > 0
    ensures Concat(Chunks(s, max)) == s
    decreases |s|
  {
    if |s| <= max {
      assert [s][1..] == [];
    } else {
      var end := Cut(s, max);
      ChunksConcatenate(s[end..], max);
      assert Chunks(s, max)[1..] == Chunks(s[end..], max);
    }
  }

  /** Every chunk fits, and every chunk but the last is more than half full. */
  lemma {:induction false} ChunkSizes(s: string, max: nat, i: nat)
    requires max > 0 && i < |Chunks(s, max)|
    ensures |Chunks(s, max)[i]| <= max
    ensures i < |Chunks(s, max)| - 1 ==> |Chunks(s, max)[i]| >= max / 2 + 1
    decreases |s|
  {
    if |s| > max && i > 0 {
      var end := Cut(s, max);
      ChunkSizes(s[end..], max, i - 1);
      assert Chunks(s, max)[i] == Chunks(s[end..], max)[i - 1];
    }
  }

  lemma OneMore(k: nat, h: nat)
    requires k > 0
    ensures k * h == (k - 1) * h + h
  {
  }

  /** So the number of chunks is bounded by the text's length. */
  lemma {:induction false} ChunkCount(s: string, max: nat)
    requires max > 0 && s != []
    ensures (|Chunks(s, max)| - 1) * (max / 2 + 1) < |s|
    decreases |s|
  {
    if |s| > max {
      var rest := s[Cut(s, max)..];
      ChunkCount(rest, max);
      OneMore(|Chunks(rest, max)|, max / 2 + 1);
    }
  }

  /** The window has a newline in its second half that is not its first rune. */
  ghost predicate LateNewline(window: string, max: nat) {
    exists j :: max / 2 <= j < |window| && 0 < j && window[j] == '\n'
  }

  /** A cut of length len of this window: right behind its last newline if that is late, else full. */
  ghost predicate GoodCut(window: string, max: nat, len: nat) {
    if LateNewline(window, max)
    then 0 < len <= |window| && window[len - 1] == '\n' && forall j :: len <= j < |window| ==> window[j] != '\n'
    else len == max
  }

  lemma FirstCut(s: string, max: nat)
    requires 0 < max <= |s|
    ensures GoodCut(s[..max], max, Cut(s, max))
  {
    var window, idx := s[..max], LastNewline(s, max);
    assert forall j :: 0 <= j < max ==> window[j] == s[j];
    if idx > 0 && idx >= max / 2 {
      assert window[idx] == '\n';
    }
  }

  /** A chunk of length len cut from position start of s. */
  ghost predicate CutAt(s: string, max: nat, start: nat, len: nat) {
    start + max <= |s| && GoodCut(s[start..start + max], max, len)
  }

  lemma ShiftCut(s: string, max: nat, end: nat, start: nat, shifted: nat, len: nat)
    requires end <= |s| && CutAt(s[end..], max, start, len) && shifted == end + start
    ensures CutAt(s, max, shifted, len)
  {
    assert s[end..|s|] == s[end..];
    SliceOfSlice(s, end, |s|, start, start + max);
  }

  /** How many runes stand in front of chunk i. */
  function StartOf(chunks: seq<string>, i: nat): nat {
    if i == 0 || chunks == [] then 0 else |chunks[0]| + StartOf(chunks[1..], i - 1)
  }

  lemma FirstChunk(s: string, max: nat)
    requires 0 < max < |s|
    ensures CutAt(s, max, 0, Cut(s, max))
  {
    FirstCut(s, max);
    assert s[0..0 + max] == s[..max];
  }

  lemma ChunkTail(s: string, max: nat)
    requires 0 < max < |s|
    ensures Chunks(s, max)[0] == s[..Cut(s, max)] && Chunks(s, max)[1..] == Chunks(s[Cut(s, max)..], max)
  {
  }

  /** A chunk that is followed by another one ends right behind the last newline of the window it was
      cut from, if that is in the window's second half; otherwise it fills the window. */
  lemma {:induction false} CutsAtLastNewline(s: string, max: nat, i: nat)
    requires max > 0 && i < |Chunks(s, max)| - 1
    ensures CutAt(s, max, StartOf(Chunks(s, max), i), |Chunks(s, max)[i]|)
    decreases |s|
  {
    var end := Cut(s, max);
    ChunkTail(s, max);
    if i == 0 {
      FirstChunk(s, max);
    } else {
      var rest := Chunks(s[end..], max);
      CutsAtLastNewline(s[end..], max, i - 1);
      ShiftCut(s, max, end, StartOf(rest, i - 1), StartOf(Chunks(s, max), i), |Chunks(s, max)[i]|);
    }
  }
}
