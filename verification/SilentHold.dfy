/** core/engine.go: holding back streamed text while it may still turn out to be the bare NO_REPLY marker. */
module SilentHold {
  // The preview is available throughout and no tool, thinking or permission event falls into the segment.

  import opened SeqFacts
  import opened Text

  const MARKER: string := "NO_REPLY"

  /** strings.ToUpper, as far as it can produce the letters of the marker. */
  function UpperRune(c: char): char {
    if 'a' <= c <= 'z' then (c as int - 32) as char else c
  }

  function Upper(s: string): (u: string)
    ensures |u| == |s|
    ensures forall i :: 0 <= i < |s| ==> u[i] == UpperRune(s[i])
  {
    seq(|s|, i requires 0 <= i < |s| => UpperRune(s[i]))
  }

  /** couldBeSilentPrefix */
  predicate CouldBeSilent(text: string) {
    var t := TrimSpace(text);
    t == "" || Upper(t) <= MARKER
  }

  /** The regular expression's \s: a subset of what TrimSpace removes. */
  predicate RegexSpace(c: char) {
    c == '\t' || c == '\n' || c as int == 12 || c == '\r' || c == ' '
  }

  /** isSilentReply: white space, the marker in any case, white space. */
  ghost predicate SilentReply(text: string) {
    exists i, j :: 0 <= i <= j <= |text|
      && (forall k :: 0 <= k < i ==> RegexSpace(text[k]))
      && Upper(text[i..j]) == MARKER
      && (forall k :: j <= k < |text| ==> RegexSpace(text[k]))
  }

  lemma {:induction false} TrimRightKeeps(t: string, w: string)
    requires t != [] && !IsSpace(t[|t| - 1])
    ensures t <= TrimRight(t + w)
  {
    if w != [] && IsSpace(w[|w| - 1]) {
      assert (t + w)[..|t + w| - 1] == t + w[..|w| - 1];
      TrimRightKeeps(t, w[..|w| - 1]);
    } else if w == [] {
      assert t + w == t;
    }
  }

  /** Text added behind never changes what TrimSpace already found in front. */
  lemma TrimGrows(a: string, b: string)
    requires TrimSpace(a) != []
    ensures TrimSpace(a) <= TrimSpace(a + b)
  {
    var t := TrimSpace(a);
    var x, y := TrimSplits(a);
    assert a + b == x + (t + (y + b));
    TrimLeftOver(x, t + (y + b));
    TrimRightKeeps(t, y + b);
  }

  /** Once a text is no longer a possible prefix of the marker it never becomes one again. */
  lemma RuledOutForGood(a: string, b: string)
    requires CouldBeSilent(a + b)
    ensures CouldBeSilent(a)
  {
    if TrimSpace(a) != [] {
      TrimGrows(a, b);
      assert Upper(TrimSpace(a)) <= Upper(TrimSpace(a + b));
    }
  }

  lemma MarkerTrimmed(t: string)
    requires Upper(t) == MARKER
    ensures t != "" && Trimmed(t)
  {
    assert |MARKER| == 8 && MARKER[0] == 'N' && MARKER[7] == 'Y';
    assert UpperRune(t[0]) == 'N' && UpperRune(t[7]) == 'Y';
  }

  lemma ReplyTrims(text: string, i: nat, j: nat)
    requires i <= j <= |text| && Trimmed(text[i..j])
    requires forall k :: 0 <= k < i ==> RegexSpace(text[k])
    requires forall k :: j <= k < |text| ==> RegexSpace(text[k])
    ensures TrimSpace(text) == text[i..j]
  {
    assert text == text[..i] + text[i..j] + text[j..];
    TrimOver(text[..i], text[i..j], text[j..]);
  }

  /** A bare marker is a possible prefix of itself, whatever white space surrounds it. */
  lemma SilentReplyCouldBe(text: string)
    requires SilentReply(text)
    ensures CouldBeSilent(text) && Upper(TrimSpace(text)) == MARKER
  {
    var i, j :| 0 <= i <= j <= |text|
      && (forall k :: 0 <= k < i ==> RegexSpace(text[k]))
      && Upper(text[i..j]) == MARKER
      && (forall k :: j <= k < |text| ==> RegexSpace(text[k]));
    MarkerTrimmed(text[i..j]);
    ReplyTrims(text, i, j);
  }

  lemma MarkerContinues(t: string)
    requires Upper(t) <= MARKER
    ensures SilentReply(t + MARKER[|t|..])
  {
    var whole := t + MARKER[|t|..];
    assert forall k :: 0 <= k < |MARKER| ==> UpperRune(MARKER[k]) == MARKER[k];
    assert Upper(whole) == MARKER;
    assert whole[0..|whole|] == whole;
  }

  /** Nothing but tabs, line feeds, form feeds, carriage returns and blanks. */
  predicate WhiteSpace(s: string) {
    forall k :: 0 <= k < |s| ==> s[k] in "\t\n\U{000C}\r "
  }

  /** The eight letters, each as a capital or not. */
  predicate IsMarker(w: string) {
    |w| == 8 && forall k :: 0 <= k < 8 ==> w[k] == "NO_REPLY"[k] || w[k] == "no_reply"[k]
  }

  lemma MarkerLetters(w: string)
    ensures Upper(w) == MARKER <==> IsMarker(w)
  {
    if |w| == 8 {
      forall k | 0 <= k < 8
        ensures UpperRune(w[k]) == MARKER[k] <==> w[k] == "NO_REPLY"[k] || w[k] == "no_reply"[k]
      {
        LetterCase(w[k], "NO_REPLY"[k], "no_reply"[k]);
      }
    }
  }

  lemma LetterCase(c: char, upper: char, lower: char)
    requires !('a' <= upper <= 'z')
    requires lower == (if 'A' <= upper <= 'Z' then (upper as int + 32) as char else upper)
    ensures UpperRune(c) == upper <==> c == upper || c == lower
  {
  }

  lemma RegexSpaceIs(c: char)
    ensures RegexSpace(c) <==> c in "\t\n\U{000C}\r "
  {
  }

  lemma RegexSpaces(s: string)
    ensures WhiteSpace(s) <==> forall k :: 0 <= k < |s| ==> RegexSpace(s[k])
  {
    forall k | 0 <= k < |s|
      ensures RegexSpace(s[k]) <==> s[k] in "\t\n\U{000C}\r "
    {
      RegexSpaceIs(s[k]);
    }
  }

  lemma SilentShape(text: string) returns (a: string, w: string, b: string)
    requires SilentReply(text)
    ensures text == a + w + b && WhiteSpace(a) && IsMarker(w) && WhiteSpace(b)
  {
    var i, j :| 0 <= i <= j <= |text|
      && (forall k :: 0 <= k < i ==> RegexSpace(text[k]))
      && Upper(text[i..j]) == MARKER
      && (forall k :: j <= k < |text| ==> RegexSpace(text[k]));
    a, w, b := text[0..i], text[i..j], text[j..|text|];
    MarkerLetters(w);
    WhiteRange(text, 0, i);
    WhiteRange(text, j, |text|);
  }

  lemma WhiteRange(text: string, i: nat, j: nat)
    requires i <= j <= |text| && forall k :: i <= k < j ==> RegexSpace(text[k])
    ensures WhiteSpace(text[i..j])
  {
    RegexSpaces(text[i..j]);
  }

  /** A silent reply is the marker in any case between white space. */
  lemma SilentReplyIff(text: string)
    ensures SilentReply(text) <==> exists a, w, b :: text == a + w + b && WhiteSpace(a) && IsMarker(w) && WhiteSpace(b)
  {
    if SilentReply(text) {
      var a, w, b := SilentShape(text);
    }
    forall a, w, b | text == a + w + b && WhiteSpace(a) && IsMarker(w) && WhiteSpace(b)
      ensures SilentReply(text)
    {
      MarkerBetween(a, w, b);
    }
  }

  lemma MarkerBetween(a: string, w: string, b: string)
    requires WhiteSpace(a) && IsMarker(w) && WhiteSpace(b)
    ensures SilentReply(a + w + b)
  {
    MarkerLetters(w);
    RegexSpaces(a);
    RegexSpaces(b);
    var text, i, j := a + w + b, |a|, |a| + |w|;
    assert text[i..j] == w;
    assert forall k :: 0 <= k < i ==> text[k] == a[k];
    assert forall k :: j <= k < |text| ==> text[k] == b[k - j];
  }

  /** A text may still turn out to be the marker exactly if, trimmed, some continuation of it is one. */
  lemma CouldBeSilentIff(text: string)
    ensures CouldBeSilent(text) <==> exists more :: SilentReply(TrimSpace(text) + more)
  {
    var t := TrimSpace(text);
    TrimIdempotent(text);
    if CouldBeSilent(text) {
      MarkerContinues(t);
    }
    forall more | SilentReply(t + more)
      ensures CouldBeSilent(text)
    {
      SilentReplyCouldBe(t + more);
      RuledOutForGood(t, more);
    }
  }

  // --- The event loop's text case ---

  /** isEllipsisOnly */
  predicate EllipsisOnly(s: string) {
    var t := TrimSpace(s);
    t == "..." || t == ['\U{2026}']
  }

  predicate Skipped(chunk: string) {
    chunk == "" || EllipsisOnly(chunk)
  }

  /** The chunks the loop takes in, joined: the segment so far. */
  function Segment(chunks: seq<string>): string {
    if chunks == [] then []
    else Segment(chunks[..|chunks| - 1]) + Taken(chunks[|chunks| - 1])
  }

  function Taken(chunk: string): string {
    if Skipped(chunk) then [] else chunk
  }

  lemma {:induction false} SegmentExtends(chunks: seq<string>, n: nat) returns (more: string)
    requires n <= |chunks|
    ensures Segment(chunks) == Segment(chunks[..n]) + more
  {
    if n == |chunks| {
      assert chunks[..n] == chunks;
      more := [];
    } else {
      var last := |chunks| - 1;
      assert chunks[..last][..n] == chunks[..n];
      var m := SegmentExtends(chunks[..last], n);
      more := m + Taken(chunks[last]);
      Assoc(Segment(chunks[..n]), m, Taken(chunks[last]));
    }
  }

  /** What the user sees of a segment: nothing while it may still be the marker, then all of it. */
  function Visible(segment: string): string {
    if CouldBeSilent(segment) then [] else segment
  }

  /** The loop's variables agree with the segment so far. */
  predicate InStep(segment: string, hold: bool, shown: string) {
    && shown == Visible(segment)
    && (segment != "" && CouldBeSilent(segment) ==> hold)
    && (!CouldBeSilent(segment) ==> !hold)
  }

  lemma EmptySegment()
    ensures CouldBeSilent("")
  {
  }

  /** One EventText with content the loop takes in. */
  method TextEvent(segment: string, hold: bool, shown: string, content: string)
      returns (segment': string, hold': bool, shown': string)
    requires InStep(segment, hold, shown) && content != ""
    ensures segment' == segment + content && InStep(segment', hold', shown')
    ensures !hold && hold' ==> segment == "" && CouldBeSilent(segment')
    ensures hold && !hold' ==> CouldBeSilent(segment) && !CouldBeSilent(segment')
  {
    EmptySegment();
    segment', hold', shown' := segment + content, hold, shown;
    if CouldBeSilent(segment') {
      RuledOutForGood(segment, content);
    }
    if hold {
      if !CouldBeSilent(segment') {
        hold' := false;
        shown' := shown + segment';
      }
    } else if CouldBeSilent(segment') {
      hold' := true;
    } else {
      shown' := shown + content;
    }
  }

  /** The text events of one segment. The hold flag may be left over from the turn before. */
  method StreamSegment(chunks: seq<string>, holdBefore: bool)
      returns (shown: string, hold: bool, switchedOn: nat, switchedOff: nat)
    ensures shown == Visible(Segment(chunks))
    ensures Segment(chunks) != "" ==> hold == CouldBeSilent(Segment(chunks))
    ensures switchedOn <= 1 && switchedOff <= 1
  {
    EmptySegment();
    shown, hold, switchedOn, switchedOff := [], holdBefore, 0, 0;
    var segment := [];
    var k := 0;
    while k < |chunks|
      invariant 0 <= k <= |chunks|
      invariant segment == Segment(chunks[..k]) && InStep(segment, hold, shown)
      invariant switchedOn <= (if segment == "" then 0 else 1)
      invariant switchedOff <= (if CouldBeSilent(segment) then 0 else 1)
    {
      var content := chunks[k];
      assert chunks[..k + 1][..k] == chunks[..k];
      if content != "" && !EllipsisOnly(content) {
        var before := hold;
        segment, hold, shown := TextEvent(segment, hold, shown, content);
        switchedOn := switchedOn + (if !before && hold then 1 else 0);
        switchedOff := switchedOff + (if before && !hold then 1 else 0);
      }
      k := k + 1;
    }
    assert chunks[..k] == chunks;
  }

  /** A segment that ends up as the bare marker has shown nothing at any point on the way. */
  lemma SilentSegmentNeverLeaks(chunks: seq<string>, n: nat)
    requires n <= |chunks| && SilentReply(Segment(chunks))
    ensures Visible(Segment(chunks[..n])) == []
  {
    var more := SegmentExtends(chunks, n);
    SilentReplyCouldBe(Segment(chunks));
    RuledOutForGood(Segment(chunks[..n]), more);
  }

  /** What is shown only ever grows: earlier output is never retracted by later chunks. */
  lemma ShownOnlyGrows(chunks: seq<string>, n: nat)
    requires n <= |chunks|
    ensures Visible(Segment(chunks[..n])) <= Visible(Segment(chunks))
  {
    var more := SegmentExtends(chunks, n);
    if CouldBeSilent(Segment(chunks)) {
      RuledOutForGood(Segment(chunks[..n]), more);
    }
  }

  /** The chunks of a segment joined, but for those that are an ellipsis and nothing else. */
  function Joined(chunks: seq<string>): string {
    if chunks == [] then ""
    else
      var t := TrimSpace(chunks[0]);
      (if t == "..." || t == ['\U{2026}'] then "" else chunks[0]) + Joined(chunks[1..])
  }

  lemma {:induction false} JoinedSnoc(chunks: seq<string>, last: string)
    ensures Joined(chunks + [last]) == Joined(chunks) + Joined([last])
  {
    if chunks == [] {
      assert chunks + [last] == [last] && Joined(chunks) + Joined([last]) == Joined([last]);
    } else {
      assert (chunks + [last])[1..] == chunks[1..] + [last];
      JoinedSnoc(chunks[1..], last);
    }
  }

  lemma {:induction false} SegmentIsJoined(chunks: seq<string>)
    ensures Segment(chunks) == Joined(chunks)
  {
    if chunks != [] {
      var front, last := chunks[..|chunks| - 1], chunks[|chunks| - 1];
      SegmentIsJoined(front);
      assert chunks == front + [last];
      JoinedSnoc(front, last);
      JoinedOne(last);
    }
  }

  lemma JoinedOne(chunk: string)
    ensures Joined([chunk]) == Taken(chunk)
  {
    assert [chunk][1..] == [] && chunk + "" == chunk;
  }

  /** What StreamSegment shows, in full: all of the joined text as soon as it cannot be continued to the
      marker, and nothing before that. */
  lemma ShownIff(chunks: seq<string>)
    ensures Visible(Segment(chunks))
         == if exists more :: SilentReply(TrimSpace(Joined(chunks)) + more) then "" else Joined(chunks)
  {
    SegmentIsJoined(chunks);
    CouldBeSilentIff(Segment(chunks));
  }
}
