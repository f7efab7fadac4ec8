/** config/config.go: looking a key up in a section, and patching it in place. */
module ConfigSections {
  import opened Wrappers
  import opened Text
  import opened TomlLine

  type Lines = seq<string>

  // --- Lookup ---

  /** The first value of `key` before the next header. */
  function InSection(lines: Lines, key: string): Option<string> {
    if lines == [] || IsHeader(lines[0]) then None
    else if MatchKey(lines[0], key) then Some(ValueOf(lines[0]))
    else InSection(lines[1..], key)
  }

  /** The value of `key` in the first section with this header. */
  function Lookup(lines: Lines, header: string, key: string): Option<string> {
    if lines == [] then None
    else if MatchHeader(lines[0], header) then InSection(lines[1..], key)
    else Lookup(lines[1..], header, key)
  }

  // --- Positions ---

  function FirstMatch(lines: Lines, header: string): (i: nat)
    ensures i <= |lines|
    ensures i < |lines| ==> MatchHeader(lines[i], header)
    ensures forall j :: 0 <= j < i ==> !MatchHeader(lines[j], header)
  {
    if lines == [] || MatchHeader(lines[0], header) then 0 else 1 + FirstMatch(lines[1..], header)
  }

  function FirstHeader(lines: Lines): (i: nat)
    ensures i <= |lines|
    ensures i < |lines| ==> IsHeader(lines[i])
    ensures NoHeaders(lines[..i])
  {
    if lines == [] || IsHeader(lines[0]) then 0
    else
      assert forall j :: 0 < j < 1 + FirstHeader(lines[1..]) ==> lines[j] == lines[1..][..FirstHeader(lines[1..])][j - 1];
      1 + FirstHeader(lines[1..])
  }

  /** Where the section that starts behind line s ends. */
  function SectionEnd(lines: Lines, s: nat): (e: nat)
    requires s < |lines|
    ensures s < e <= |lines|
  {
    s + 1 + FirstHeader(lines[s + 1..])
  }

  predicate NoHeaders(lines: Lines) {
    forall i :: 0 <= i < |lines| ==> !IsHeader(lines[i])
  }

  predicate NoMatch(lines: Lines, header: string) {
    forall i :: 0 <= i < |lines| ==> !MatchHeader(lines[i], header)
  }

  /** Nothing, or the next section. */
  predicate AtHeader(lines: Lines) {
    lines != [] ==> IsHeader(lines[0])
  }

  // --- Cutting at the first match, and at the first header ---

  /** The lines in front of the first line that matches the header. */
  function Preamble(lines: Lines, header: string): Lines {
    if lines == [] || MatchHeader(lines[0], header) then [] else [lines[0]] + Preamble(lines[1..], header)
  }

  /** The lines from the first match on. */
  function FromFirst(lines: Lines, header: string): (r: Lines)
    ensures |r| <= |lines|
  {
    if lines == [] || MatchHeader(lines[0], header) then lines else FromFirst(lines[1..], header)
  }

  /** The lines in front of the first header of any kind. */
  function Top(lines: Lines): Lines {
    if lines == [] || IsHeader(lines[0]) then [] else [lines[0]] + Top(lines[1..])
  }

  function Rest(lines: Lines): (r: Lines)
    ensures |r| <= |lines|
  {
    if lines == [] || IsHeader(lines[0]) then lines else Rest(lines[1..])
  }

  lemma {:induction false} PreambleSplits(lines: Lines, header: string)
    ensures lines == Preamble(lines, header) + FromFirst(lines, header)
    ensures NoMatch(Preamble(lines, header), header)
    ensures FromFirst(lines, header) != [] ==> MatchHeader(FromFirst(lines, header)[0], header)
  {
    if lines != [] && !MatchHeader(lines[0], header) {
      PreambleSplits(lines[1..], header);
    }
  }

  lemma {:induction false} PreambleOver(pre: Lines, rest: Lines, header: string)
    requires NoMatch(pre, header) && (rest != [] ==> MatchHeader(rest[0], header))
    ensures Preamble(pre + rest, header) == pre && FromFirst(pre + rest, header) == rest
  {
    if pre == [] {
      assert pre + rest == rest;
    } else {
      assert (pre + rest)[1..] == pre[1..] + rest;
      PreambleOver(pre[1..], rest, header);
    }
  }

  lemma {:induction false} TopSplits(lines: Lines)
    ensures lines == Top(lines) + Rest(lines) && NoHeaders(Top(lines)) && AtHeader(Rest(lines))
  {
    if lines != [] && !IsHeader(lines[0]) {
      TopSplits(lines[1..]);
    }
  }

  lemma {:induction false} TopOver(top: Lines, rest: Lines)
    requires NoHeaders(top) && AtHeader(rest)
    ensures Top(top + rest) == top && Rest(top + rest) == rest
  {
    if top == [] {
      assert top + rest == rest;
    } else {
      assert (top + rest)[1..] == top[1..] + rest;
      TopOver(top[1..], rest);
    }
  }

  /** The same cuts by line number. */
  lemma {:induction false} CutNumbers(lines: Lines, header: string)
    ensures |Preamble(lines, header)| == FirstMatch(lines, header) && |Top(lines)| == FirstHeader(lines)
    ensures FromFirst(lines, header) == [] <==> FirstMatch(lines, header) == |lines|
  {
    if lines != [] {
      CutNumbers(lines[1..], header);
    }
  }

  // --- Documents: some lines, a header line, and what comes behind it ---

  function Doc(pre: Lines, hdr: string, tail: Lines): Lines {
    pre + [hdr] + tail
  }

  // --- Patching ---

  /** The lines of one section with `key` set: the first line of the key is rewritten, or a new line is
      added behind the last one. */
  function UpsertBody(body: Lines, key: string, raw: string): (r: Lines)
    ensures r != []
  {
    if body == [] then [KeyLine(key, raw)]
    else if MatchKey(body[0], key) then [ReplaceValue(body[0], key, raw)] + body[1..]
    else [body[0]] + UpsertBody(body[1..], key, raw)
  }

  function PatchTop(lines: Lines, key: string, raw: string): Lines {
    UpsertBody(Top(lines), key, raw) + Rest(lines)
  }

  function PatchSection(lines: Lines, header: string, key: string, raw: string): Lines {
    var from := FromFirst(lines, header);
    if from == [] then Top(lines) + (["", header, KeyLine(key, raw)] + Rest(lines))
    else Doc(Preamble(lines, header), from[0], UpsertBody(Top(from[1..]), key, raw) + Rest(from[1..]))
  }

  // --- Reading what was patched ---

  /** A value the editor can write and find again. */
  predicate ProperValue(raw: string) {
    Neutral(raw) && Trimmed(raw)
  }

  lemma {:induction false} InSectionOver(body: Lines, rest: Lines, key: string)
    requires NoHeaders(body)
    ensures InSection(body + rest, key) == if InSection(body, key).Some? then InSection(body, key) else InSection(rest, key)
  {
    if body == [] {
      assert body + rest == rest;
    } else {
      assert (body + rest)[1..] == body[1..] + rest;
      InSectionOver(body[1..], rest, key);
    }
  }

  lemma {:induction false} InSectionStops(pre: Lines, hdr: string, tail: Lines, key: string)
    requires IsHeader(hdr)
    ensures InSection(Doc(pre, hdr, tail), key) == InSection(pre, key)
  {
    if pre == [] {
      DocHead(hdr, tail);
    } else {
      DocTail(pre, hdr, tail);
      if !IsHeader(pre[0]) {
        InSectionStops(pre[1..], hdr, tail, key);
      }
    }
  }

  lemma {:induction false} UpsertKeepsNoHeaders(body: Lines, key: string, raw: string)
    requires NoHeaders(body) && ProperKey(key) && ProperValue(raw)
    ensures NoHeaders(UpsertBody(body, key, raw))
  {
    if body == [] {
      FreshLine(key, raw);
    } else if MatchKey(body[0], key) {
      ReplacedReads(body[0], key, raw);
    } else {
      UpsertKeepsNoHeaders(body[1..], key, raw);
    }
  }

  /** Put, then get. */
  lemma {:induction false} UpsertReads(body: Lines, key: string, raw: string)
    requires NoHeaders(body) && ProperKey(key) && ProperValue(raw)
    ensures InSection(UpsertBody(body, key, raw), key) == Some(raw)
  {
    if body == [] {
      FreshLine(key, raw);
    } else if MatchKey(body[0], key) {
      ReplacedReads(body[0], key, raw);
    } else {
      UpsertReads(body[1..], key, raw);
      assert UpsertBody(body, key, raw)[1..] == UpsertBody(body[1..], key, raw);
    }
  }

  /** The other keys of the section read as before. */
  lemma {:induction false} UpsertOther(body: Lines, key: string, raw: string, other: string)
    requires NoHeaders(body) && ProperKey(key) && ProperKey(other) && other != key && ProperValue(raw)
    ensures InSection(UpsertBody(body, key, raw), other) == InSection(body, other)
  {
    if body == [] {
      FreshLine(key, raw);
      if MatchKey(KeyLine(key, raw), other) { KeyUnique(KeyLine(key, raw), key, other); }
    } else if MatchKey(body[0], key) {
      var out := ReplaceValue(body[0], key, raw);
      ReplacedReads(body[0], key, raw);
      if MatchKey(out, other) { KeyUnique(out, key, other); }
      if MatchKey(body[0], other) { KeyUnique(body[0], key, other); }
      assert UpsertBody(body, key, raw)[1..] == body[1..];
    } else {
      UpsertOther(body[1..], key, raw, other);
      assert UpsertBody(body, key, raw)[1..] == UpsertBody(body[1..], key, raw);
    }
  }

  /** Put twice is put once. */
  lemma {:induction false} UpsertTwice(body: Lines, key: string, v: string, w: string)
    requires ProperKey(key) && ProperValue(v)
    ensures UpsertBody(UpsertBody(body, key, v), key, w) == UpsertBody(body, key, w)
  {
    if body == [] {
      FreshLine(key, v);
      FreshThenReplace(key, v, w);
      assert UpsertBody(body, key, v)[1..] == [];
    } else if MatchKey(body[0], key) {
      ReplacedReads(body[0], key, v);
      ReplaceTwice(body[0], key, v, w);
      assert UpsertBody(body, key, v)[1..] == body[1..];
    } else {
      UpsertTwice(body[1..], key, v, w);
      assert UpsertBody(body, key, v)[1..] == UpsertBody(body[1..], key, v);
    }
  }

  /** Every other line of the section stays, in place. */
  lemma {:induction false} UpsertFrame(body: Lines, key: string, raw: string)
    ensures var r := UpsertBody(body, key, raw);
            && |body| <= |r| <= |body| + 1
            && (forall i :: 0 <= i < |body| && !MatchKey(body[i], key) ==> r[i] == body[i])
            && (|r| == |body| + 1 <==> forall i :: 0 <= i < |body| ==> !MatchKey(body[i], key))
  {
    if body != [] && !MatchKey(body[0], key) {
      UpsertFrame(body[1..], key, raw);
      var r, r1 := UpsertBody(body, key, raw), UpsertBody(body[1..], key, raw);
      forall i | 0 <= i < |body| && !MatchKey(body[i], key)
        ensures r[i] == body[i]
      {
        if i > 0 { assert body[1..][i - 1] == body[i] && r1[i - 1] == r[i]; }
      }
      assert forall i :: 0 < i < |body| ==> body[i] == body[1..][i - 1];
    }
  }

  lemma DocTail(pre: Lines, hdr: string, tail: Lines)
    requires pre != []
    ensures Doc(pre, hdr, tail)[0] == pre[0] && Doc(pre, hdr, tail)[1..] == Doc(pre[1..], hdr, tail)
  {
  }

  lemma DocHead(hdr: string, tail: Lines)
    ensures Doc([], hdr, tail)[0] == hdr && Doc([], hdr, tail)[1..] == tail
  {
  }

  lemma FirstHeaderAt(body: Lines, rest: Lines)
    requires NoHeaders(body) && AtHeader(rest)
    ensures FirstHeader(body + rest) == |body|
  {
    TopOver(body, rest);
    CutNumbers(body + rest, "[");
  }

  /** Looking a key up in a document of which one section's lines were exchanged. */
  lemma {:induction false} LookupExchanged(pre: Lines, hdr: string, body: Lines, other: Lines, rest: Lines,
                                           header: string, key: string)
    requires IsHeader(hdr) && NoHeaders(body) && NoHeaders(other)
    requires !(NoMatch(pre, header) && MatchHeader(hdr, header))
    requires forall line :: MatchHeader(line, header) ==> IsHeader(line)
    ensures Lookup(Doc(pre, hdr, other + rest), header, key) == Lookup(Doc(pre, hdr, body + rest), header, key)
  {
    if pre == [] {
      DocHead(hdr, other + rest);
      DocHead(hdr, body + rest);
      LookupOver(other, rest, header, key);
      LookupOver(body, rest, header, key);
    } else {
      DocTail(pre, hdr, other + rest);
      DocTail(pre, hdr, body + rest);
      if MatchHeader(pre[0], header) {
        InSectionStops(pre[1..], hdr, other + rest, key);
        InSectionStops(pre[1..], hdr, body + rest, key);
      } else {
        if NoMatch(pre[1..], header) {
          assert forall i :: 0 < i < |pre| ==> pre[i] == pre[1..][i - 1];
        }
        LookupExchanged(pre[1..], hdr, body, other, rest, header, key);
      }
    }
  }

  lemma {:induction false} LookupOver(body: Lines, rest: Lines, header: string, key: string)
    requires NoHeaders(body) && forall line :: MatchHeader(line, header) ==> IsHeader(line)
    ensures Lookup(body + rest, header, key) == Lookup(rest, header, key)
  {
    if body == [] {
      assert body + rest == rest;
    } else {
      assert (body + rest)[1..] == body[1..] + rest;
      LookupOver(body[1..], rest, header, key);
    }
  }

  lemma {:induction false} LookupAt(pre: Lines, hdr: string, tail: Lines, header: string, key: string)
    requires NoMatch(pre, header) && MatchHeader(hdr, header)
    ensures Lookup(Doc(pre, hdr, tail), header, key) == InSection(tail, key)
  {
    if pre == [] {
      DocHead(hdr, tail);
    } else {
      DocTail(pre, hdr, tail);
      LookupAt(pre[1..], hdr, tail, header, key);
    }
  }

  lemma HeaderLines(header: string)
    requires ProperHeader(header)
    ensures forall line :: MatchHeader(line, header) ==> IsHeader(line)
    ensures MatchHeader(header, header) && IsHeader(header)
  {
    TrimTrimmed(header);
    forall line | MatchHeader(line, header)
      ensures IsHeader(line)
    {
      assert TrimSpace(line)[0] == header[0] == '[';
    }
  }

  // --- The section patch is a lens ---

  lemma DocAssoc(pre: Lines, hdr: string, tail: Lines)
    ensures Doc(pre, hdr, tail) == pre + ([hdr] + tail)
  {
  }

  /** A document that has the section. */
  lemma Cut(lines: Lines, header: string) returns (pre: Lines, hdr: string, body: Lines, rest: Lines)
    requires FromFirst(lines, header) != []
    ensures lines == Doc(pre, hdr, body + rest)
    ensures NoMatch(pre, header) && MatchHeader(hdr, header) && NoHeaders(body) && AtHeader(rest)
    ensures pre == Preamble(lines, header)
  {
    var from := FromFirst(lines, header);
    pre, hdr, body, rest := Preamble(lines, header), from[0], Top(from[1..]), Rest(from[1..]);
    PreambleSplits(lines, header);
    TopSplits(from[1..]);
    assert from == [hdr] + from[1..];
    DocAssoc(pre, hdr, from[1..]);
  }

  lemma DocCuts(pre: Lines, hdr: string, tail: Lines, header: string)
    requires NoMatch(pre, header) && MatchHeader(hdr, header)
    ensures Preamble(Doc(pre, hdr, tail), header) == pre && FromFirst(Doc(pre, hdr, tail), header) == [hdr] + tail
  {
    DocAssoc(pre, hdr, tail);
    PreambleOver(pre, [hdr] + tail, header);
  }

  lemma PatchGiven(pre: Lines, hdr: string, body: Lines, rest: Lines, header: string, key: string, raw: string)
    requires NoMatch(pre, header) && MatchHeader(hdr, header) && NoHeaders(body) && AtHeader(rest)
    ensures PatchSection(Doc(pre, hdr, body + rest), header, key, raw) == Doc(pre, hdr, UpsertBody(body, key, raw) + rest)
    ensures FromFirst(Doc(pre, hdr, body + rest), header) != []
  {
    DocCuts(pre, hdr, body + rest, header);
    TopOver(body, rest);
    assert ([hdr] + (body + rest))[1..] == body + rest;
  }

  /** The document with an empty section of this header, if it had none. */
  function WithSection(lines: Lines, header: string): Lines {
    if FromFirst(lines, header) != [] then lines else Doc(Top(lines) + [""], header, Rest(lines))
  }

  lemma NewSection(lines: Lines, header: string) returns (pre: Lines, rest: Lines)
    requires FromFirst(lines, header) == [] && ProperHeader(header)
    ensures WithSection(lines, header) == Doc(pre, header, rest) && rest == [] + rest
    ensures NoMatch(pre, header) && MatchHeader(header, header) && NoHeaders(pre) && AtHeader(rest)
    ensures pre == Top(lines) + [""] && rest == Rest(lines)
    ensures NoMatch(lines, header)
  {
    HeaderLines(header);
    TopSplits(lines);
    PreambleSplits(lines, header);
    assert Preamble(lines, header) + [] == Preamble(lines, header);
    pre, rest := Top(lines) + [""], Rest(lines);
    BlankLine(header);
  }

  lemma BlankLine(header: string)
    requires ProperHeader(header)
    ensures !MatchHeader("", header) && !IsHeader("")
  {
    TrimTrimmed("");
  }

  /** Patching a missing section is creating it empty and patching that. */
  lemma PatchCreates(lines: Lines, header: string, key: string, raw: string)
    requires ProperHeader(header)
    ensures PatchSection(lines, header, key, raw) == PatchSection(WithSection(lines, header), header, key, raw)
    ensures FromFirst(WithSection(lines, header), header) != []
  {
    if FromFirst(lines, header) == [] {
      var pre, rest := NewSection(lines, header);
      PatchGiven(pre, header, [], rest, header, key, raw);
      PatchInserts(lines, header, key, raw);
    }
  }

  lemma PatchInserts(lines: Lines, header: string, key: string, raw: string)
    requires FromFirst(lines, header) == []
    ensures PatchSection(lines, header, key, raw) == Doc(Top(lines) + [""], header, [KeyLine(key, raw)] + Rest(lines))
  {
  }

  /** An empty section changes no lookup. */
  lemma WithSectionLookup(lines: Lines, header: string, other: string, k: string)
    requires ProperHeader(header) && ProperHeader(other)
    requires FromFirst(lines, header) != [] || other == header || !MatchHeader(header, other)
    ensures Lookup(WithSection(lines, header), other, k) == Lookup(lines, other, k)
  {
    if FromFirst(lines, header) == [] {
      var pre, rest := NewSection(lines, header);
      HeaderLines(other);
      HeaderLines(header);
      TopSplits(lines);
      LookupOver(Top(lines), rest, other, k);
      DocAssoc(pre, header, rest);
      LookupOver(pre, [header] + rest, other, k);
      assert ([header] + rest)[1..] == rest;
      if other == header {
        LookupNowhere(lines, header, k);
        assert InSection(rest, k) == None;
      }
    }
  }

  lemma WithSectionTop(lines: Lines, header: string, k: string)
    requires ProperHeader(header) && ProperKey(k)
    ensures InSection(WithSection(lines, header), k) == InSection(lines, k)
  {
    if FromFirst(lines, header) == [] {
      var pre, rest := NewSection(lines, header);
      HeaderLines(header);
      InSectionStops(pre, header, rest, k);
      TopSplits(lines);
      TopOnly(Top(lines), rest, k);
      TopOnly(Top(lines), [""], k);
    }
  }

  lemma TopOnly(top: Lines, rest: Lines, k: string)
    requires NoHeaders(top) && (AtHeader(rest) || rest == [""])
    ensures InSection(top + rest, k) == InSection(top, k)
  {
    InSectionOver(top, rest, k);
    TrimTrimmed("");
  }

  lemma {:induction false} LookupNowhere(lines: Lines, header: string, key: string)
    requires NoMatch(lines, header)
    ensures Lookup(lines, header, key) == None
  {
    if lines != [] {
      assert forall i :: 0 <= i < |lines[1..]| ==> lines[1..][i] == lines[i + 1];
      LookupNowhere(lines[1..], header, key);
    }
  }

  lemma PresentLookup(lines: Lines, header: string, key: string, raw: string, k: string)
    requires FromFirst(lines, header) != [] && ProperKey(key) && ProperValue(raw)
    requires k == key || ProperKey(k)
    ensures Lookup(PatchSection(lines, header, key, raw), header, k) == if k == key then Some(raw) else Lookup(lines, header, k)
  {
    var pre, hdr, body, rest := Cut(lines, header);
    var patched := UpsertBody(body, key, raw);
    PatchGiven(pre, hdr, body, rest, header, key, raw);
    LookupAt(pre, hdr, patched + rest, header, k);
    LookupAt(pre, hdr, body + rest, header, k);
    UpsertKeepsNoHeaders(body, key, raw);
    InSectionOver(patched, rest, k);
    InSectionOver(body, rest, k);
    if k == key {
      UpsertReads(body, key, raw);
    } else {
      UpsertOther(body, key, raw, k);
    }
  }

  /** The first line that matches one header is also the first that matches the other. */
  predicate SameSection(lines: Lines, header: string, other: string)
    requires FromFirst(lines, header) != []
  {
    NoMatch(Preamble(lines, header), other) && MatchHeader(FromFirst(lines, header)[0], other)
  }

  lemma PresentOtherSection(lines: Lines, header: string, key: string, raw: string, other: string, k: string)
    requires ProperHeader(header) && ProperKey(key) && ProperValue(raw) && ProperHeader(other)
    requires FromFirst(lines, header) != [] && !SameSection(lines, header, other)
    ensures Lookup(PatchSection(lines, header, key, raw), other, k) == Lookup(lines, other, k)
  {
    HeaderLines(header);
    HeaderLines(other);
    var pre, hdr, body, rest := Cut(lines, header);
    PatchGiven(pre, hdr, body, rest, header, key, raw);
    UpsertKeepsNoHeaders(body, key, raw);
    DocCuts(pre, hdr, body + rest, header);
    LookupExchanged(pre, hdr, body, UpsertBody(body, key, raw), rest, other, k);
  }

  lemma PresentTop(lines: Lines, header: string, key: string, raw: string, k: string)
    requires ProperHeader(header) && FromFirst(lines, header) != []
    ensures InSection(PatchSection(lines, header, key, raw), k) == InSection(lines, k)
  {
    HeaderLines(header);
    var pre, hdr, body, rest := Cut(lines, header);
    PatchGiven(pre, hdr, body, rest, header, key, raw);
    InSectionStops(pre, hdr, body + rest, k);
    InSectionStops(pre, hdr, UpsertBody(body, key, raw) + rest, k);
  }

  /** Put, then get: in an existing or a new section. */
  lemma PatchThenLookup(lines: Lines, header: string, key: string, raw: string)
    requires ProperHeader(header) && ProperKey(key) && ProperValue(raw)
    ensures Lookup(PatchSection(lines, header, key, raw), header, key) == Some(raw)
  {
    PatchCreates(lines, header, key, raw);
    PresentLookup(WithSection(lines, header), header, key, raw, key);
  }

  /** Frame, same section: every other key reads as before. */
  lemma PatchOtherKey(lines: Lines, header: string, key: string, raw: string, other: string)
    requires ProperHeader(header) && ProperKey(key) && ProperValue(raw) && ProperKey(other) && other != key
    ensures Lookup(PatchSection(lines, header, key, raw), header, other) == Lookup(lines, header, other)
  {
    PatchCreates(lines, header, key, raw);
    PresentLookup(WithSection(lines, header), header, key, raw, other);
    WithSectionLookup(lines, header, header, other);
  }

  /** Frame, other sections: a header that is not found at the patched section's line reads as before. */
  lemma PatchOtherSection(lines: Lines, header: string, key: string, raw: string, other: string, k: string)
    requires ProperHeader(header) && ProperKey(key) && ProperValue(raw) && ProperHeader(other)
    requires if FromFirst(lines, header) == [] then !MatchHeader(header, other) else !SameSection(lines, header, other)
    ensures Lookup(PatchSection(lines, header, key, raw), other, k) == Lookup(lines, other, k)
  {
    PatchCreates(lines, header, key, raw);
    WithSectionLookup(lines, header, other, k);
    if FromFirst(lines, header) == [] {
      var pre, rest := NewSection(lines, header);
      DocCuts(pre, header, rest, header);
    }
    PresentOtherSection(WithSection(lines, header), header, key, raw, other, k);
  }

  /** The keys in front of the first section read as before. */
  lemma PatchKeepsTop(lines: Lines, header: string, key: string, raw: string, k: string)
    requires ProperHeader(header) && ProperKey(key) && ProperValue(raw) && ProperKey(k)
    ensures InSection(PatchSection(lines, header, key, raw), k) == InSection(lines, k)
  {
    PatchCreates(lines, header, key, raw);
    PresentTop(WithSection(lines, header), header, key, raw, k);
    WithSectionTop(lines, header, k);
  }

  /** Put twice is put once. */
  lemma PatchTwice(lines: Lines, header: string, key: string, v: string, w: string)
    requires ProperHeader(header) && ProperKey(key) && ProperValue(v) && ProperValue(w)
    ensures PatchSection(PatchSection(lines, header, key, v), header, key, w) == PatchSection(lines, header, key, w)
  {
    PatchCreates(lines, header, key, v);
    PatchCreates(lines, header, key, w);
    var pre, hdr, body, rest := Cut(WithSection(lines, header), header);
    PatchGiven(pre, hdr, body, rest, header, key, v);
    PatchGiven(pre, hdr, body, rest, header, key, w);
    UpsertKeepsNoHeaders(body, key, v);
    PatchGiven(pre, hdr, UpsertBody(body, key, v), rest, header, key, w);
    UpsertTwice(body, key, v, w);
  }

  // --- The same for the keys in front of the first section ---

  lemma PatchTopThenRead(lines: Lines, key: string, raw: string)
    requires ProperKey(key) && ProperValue(raw)
    ensures InSection(PatchTop(lines, key, raw), key) == Some(raw)
    ensures forall other :: ProperKey(other) && other != key ==>
              InSection(PatchTop(lines, key, raw), other) == InSection(lines, other)
  {
    var top, rest := Top(lines), Rest(lines);
    TopSplits(lines);
    UpsertKeepsNoHeaders(top, key, raw);
    UpsertReads(top, key, raw);
    InSectionOver(UpsertBody(top, key, raw), rest, key);
    forall other | ProperKey(other) && other != key
      ensures InSection(PatchTop(lines, key, raw), other) == InSection(lines, other)
    {
      UpsertOther(top, key, raw, other);
      InSectionOver(UpsertBody(top, key, raw), rest, other);
      InSectionOver(top, rest, other);
    }
  }

  lemma PatchTopKeepsSections(lines: Lines, key: string, raw: string, header: string, k: string)
    requires ProperKey(key) && ProperValue(raw) && ProperHeader(header)
    ensures Lookup(PatchTop(lines, key, raw), header, k) == Lookup(lines, header, k)
  {
    HeaderLines(header);
    TopSplits(lines);
    UpsertKeepsNoHeaders(Top(lines), key, raw);
    LookupOver(UpsertBody(Top(lines), key, raw), Rest(lines), header, k);
    LookupOver(Top(lines), Rest(lines), header, k);
  }

  lemma PatchTopTwice(lines: Lines, key: string, v: string, w: string)
    requires ProperKey(key) && ProperValue(v) && ProperValue(w)
    ensures PatchTop(PatchTop(lines, key, v), key, w) == PatchTop(lines, key, w)
  {
    var top, rest := Top(lines), Rest(lines);
    TopSplits(lines);
    UpsertKeepsNoHeaders(top, key, v);
    TopOver(UpsertBody(top, key, v), rest);
    UpsertTwice(top, key, v, w);
  }
}
