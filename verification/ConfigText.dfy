/** config/config.go: the editor's operations on the text of a configuration file. */
module ConfigText {
  import opened Wrappers
  import opened SeqFacts
  import opened Text
  import opened TomlLine
  import opened TomlString
  import opened ConfigSections
  import opened FormatToml
  import opened FormatLookup

  // --- Text and lines ---

  predicate EndsInNewline(raw: string) {
    raw != [] && raw[|raw| - 1] == '\n'
  }

  function WithoutNewline(raw: string): string {
    if EndsInNewline(raw) then raw[..|raw| - 1] else raw
  }

  function ConfigLines(raw: string): Lines {
    if WithoutNewline(raw) == "" then [] else Split(WithoutNewline(raw), '\n')
  }

  /** splitConfigLines */
  function SplitConfigLines(raw: string): (Lines, bool) {
    (ConfigLines(raw), EndsInNewline(raw))
  }

  /** joinConfigLines */
  function JoinConfigLines(lines: Lines, hadTrailing: bool): string {
    Join(lines, '\n') + if hadTrailing || |lines| > 0 then "\n" else ""
  }

  /** Joining what was split gives the text back; a missing final newline is added, nothing else. */
  lemma JoinOfSplit(raw: string)
    ensures var (lines, hadTrailing) := SplitConfigLines(raw);
            JoinConfigLines(lines, hadTrailing) == if raw == "" || EndsInNewline(raw) then raw else raw + "\n"
  {
    JoinSplit(WithoutNewline(raw), '\n');
    if EndsInNewline(raw) {
      assert raw == WithoutNewline(raw) + "\n";
    }
  }

  /** Splitting what was joined gives the lines back, except that a single empty line is lost. */
  lemma SplitOfJoin(lines: Lines, hadTrailing: bool)
    requires AllFree(lines, '\n')
    ensures ConfigLines(JoinConfigLines(lines, hadTrailing)) == if lines == [""] then [] else lines
  {
    var joined, text := Join(lines, '\n'), JoinConfigLines(lines, hadTrailing);
    if lines != [] {
      assert WithoutNewline(text) == joined;
      SplitJoin(lines, '\n');
      if joined == "" { assert Split(joined, '\n') == [""]; }
    }
  }

  lemma ConfigLinesFree(raw: string)
    ensures AllFree(ConfigLines(raw), '\n')
  {
    SplitFree(WithoutNewline(raw), '\n');
  }

  /** What the next read of a formatted file sees. */
  lemma FormattedConfigLines(raw: string)
    ensures ConfigLines(Format(raw)) == FormatLines(Split(raw, '\n'))
  {
    var out := FormatLines(Split(raw, '\n'));
    SplitFree(raw, '\n');
    FreeLines(Split(raw, '\n'));
    FormatIsNormal(Split(raw, '\n'));
    EmptyIsBlank();
    assert out != [""];
    if out == [] {
      assert Format(raw) == "\n";
    } else {
      assert JoinConfigLines(out, true) == Format(raw);
      SplitOfJoin(out, true);
    }
  }

  /** writeRawConfig(joinConfigLines(…)): what ends up in the file. */
  function Written(lines: Lines, hadTrailing: bool): string {
    Format(JoinConfigLines(lines, hadTrailing))
  }

  lemma WrittenLines(lines: Lines, hadTrailing: bool)
    requires AllFree(lines, '\n') && lines != []
    ensures ConfigLines(Written(lines, hadTrailing)) == FormatLines(lines + [""])
  {
    JoinNewline(lines);
    SplitJoin(lines + [""], '\n');
    FormattedConfigLines(JoinConfigLines(lines, hadTrailing));
  }

  lemma FinalEmptyLine(lines: Lines, header: string, key: string)
    requires ProperHeader(header)
    ensures Lookup(lines + [""], header, key) == Lookup(lines, header, key)
    ensures InSection(lines + [""], key) == InSection(lines, key)
  {
    EmptyIsBlank();
    NonBlankSnoc(lines, "");
    assert NonBlank(lines) + [] == NonBlank(lines);
    NonBlankLookup(lines, header, key);
    NonBlankLookup(lines + [""], header, key);
    NonBlankInSection(lines, key);
    NonBlankInSection(lines + [""], key);
  }

  /** A value that can be read from the edited lines can be read from the written file. */
  lemma WrittenReads(lines: Lines, hadTrailing: bool, header: string, key: string)
    requires AllFree(lines, '\n') && ProperHeader(header) && Lookup(lines, header, key).Some?
    ensures Lookup(ConfigLines(Written(lines, hadTrailing)), header, key) == Lookup(lines, header, key)
  {
    WrittenLines(lines, hadTrailing);
    FinalEmptyLine(lines, header, key);
    FormatKeepsValue(lines + [""], header, key);
  }

  lemma WrittenReadsTop(lines: Lines, hadTrailing: bool, header: string, key: string)
    requires AllFree(lines, '\n') && lines != [] && ProperHeader(header)
    ensures InSection(ConfigLines(Written(lines, hadTrailing)), key) == InSection(lines, key)
  {
    WrittenLines(lines, hadTrailing);
    FinalEmptyLine(lines, header, key);
    FormatKeepsLookup(lines + [""], header, key);
  }

  // --- Inserting and upserting at line numbers ---

  function Clamp(i: int, n: nat): (r: nat)
    ensures r <= n
  {
    if i < 0 then 0 else if i > n then n else i
  }

  function Inserted(lines: Lines, at: nat, block: Lines): Lines
    requires at <= |lines|
  {
    lines[..at] + block + lines[at..]
  }

  method InsertLines(lines: Lines, at: int, block: Lines) returns (out: Lines)
    ensures out == Inserted(lines, Clamp(at, |lines|), block)
  {
    var i := at;
    if i < 0 {
      i := 0;
    }
    if i > |lines| {
      i := |lines|;
    }
    out := lines[..i] + block + lines[i..];
  }

  /** The lines start..end, cut to the file; none when they are the wrong way round. */
  function RegionEnd(lines: Lines, start: int, end: int): (e: nat)
    ensures Clamp(start, |lines|) <= e <= |lines|
  {
    if end + 1 < Clamp(start, |lines|) then Clamp(start, |lines|) else Clamp(end + 1, |lines|)
  }

  function UpsertAt(lines: Lines, start: int, end: int, key: string, raw: string): Lines {
    var from, until := Clamp(start, |lines|), RegionEnd(lines, start, end);
    lines[..from] + UpsertBody(lines[from..until], key, raw) + lines[until..]
  }

  lemma {:induction false} UpsertFound(body: Lines, i: nat, key: string, raw: string)
    requires i < |body| && MatchKey(body[i], key) && forall j :: 0 <= j < i ==> !MatchKey(body[j], key)
    ensures UpsertBody(body, key, raw) == body[i := ReplaceValue(body[i], key, raw)]
  {
    if i > 0 {
      UpsertFound(body[1..], i - 1, key, raw);
    }
  }

  lemma {:induction false} UpsertNotFound(body: Lines, key: string, raw: string)
    requires forall j :: 0 <= j < |body| ==> !MatchKey(body[j], key)
    ensures UpsertBody(body, key, raw) == body + [KeyLine(key, raw)]
  {
    if body != [] {
      UpsertNotFound(body[1..], key, raw);
    }
  }

  /** Upserting exactly over a middle part. */
  lemma UpsertInside(before: Lines, mid: Lines, behind: Lines, from: int, end: int, key: string, raw: string)
    requires from == |before| && end == |before| + |mid| - 1
    ensures UpsertAt(before + (mid + behind), from, end, key, raw) == before + (UpsertBody(mid, key, raw) + behind)
  {
    var lines := before + (mid + behind);
    Middle(before, mid, UpsertBody(mid, key, raw), behind);
    assert Clamp(from, |lines|) == |before| && RegionEnd(lines, from, end) == |before| + |mid|;
  }

  lemma FoundInSlice(lines: Lines, from: nat, until: nat, i: nat, key: string, raw: string)
    requires from <= i < until <= |lines| && MatchKey(lines[i], key)
    requires forall j :: from <= j < i ==> !MatchKey(lines[j], key)
    ensures UpsertBody(lines[from..until], key, raw) == lines[from..until][i - from := ReplaceValue(lines[i], key, raw)]
  {
    var body := lines[from..until];
    forall j | 0 <= j < i - from
      ensures !MatchKey(body[j], key)
    {
      assert body[j] == lines[from + j];
    }
    UpsertFound(body, i - from, key, raw);
  }

  lemma UpsertAtFound(lines: Lines, start: int, end: int, i: nat, key: string, raw: string)
    requires Clamp(start, |lines|) <= i < RegionEnd(lines, start, end) && MatchKey(lines[i], key)
    requires forall j :: Clamp(start, |lines|) <= j < i ==> !MatchKey(lines[j], key)
    ensures UpsertAt(lines, start, end, key, raw) == lines[i := ReplaceValue(lines[i], key, raw)]
  {
    var from, until := Clamp(start, |lines|), RegionEnd(lines, start, end);
    FoundInSlice(lines, from, until, i, key, raw);
    Update(lines, from, until, i, ReplaceValue(lines[i], key, raw));
  }

  lemma UpsertAtNotFound(lines: Lines, start: int, end: int, key: string, raw: string)
    requires forall j :: Clamp(start, |lines|) <= j < RegionEnd(lines, start, end) ==> !MatchKey(lines[j], key)
    ensures UpsertAt(lines, start, end, key, raw) == Inserted(lines, RegionEnd(lines, start, end), [KeyLine(key, raw)])
  {
    var from, until := Clamp(start, |lines|), RegionEnd(lines, start, end);
    UpsertNotFound(lines[from..until], key, raw);
    assert lines[..from] + (lines[from..until] + [KeyLine(key, raw)]) == lines[..until] + [KeyLine(key, raw)];
  }

  method UpsertTomlRawKey(lines: Lines, start: int, end: int, key: string, rawValue: string) returns (out: Lines)
    ensures out == UpsertAt(lines, start, end, key, rawValue)
  {
    var s, e := start, end;
    if s < 0 {
      s := 0;
    }
    if e >= |lines| {
      e := |lines| - 1;
    }
    var i := s;
    while i <= e && i < |lines|
      invariant s <= i && (i > s ==> i <= RegionEnd(lines, start, end))
      invariant forall j :: s <= j < i && j < |lines| ==> !MatchKey(lines[j], key)
    {
      if MatchKey(lines[i], key) {
        var indent := LeadingWhitespace(lines[i]);
        var comment := ExtractLineComment(lines[i]);
        var line := indent + key + " = " + rawValue;
        if comment != "" {
          line := line + " " + comment;
        }
        UpsertAtFound(lines, start, end, i, key, rawValue);
        ReplacedLine(lines[i], key, rawValue);
        return lines[i := line];
      }
      i := i + 1;
    }
    var insertAt := e + 1;
    if insertAt < s {
      insertAt := s;
    }
    UpsertAtNotFound(lines, start, end, key, rawValue);
    out := InsertLines(lines, insertAt, [key + " = " + rawValue]);
  }

  lemma ReplacedLine(line: string, key: string, raw: string)
    ensures ReplaceValue(line, key, raw)
         == if LineComment(line) != "" then LeadingBlanks(line) + key + " = " + raw + " " + LineComment(line)
            else LeadingBlanks(line) + key + " = " + raw
  {
    AssocThree(LeadingBlanks(line), key, " = ", raw);
    var front := LeadingBlanks(line) + key + " = " + raw;
    Assoc(front, " ", LineComment(line));
    assert front + "" == front;
  }

  /** replaceTomlStringKeyLine */
  method ReplaceTomlStringKeyLine(line: string, key: string, value: string) returns (updated: string)
    ensures updated == ReplaceValue(line, key, Quote(value))
  {
    var indent := LeadingWhitespace(line);
    var comment := ExtractLineComment(line);
    updated := indent + key + " = " + Quote(value);
    if comment != "" {
      updated := updated + " " + comment;
    }
    ReplacedLine(line, key, Quote(value));
  }

  method UpsertTomlStringKey(lines: Lines, start: int, end: int, key: string, value: string) returns (out: Lines)
    ensures out == UpsertAt(lines, start, end, key, Quote(value))
  {
    var s, e := start, end;
    if s < 0 {
      s := 0;
    }
    if e >= |lines| {
      e := |lines| - 1;
    }
    var i := s;
    while i <= e && i < |lines|
      invariant s <= i && (i > s ==> i <= RegionEnd(lines, start, end))
      invariant forall j :: s <= j < i && j < |lines| ==> !MatchKey(lines[j], key)
    {
      if MatchKey(lines[i], key) {
        UpsertAtFound(lines, start, end, i, key, Quote(value));
        var line := ReplaceTomlStringKeyLine(lines[i], key, value);
        return lines[i := line];
      }
      i := i + 1;
    }
    var insertAt := e + 1;
    if insertAt < s {
      insertAt := s;
    }
    UpsertAtNotFound(lines, start, end, key, Quote(value));
    out := InsertLines(lines, insertAt, [key + " = " + Quote(value)]);
  }

  // --- patchTopLevelField and patchSectionField ---

  function PatchedTop(raw: string, key: string, value: string): string {
    Written(PatchTop(ConfigLines(raw), key, Quote(value)), EndsInNewline(raw))
  }

  function PatchedSection(raw: string, section: string, key: string, tomlValue: string): string {
    Written(PatchSection(ConfigLines(raw), "[" + section + "]", key, tomlValue), EndsInNewline(raw))
  }

  /** The index in front of the first header, or the last index. */
  method TopEnd(lines: Lines) returns (topEnd: int)
    ensures topEnd == FirstHeader(lines) - 1
  {
    topEnd := |lines| - 1;
    var i := 0;
    while i < |lines|
      invariant 0 <= i <= |lines| && topEnd == |lines| - 1
      invariant NoHeaders(lines[..i])
    {
      if IsHeader(lines[i]) {
        FirstHeaderIs(lines, i);
        return i - 1;
      }
      assert lines[..i + 1] == lines[..i] + [lines[i]];
      i := i + 1;
    }
    FirstHeaderIs(lines, |lines|);
  }

  lemma FirstHeaderIs(lines: Lines, i: nat)
    requires i <= |lines| && NoHeaders(lines[..i]) && AtHeader(lines[i..])
    ensures FirstHeader(lines) == i
  {
    assert lines == lines[..i] + lines[i..];
    FirstHeaderAt(lines[..i], lines[i..]);
  }

  lemma PatchTopFound(lines: Lines, i: nat, key: string, raw: string)
    requires i < FirstHeader(lines) && MatchKey(lines[i], key) && forall j :: 0 <= j < i ==> !MatchKey(lines[j], key)
    ensures PatchTop(lines, key, raw) == lines[i := ReplaceValue(lines[i], key, raw)]
  {
    var top, rest := Top(lines), Rest(lines);
    TopSplits(lines);
    CutNumbers(lines, "[");
    forall j | 0 <= j <= i
      ensures top[j] == lines[j]
    {
    }
    UpsertFound(top, i, key, raw);
    UpdateFront(top, rest, i, ReplaceValue(lines[i], key, raw));
  }

  lemma PatchTopNotFound(lines: Lines, key: string, raw: string)
    requires forall j :: 0 <= j < FirstHeader(lines) ==> !MatchKey(lines[j], key)
    ensures PatchTop(lines, key, raw) == Inserted(lines, FirstHeader(lines), [KeyLine(key, raw)])
  {
    var top, rest := Top(lines), Rest(lines);
    TopSplits(lines);
    CutNumbers(lines, "[");
    forall j | 0 <= j < |top|
      ensures !MatchKey(top[j], key)
    {
      assert top[j] == lines[j];
    }
    UpsertNotFound(top, key, raw);
    assert lines[..|top|] == top && lines[|top|..] == rest;
  }

  lemma PatchSectionFound(lines: Lines, header: string, key: string, raw: string, start: int, end: int)
    requires FromFirst(lines, header) != []
    requires start == |Preamble(lines, header)| && end == start + |Top(FromFirst(lines, header)[1..])|
    ensures PatchSection(lines, header, key, raw) == UpsertAt(lines, start + 1, end, key, raw)
  {
    var pre, hdr, body, rest := Cut(lines, header);
    PatchGiven(pre, hdr, body, rest, header, key, raw);
    DocCuts(pre, hdr, body + rest, header);
    TopOver(body, rest);
    assert ([hdr] + (body + rest))[1..] == body + rest;
    UpsertInside(pre + [hdr], body, rest, start + 1, end, key, raw);
  }

  method PatchTopLevelField(raw: string, key: string, value: string) returns (text: string)
    ensures text == PatchedTop(raw, key, value)
  {
    var lines, hadTrailing := ConfigLines(raw), EndsInNewline(raw);
    var topEnd := TopEnd(lines);
    var i := 0;
    while i <= topEnd && i < |lines|
      invariant 0 <= i <= topEnd + 1
      invariant forall j :: 0 <= j < i ==> !MatchKey(lines[j], key)
    {
      if MatchKey(lines[i], key) {
        PatchTopFound(lines, i, key, Quote(value));
        var line := ReplaceTomlStringKeyLine(lines[i], key, value);
        text := FormatTOML(JoinConfigLines(lines[i := line], hadTrailing));
        return;
      }
      i := i + 1;
    }
    PatchTopNotFound(lines, key, Quote(value));
    var insertAt := topEnd + 1;
    if insertAt < 0 {
      insertAt := 0;
    }
    lines := InsertLines(lines, insertAt, [key + " = " + Quote(value)]);
    text := FormatTOML(JoinConfigLines(lines, hadTrailing));
  }

  /** The scan for a section in front of line i: no match yet, or inside the section that starts at
      the first match. */
  ghost predicate SectionScan(lines: Lines, header: string, start: int, i: nat)
    requires i <= |lines|
  {
    if start < 0 then start == -1 && NoMatch(lines[..i], header)
    else start < i && start == FirstMatch(lines, header) && NoHeaders(lines[start + 1..i])
  }

  lemma SectionScanHit(lines: Lines, header: string, i: nat)
    requires i < |lines| && SectionScan(lines, header, -1, i) && MatchHeader(lines[i], header)
    ensures SectionScan(lines, header, i, i + 1)
  {
    FirstMatchIs(lines, i, header);
  }

  lemma SectionScanNext(lines: Lines, header: string, start: int, i: nat)
    requires i < |lines| && SectionScan(lines, header, start, i)
    requires if start < 0 then !MatchHeader(lines[i], header) else !IsHeader(lines[i])
    ensures SectionScan(lines, header, start, i + 1)
  {
    SliceSnoc(lines, if start < 0 then 0 else start + 1, i);
  }

  lemma SectionScanDone(lines: Lines, header: string, start: int, i: nat)
    requires i <= |lines| && SectionScan(lines, header, start, i)
    requires i < |lines| ==> start >= 0 && IsHeader(lines[i])
    ensures start == -1 <==> FromFirst(lines, header) == []
    ensures start != -1 ==>
              start == |Preamble(lines, header)| && i - 1 == start + |Top(FromFirst(lines, header)[1..])|
  {
    if start >= 0 {
      SectionEndIs(lines, start, i);
      SectionNumbers(lines, header, start);
    } else {
      NoMatchNumbers(lines, header);
    }
  }

  /** Where the section starts and ends; start is -1 when there is none. */
  method FindSection(lines: Lines, header: string) returns (start: int, end: int)
    ensures start == -1 <==> FromFirst(lines, header) == []
    ensures start != -1 ==>
              start == |Preamble(lines, header)| && end == start + |Top(FromFirst(lines, header)[1..])|
  {
    start, end := -1, |lines| - 1;
    var i := 0;
    while i < |lines|
      invariant 0 <= i <= |lines| && end == |lines| - 1 && start >= -1
      invariant SectionScan(lines, header, start, i)
    {
      if start < 0 && MatchHeader(lines[i], header) {
        SectionScanHit(lines, header, i);
        start := i;
      } else if start >= 0 && IsHeader(lines[i]) {
        end := i - 1;
        break;
      } else {
        SectionScanNext(lines, header, start, i);
      }
      i := i + 1;
    }
    SectionScanDone(lines, header, start, i);
  }

  lemma NoMatchNumbers(lines: Lines, header: string)
    requires NoMatch(lines[..|lines|], header)
    ensures FromFirst(lines, header) == []
  {
    assert lines[..|lines|] == lines && lines + [] == lines;
    PreambleOver(lines, [], header);
  }

  lemma SectionNumbers(lines: Lines, header: string, s: nat)
    requires s < |lines| && s == FirstMatch(lines, header)
    ensures FromFirst(lines, header) != [] && |Preamble(lines, header)| == s
    ensures SectionEnd(lines, s) == s + 1 + |Top(FromFirst(lines, header)[1..])|
  {
    CutNumbers(lines, header);
    PreambleSplits(lines, header);
    assert lines[s..] == FromFirst(lines, header);
    assert lines[s + 1..] == FromFirst(lines, header)[1..];
    CutNumbers(lines[s + 1..], header);
  }

  lemma FirstMatchIs(lines: Lines, i: nat, header: string)
    requires i < |lines| && MatchHeader(lines[i], header) && NoMatch(lines[..i], header)
    ensures FirstMatch(lines, header) == i
  {
    assert lines == lines[..i] + lines[i..];
    PreambleOver(lines[..i], lines[i..], header);
    CutNumbers(lines, header);
  }

  lemma SectionEndIs(lines: Lines, start: nat, i: nat)
    requires start < i <= |lines| && NoHeaders(lines[start + 1..i]) && AtHeader(lines[i..])
    ensures SectionEnd(lines, start) == i
  {
    var tail := lines[start + 1..];
    assert tail[..i - start - 1] == lines[start + 1..i] && tail[i - start - 1..] == lines[i..];
    FirstHeaderIs(tail, i - start - 1);
  }

  lemma PatchMissing(lines: Lines, header: string, key: string, raw: string)
    requires FromFirst(lines, header) == []
    ensures PatchSection(lines, header, key, raw)
         == Inserted(lines, Clamp(FirstHeader(lines), |lines|), ["", header, KeyLine(key, raw)])
  {
    TopSplits(lines);
    CutNumbers(lines, header);
    assert lines[..|Top(lines)|] == Top(lines) && lines[|Top(lines)|..] == Rest(lines);
    Assoc(Top(lines), ["", header, KeyLine(key, raw)], Rest(lines));
  }

  /** The part of patchSectionField between reading the lines and writing them. */
  method PatchSectionLines(lines: Lines, header: string, key: string, tomlValue: string) returns (out: Lines)
    ensures out == PatchSection(lines, header, key, tomlValue)
  {
    var sectionStart, sectionEnd := FindSection(lines, header);
    if sectionStart < 0 {
      var topEnd := TopEnd(lines);
      var insertAt := topEnd + 1;
      if insertAt < 0 {
        insertAt := 0;
      }
      PatchMissing(lines, header, key, tomlValue);
      out := InsertLines(lines, insertAt, ["", header, KeyLine(key, tomlValue)]);
    } else {
      PatchSectionFound(lines, header, key, tomlValue, sectionStart, sectionEnd);
      out := UpsertTomlRawKey(lines, sectionStart + 1, sectionEnd, key, tomlValue);
    }
  }

  method PatchSectionField(raw: string, section: string, key: string, tomlValue: string) returns (text: string)
    ensures text == PatchedSection(raw, section, key, tomlValue)
  {
    var header := "[" + section + "]";
    var lines := PatchSectionLines(ConfigLines(raw), header, key, tomlValue);
    text := FormatTOML(JoinConfigLines(lines, EndsInNewline(raw)));
  }

  // --- Edited lines stay lines ---

  lemma FreeConcat(a: string, b: string)
    requires Free(a, '\n') && Free(b, '\n')
    ensures Free(a + b, '\n')
  {
  }

  lemma CommentFree(line: string)
    requires Free(line, '\n')
    ensures Free(LineComment(line), '\n') && Free(Tail(LineComment(line)), '\n') && Free(LeadingBlanks(line), '\n')
  {
    var from := line[CommentAt(line, OUTSIDE)..];
    var a, b := TrimSplits(from);
    assert forall i :: 0 <= i < |LineComment(line)| ==> LineComment(line)[i] == from[|a| + i];
    FreeConcat(" ", LineComment(line));
  }

  lemma ReplacedFree(line: string, key: string, raw: string)
    requires Free(line, '\n') && Free(key, '\n') && Free(raw, '\n')
    ensures Free(ReplaceValue(line, key, raw), '\n') && Free(KeyLine(key, raw), '\n')
  {
    CommentFree(line);
    FreeConcat(key, " = ");
    FreeConcat(key + " = ", raw);
    FreeConcat(LeadingBlanks(line), KeyLine(key, raw));
    FreeConcat(LeadingBlanks(line) + KeyLine(key, raw), Tail(LineComment(line)));
  }

  lemma {:induction false} UpsertFree(body: Lines, key: string, raw: string)
    requires AllFree(body, '\n') && Free(key, '\n') && Free(raw, '\n')
    ensures AllFree(UpsertBody(body, key, raw), '\n')
  {
    if body == [] {
      ReplacedFree("", key, raw);
    } else {
      ReplacedFree(body[0], key, raw);
      if !MatchKey(body[0], key) {
        UpsertFree(body[1..], key, raw);
      }
    }
  }

  lemma FreeAppend(a: Lines, b: Lines)
    requires AllFree(a, '\n') && AllFree(b, '\n')
    ensures AllFree(a + b, '\n')
  {
  }

  lemma {:induction false} TopFree(lines: Lines)
    requires AllFree(lines, '\n')
    ensures AllFree(Top(lines), '\n') && AllFree(Rest(lines), '\n')
  {
    if lines != [] && !IsHeader(lines[0]) {
      TopFree(lines[1..]);
    }
  }

  lemma {:induction false} PreambleFree(lines: Lines, header: string)
    requires AllFree(lines, '\n')
    ensures AllFree(Preamble(lines, header), '\n') && AllFree(FromFirst(lines, header), '\n')
  {
    if lines != [] && !MatchHeader(lines[0], header) {
      PreambleFree(lines[1..], header);
    }
  }

  lemma PatchFree(lines: Lines, header: string, key: string, raw: string)
    requires AllFree(lines, '\n') && Free(header, '\n') && Free(key, '\n') && Free(raw, '\n')
    ensures AllFree(PatchSection(lines, header, key, raw), '\n')
    ensures PatchSection(lines, header, key, raw) != []
  {
    PreambleFree(lines, header);
    var from := FromFirst(lines, header);
    if from == [] {
      NewSectionFree(lines, header, key, raw);
    } else {
      TopFree(from[1..]);
      UpsertFree(Top(from[1..]), key, raw);
      FreeAppend(UpsertBody(Top(from[1..]), key, raw), Rest(from[1..]));
      FreeAppend(Preamble(lines, header), [from[0]]);
    }
  }

  lemma NewSectionFree(lines: Lines, header: string, key: string, raw: string)
    requires AllFree(lines, '\n') && Free(header, '\n') && Free(key, '\n') && Free(raw, '\n')
    ensures AllFree(Top(lines) + (["", header, KeyLine(key, raw)] + Rest(lines)), '\n')
  {
    ReplacedFree("", key, raw);
    TopFree(lines);
  }

  lemma PatchTopFree(lines: Lines, key: string, raw: string)
    requires AllFree(lines, '\n') && Free(key, '\n') && Free(raw, '\n')
    ensures AllFree(PatchTop(lines, key, raw), '\n')
    ensures PatchTop(lines, key, raw) != []
  {
    TopFree(lines);
    UpsertFree(Top(lines), key, raw);
  }

  // --- The file after one patch ---

  lemma SectionHeader(section: string)
    requires Free(section, '\n')
    ensures ProperHeader("[" + section + "]") && Free("[" + section + "]", '\n')
  {
  }

  lemma KeyFree(key: string)
    requires ProperKey(key)
    ensures Free(key, '\n')
  {
    assert IsSpace('\n');
  }

  /** The written file, read again, has the value: also after formatting. */
  lemma SectionPatchReads(raw: string, section: string, key: string, tomlValue: string)
    requires Free(section, '\n') && ProperKey(key) && ProperValue(tomlValue) && Free(tomlValue, '\n')
    ensures var text := PatchedSection(raw, section, key, tomlValue);
            Lookup(ConfigLines(text), "[" + section + "]", key) == Some(tomlValue)
  {
    var header := "[" + section + "]";
    SectionHeader(section);
    KeyFree(key);
    ConfigLinesFree(raw);
    PatchFree(ConfigLines(raw), header, key, tomlValue);
    PatchThenLookup(ConfigLines(raw), header, key, tomlValue);
    WrittenReads(PatchSection(ConfigLines(raw), header, key, tomlValue), EndsInNewline(raw), header, key);
  }

  /** The other key is not the patched one: another key of the section, or a key of another section. */
  predicate Elsewhere(lines: Lines, header: string, key: string, other: string, k: string) {
    if other == header then k != key
    else if FromFirst(lines, header) == [] then !MatchHeader(header, other)
    else !SameSection(lines, header, other)
  }

  /** Every other value that the file had, it still has. */
  lemma SectionPatchKeeps(raw: string, section: string, key: string, tomlValue: string, other: string, k: string)
    requires Free(section, '\n') && ProperKey(key) && ProperValue(tomlValue) && Free(tomlValue, '\n')
    requires ProperHeader(other) && ProperKey(k)
    requires Elsewhere(ConfigLines(raw), "[" + section + "]", key, other, k)
    requires Lookup(ConfigLines(raw), other, k).Some?
    ensures var text := PatchedSection(raw, section, key, tomlValue);
            Lookup(ConfigLines(text), other, k) == Lookup(ConfigLines(raw), other, k)
  {
    var header, lines := "[" + section + "]", ConfigLines(raw);
    SectionHeader(section);
    KeyFree(key);
    ConfigLinesFree(raw);
    PatchFree(lines, header, key, tomlValue);
    if other == header {
      PatchOtherKey(lines, header, key, tomlValue, k);
    } else {
      PatchOtherSection(lines, header, key, tomlValue, other, k);
    }
    WrittenReads(PatchSection(lines, header, key, tomlValue), EndsInNewline(raw), other, k);
  }

  /** The keys in front of the first section: the patched one has its new value, every other key reads
      exactly as before, and so does every value inside a section. */
  lemma TopPatchReads(raw: string, key: string, value: string, k: string, header: string)
    requires ProperKey(key) && ProperKey(k) && ProperHeader(header)
    ensures var text := PatchedTop(raw, key, value);
            InSection(ConfigLines(text), k) == if k == key then Some(Quote(value)) else InSection(ConfigLines(raw), k)
    ensures Lookup(ConfigLines(raw), header, k).Some? ==>
              Lookup(ConfigLines(PatchedTop(raw, key, value)), header, k) == Lookup(ConfigLines(raw), header, k)
  {
    var lines := ConfigLines(raw);
    QuoteIsNeutral(value);
    KeyFree(key);
    ConfigLinesFree(raw);
    PatchTopFree(lines, key, Quote(value));
    PatchTopThenRead(lines, key, Quote(value));
    WrittenReadsTop(PatchTop(lines, key, Quote(value)), EndsInNewline(raw), header, k);
    PatchTopKeepsSections(lines, key, Quote(value), header, k);
    if Lookup(lines, header, k).Some? {
      WrittenReads(PatchTop(lines, key, Quote(value)), EndsInNewline(raw), header, k);
    }
  }
}
