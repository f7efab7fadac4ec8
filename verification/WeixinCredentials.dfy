/** config/config.go: SaveWeixinPlatformCredentials, from configuration and file to what is written. */
module WeixinCredentials {
  import opened Wrappers
  import opened Text
  import opened TomlLine
  import opened TomlString
  import opened ConfigSections
  import opened FormatToml
  import opened RawGroups
  import opened ProjectSpans
  import opened ConfigText
  import opened PlatformEdit
  import opened PlatformOptions
  import AllowFrom

  /** What the TOML library reports about a platform: whether its type is "weixin" but for case and
      surrounding white space, and its allow_from option if that is a string, else the empty string. */
  datatype ParsedPlatform = ParsedPlatform(isWeixin: bool, allowFrom: string)
  datatype ParsedProject = ParsedProject(name: string, platforms: seq<ParsedPlatform>)

  datatype Update = Update(projectName: string, platformIndex: int, token: string, baseURL: string, cdnBaseURL: string,
                           accountID: string, scannedUserID: string, setAllowFromEmpty: bool)

  datatype Failure = NoProjectName | NoToken | NegativeIndex | ProjectNotFound | NoWeixinPlatform | IndexOutOfRange
                   | ProjectNotInText | PlatformNotInText

  datatype Result = Failed(why: Failure) | Saved(text: string, project: nat, platform: nat, allowFrom: string)

  // --- Which platform ---

  function FirstNamed(parsed: seq<ParsedProject>, name: string): (i: nat)
    ensures i <= |parsed|
    ensures i < |parsed| ==> parsed[i].name == name
    ensures forall j :: 0 <= j < i ==> parsed[j].name != name
  {
    if parsed == [] || parsed[0].name == name then 0 else 1 + FirstNamed(parsed[1..], name)
  }

  /** The indices of the Weixin platforms among the first n. */
  function WeixinIndices(platforms: seq<ParsedPlatform>, n: nat): (r: seq<nat>)
    requires n <= |platforms|
    ensures forall k :: 0 <= k < |r| ==> r[k] < n && platforms[r[k]].isWeixin
  {
    if n == 0 then [] else WeixinIndices(platforms, n - 1) + if platforms[n - 1].isWeixin then [n - 1] else []
  }

  datatype Choice = Chosen(project: nat, platform: nat) | NotChosen(why: Failure)

  function Choose(parsed: seq<ParsedProject>, u: Update): Choice {
    if TrimSpace(u.projectName) == "" then NotChosen(NoProjectName)
    else if TrimSpace(u.token) == "" then NotChosen(NoToken)
    else if u.platformIndex < 0 then NotChosen(NegativeIndex)
    else
      var i := FirstNamed(parsed, u.projectName);
      if i == |parsed| then NotChosen(ProjectNotFound)
      else
        var candidates := WeixinIndices(parsed[i].platforms, |parsed[i].platforms|);
        var pos := if u.platformIndex > 0 then u.platformIndex - 1 else 0;
        if candidates == [] then NotChosen(NoWeixinPlatform)
        else if pos >= |candidates| then NotChosen(IndexOutOfRange)
        else Chosen(i, candidates[pos])
  }

  method ChoosePlatform(parsed: seq<ParsedProject>, u: Update) returns (c: Choice)
    ensures c == Choose(parsed, u)
    ensures c.Chosen? ==> c.project < |parsed| && c.platform < |parsed[c.project].platforms|
  {
    if TrimSpace(u.projectName) == "" {
      return NotChosen(NoProjectName);
    }
    if TrimSpace(u.token) == "" {
      return NotChosen(NoToken);
    }
    if u.platformIndex < 0 {
      return NotChosen(NegativeIndex);
    }
    var i := 0;
    while i < |parsed|
      invariant 0 <= i <= FirstNamed(parsed, u.projectName)
    {
      if parsed[i].name == u.projectName {
        break;
      }
      i := i + 1;
    }
    if i == |parsed| {
      return NotChosen(ProjectNotFound);
    }
    var platforms := parsed[i].platforms;
    var candidates: seq<nat> := [];
    var k := 0;
    while k < |platforms|
      invariant 0 <= k <= |platforms|
      invariant candidates == WeixinIndices(platforms, k)
    {
      if platforms[k].isWeixin {
        candidates := candidates + [k];
      }
      k := k + 1;
    }
    if |candidates| == 0 {
      return NotChosen(NoWeixinPlatform);
    }
    var targetPos := 0;
    if u.platformIndex > 0 {
      targetPos := u.platformIndex - 1;
    }
    if targetPos < 0 || targetPos >= |candidates| {
      return NotChosen(IndexOutOfRange);
    }
    c := Chosen(i, candidates[targetPos]);
  }

  // --- What is written ---

  const TOKEN: string := "token"
  const BASE_URL: string := "base_url"
  const CDN_BASE_URL: string := "cdn_base_url"
  const ACCOUNT_ID: string := "account_id"
  const ALLOW_FROM: string := "allow_from"

  predicate MergesUser(u: Update) {
    u.setAllowFromEmpty && TrimSpace(u.scannedUserID) != ""
  }

  function NewAllowFrom(current: string, u: Update): string {
    if MergesUser(u) then AllowFrom.Merged(TrimSpace(current), TrimSpace(u.scannedUserID)) else TrimSpace(current)
  }

  function IfGiven(key: string, value: string): seq<Setting> {
    if TrimSpace(value) != "" then [Setting(key, TrimSpace(value))] else []
  }

  function Connection(u: Update): seq<Setting> {
    [Setting(TOKEN, TrimSpace(u.token))] + IfGiven(BASE_URL, u.baseURL) + IfGiven(CDN_BASE_URL, u.cdnBaseURL)
  }

  function Settings(u: Update, allowFrom: string): seq<Setting> {
    Connection(u) + IfGiven(ACCOUNT_ID, u.accountID)
    + if MergesUser(u) then [Setting(ALLOW_FROM, allowFrom)] else []
  }

  /** Behind the platform comes another line that is not blank. */
  predicate MoreBehind(lines: Lines, i: nat, p: nat)
    requires Exists(lines, i, p)
  {
    var at := StartLine(lines, i, p) + |PlatformAt(lines, i, p)|;
    at < |lines| && !Blank(lines[at])
  }

  function SavedPlatform(lines: Lines, i: nat, p: nat, settings: seq<Setting>): Lines
    requires Exists(lines, i, p) && PlatformAt(lines, i, p) != []
  {
    SetAll(WithOptions(PlatformAt(lines, i, p), MoreBehind(lines, i, p)), settings)
  }

  // --- The edits, one line number at a time ---

  ghost predicate SpanIs(lines: Lines, i: nat, p: nat, span: PlatformSpan) {
    Exists(lines, i, p) && span == PlatformSpanOf(PlatformAt(lines, i, p), StartLine(lines, i, p))
  }

  /** Rebuilding the spans: the indices are in range whenever the platform exists. */
  method ReloadSpan(lines: Lines, i: nat, p: nat) returns (span: PlatformSpan)
    requires Exists(lines, i, p)
    ensures SpanIs(lines, i, p, span)
  {
    var spans := BuildRawProjectSpans(lines);
    SpanAt(lines, i, p);
    span := spans[i].platforms[p];
  }

  /** `lines` is the file with its platform's options created and some settings written. */
  ghost predicate Progress(base: Lines, i: nat, p: nat, q: Lines, settings: seq<Setting>, lines: Lines, span: PlatformSpan) {
    && Exists(base, i, p) && Projects(base)[i] != []
    && PlatformShaped(q) && HasOptions(q) && ProperSettings(settings)
    && lines == Edit(base, i, p, SetAll(q, settings))
    && SpanIs(lines, i, p, span)
  }

  lemma ProgressPlatform(base: Lines, i: nat, p: nat, q: Lines, settings: seq<Setting>, lines: Lines, span: PlatformSpan)
    requires Progress(base, i, p, q, settings, lines, span)
    ensures PlatformAt(lines, i, p) == SetAll(q, settings) && Projects(lines)[i] != []
    ensures PlatformShaped(SetAll(q, settings)) && HasOptions(SetAll(q, settings))
  {
    SetAllShape(q, settings);
    EditTwice(base, i, p, SetAll(q, settings), SetAll(q, settings));
  }

  lemma UpsertIsEdit(lines: Lines, i: nat, p: nat, q: Lines, from: int, end: int, key: string, raw: string)
    requires Exists(lines, i, p) && Projects(lines)[i] != [] && q == PlatformAt(lines, i, p) && q != [] && HasOptions(q)
    requires from == PlatformSpanOf(q, StartLine(lines, i, p)).optionsStart + 1
    requires end == PlatformSpanOf(q, StartLine(lines, i, p)).optionsEnd
    ensures UpsertAt(lines, from, end, key, raw) == Edit(lines, i, p, SetRaw(q, key, raw))
  {
    var a, b := EditAround(lines, i, p, SetRaw(q, key, raw));
    UpsertIsSet(a, q, b, from, end, key, raw);
  }

  lemma SetAllSnoc(q: Lines, settings: seq<Setting>, setting: Setting)
    requires q != []
    ensures SetAll(q, settings + [setting]) == SetRaw(SetAll(q, settings), setting.key, Quote(setting.value))
  {
    assert (settings + [setting])[..|settings|] == settings;
  }

  lemma ProgressStep(base: Lines, i: nat, p: nat, q: Lines, settings: seq<Setting>, lines: Lines, span: PlatformSpan, setting: Setting)
    requires Progress(base, i, p, q, settings, lines, span) && ProperKey(setting.key)
    ensures var lines' := UpsertAt(lines, span.optionsStart + 1, span.optionsEnd, setting.key, Quote(setting.value));
            lines' == Edit(base, i, p, SetAll(q, settings + [setting])) && Exists(lines', i, p)
    ensures ProperSettings(settings + [setting])
  {
    var was := SetAll(q, settings);
    var raw := Quote(setting.value);
    ProgressPlatform(base, i, p, q, settings, lines, span);
    UpsertIsEdit(lines, i, p, was, span.optionsStart + 1, span.optionsEnd, setting.key, raw);
    SetAllSnoc(q, settings, setting);
    EditTwice(base, i, p, was, SetRaw(was, setting.key, raw));
    QuoteIsNeutral(setting.value);
    SetShape(was, setting.key, raw);
    EditTwice(base, i, p, SetRaw(was, setting.key, raw), was);
  }

  /** One upsert and the span reload behind it. */
  method WriteOption(lines: Lines, i: nat, p: nat, span: PlatformSpan, key: string, value: string,
                     ghost base: Lines, ghost q: Lines, ghost settings: seq<Setting>)
      returns (lines': Lines, span': PlatformSpan)
    requires Progress(base, i, p, q, settings, lines, span) && ProperKey(key)
    ensures Progress(base, i, p, q, settings + [Setting(key, value)], lines', span')
  {
    ProgressStep(base, i, p, q, settings, lines, span, Setting(key, value));
    lines' := UpsertTomlStringKey(lines, span.optionsStart + 1, span.optionsEnd, key, value);
    span' := ReloadSpan(lines', i, p);
  }

  /** One of the optional settings. */
  method WriteIfGiven(lines: Lines, i: nat, p: nat, span: PlatformSpan, key: string, value: string,
                      ghost base: Lines, ghost q: Lines, ghost settings: seq<Setting>)
      returns (lines': Lines, span': PlatformSpan)
    requires Progress(base, i, p, q, settings, lines, span) && ProperKey(key)
    ensures Progress(base, i, p, q, settings + IfGiven(key, value), lines', span')
  {
    assert settings + [] == settings;
    lines', span' := lines, span;
    if TrimSpace(value) != "" {
      lines', span' := WriteOption(lines, i, p, span, key, TrimSpace(value), base, q, settings);
    }
  }

  /** The lines to insert when the options section is missing. */
  method NewOptions(lines: Lines, insertAt: int) returns (block: Lines)
    requires 0 < insertAt <= |lines|
    ensures block == (if Blank(lines[insertAt - 1]) then [] else [""])
                     + ([OPTIONS] + if insertAt < |lines| && !Blank(lines[insertAt]) then [""] else [])
  {
    block := [];
    if insertAt > 0 && TrimSpace(lines[insertAt - 1]) != "" {
      block := block + [""];
    }
    block := block + [OPTIONS];
    if insertAt < |lines| && TrimSpace(lines[insertAt]) != "" {
      block := block + [""];
    }
  }

  lemma ProgressStarts(lines: Lines, i: nat, p: nat, lines': Lines)
    requires Exists(lines, i, p) && Projects(lines)[i] != [] && PlatformShaped(PlatformAt(lines, i, p))
    requires lines' == Edit(lines, i, p, WithOptions(PlatformAt(lines, i, p), MoreBehind(lines, i, p)))
    ensures Exists(lines', i, p)
    ensures forall span :: SpanIs(lines', i, p, span) ==>
              Progress(lines, i, p, WithOptions(PlatformAt(lines, i, p), MoreBehind(lines, i, p)), [], lines', span)
  {
    var q := PlatformAt(lines, i, p);
    WithOptionsShape(q, MoreBehind(lines, i, p));
    EditTwice(lines, i, p, WithOptions(q, MoreBehind(lines, i, p)), q);
  }

  /** Inserting behind a platform is exchanging it for the longer one. */
  lemma InsertIsEdit(lines: Lines, i: nat, p: nat, q: Lines, block: Lines, at: int)
    requires Exists(lines, i, p) && Projects(lines)[i] != [] && q == PlatformAt(lines, i, p) && q != []
    requires at == StartLine(lines, i, p) + |q|
    ensures 0 < at <= |lines| && lines[at - 1] == q[|q| - 1]
    ensures Inserted(lines, at, block) == Edit(lines, i, p, q + block)
  {
    var a, b := EditAround(lines, i, p, q + block);
    InsertBetween(a, q, b, block);
  }

  lemma InsertBetween(a: Lines, q: Lines, b: Lines, block: Lines)
    requires q != []
    ensures (a + q + b)[|a| + |q| - 1] == q[|q| - 1]
    ensures Inserted(a + q + b, |a| + |q|, block) == a + (q + block) + b
  {
    assert (a + q + b)[..|a| + |q|] == a + q && (a + q + b)[|a| + |q|..] == b;
    assert a + q + block == a + (q + block);
  }

  lemma SameIsEdit(lines: Lines, i: nat, p: nat)
    requires Exists(lines, i, p) && Projects(lines)[i] != []
    ensures Edit(lines, i, p, PlatformAt(lines, i, p)) == lines
  {
    var a, b := EditAround(lines, i, p, PlatformAt(lines, i, p));
  }

  /** The options section, created at the end of the platform if it is missing. */
  method EnsureOptions(lines: Lines, i: nat, p: nat, span: PlatformSpan) returns (lines': Lines, span': PlatformSpan)
    requires SpanIs(lines, i, p, span) && Projects(lines)[i] != [] && PlatformShaped(PlatformAt(lines, i, p))
    ensures Progress(lines, i, p, WithOptions(PlatformAt(lines, i, p), MoreBehind(lines, i, p)), [], lines', span')
  {
    lines', span' := lines, span;
    SpanLines(lines, i, p, span);
    if span.optionsStart < 0 {
      var block := NewOptions(lines, span.end + 1);
      BlockCreates(lines, i, p, span.end + 1, block);
      lines' := InsertLines(lines, span.end + 1, block);
      ProgressStarts(lines, i, p, lines');
      span' := ReloadSpan(lines', i, p);
    } else {
      SameIsEdit(lines, i, p);
      ProgressStarts(lines, i, p, lines);
    }
  }

  lemma SpanLines(lines: Lines, i: nat, p: nat, span: PlatformSpan)
    requires SpanIs(lines, i, p, span) && Projects(lines)[i] != [] && PlatformAt(lines, i, p) != []
    ensures span.end + 1 == StartLine(lines, i, p) + |PlatformAt(lines, i, p)| && 0 < span.end + 1 <= |lines|
    ensures span.optionsStart < 0 <==> !HasOptions(PlatformAt(lines, i, p))
  {
    InsertIsEdit(lines, i, p, PlatformAt(lines, i, p), [], span.end + 1);
  }

  lemma BlockCreates(lines: Lines, i: nat, p: nat, at: int, block: Lines)
    requires Exists(lines, i, p) && Projects(lines)[i] != [] && PlatformAt(lines, i, p) != []
    requires !HasOptions(PlatformAt(lines, i, p))
    requires at == StartLine(lines, i, p) + |PlatformAt(lines, i, p)| && 0 < at <= |lines|
    requires block == (if Blank(lines[at - 1]) then [] else [""])
                      + ([OPTIONS] + if at < |lines| && !Blank(lines[at]) then [""] else [])
    ensures Inserted(lines, at, block) == Edit(lines, i, p, WithOptions(PlatformAt(lines, i, p), MoreBehind(lines, i, p)))
  {
    InsertIsEdit(lines, i, p, PlatformAt(lines, i, p), block, at);
  }

  lemma KeysProper()
    ensures ProperKey(TOKEN) && ProperKey(BASE_URL) && ProperKey(CDN_BASE_URL) && ProperKey(ACCOUNT_ID) && ProperKey(ALLOW_FROM)
  {
  }

  /** The token and the addresses. */
  method WriteConnection(lines: Lines, i: nat, p: nat, span: PlatformSpan, u: Update, ghost base: Lines, ghost q: Lines)
      returns (out: Lines, span': PlatformSpan)
    requires Progress(base, i, p, q, [], lines, span)
    ensures Progress(base, i, p, q, Connection(u), out, span')
  {
    KeysProper();
    ghost var s1 := [Setting(TOKEN, TrimSpace(u.token))];
    assert [] + s1 == s1;
    out, span' := WriteOption(lines, i, p, span, TOKEN, TrimSpace(u.token), base, q, []);
    out, span' := WriteIfGiven(out, i, p, span', BASE_URL, u.baseURL, base, q, s1);
    out, span' := WriteIfGiven(out, i, p, span', CDN_BASE_URL, u.cdnBaseURL, base, q, s1 + IfGiven(BASE_URL, u.baseURL));
  }

  /** Token, addresses, account and user list, in this order. */
  method WriteSettings(lines: Lines, i: nat, p: nat, span: PlatformSpan, u: Update, allowFrom: string,
                       ghost base: Lines, ghost q: Lines)
      returns (out: Lines)
    requires Progress(base, i, p, q, [], lines, span)
    ensures Exists(base, i, p) && Projects(base)[i] != [] && q != []
    ensures out == Edit(base, i, p, SetAll(q, Settings(u, allowFrom)))
  {
    KeysProper();
    ghost var settings := Connection(u) + IfGiven(ACCOUNT_ID, u.accountID);
    var span' := span;
    out, span' := WriteConnection(lines, i, p, span, u, base, q);
    out, span' := WriteIfGiven(out, i, p, span', ACCOUNT_ID, u.accountID, base, q, Connection(u));
    if u.setAllowFromEmpty && TrimSpace(u.scannedUserID) != "" {
      out, span' := WriteOption(out, i, p, span', ALLOW_FROM, allowFrom, base, q, settings);
    } else {
      assert settings + [] == settings;
    }
  }

  /** The line-editing part: None when the raw text has no such platform. */
  method SaveLines(base: Lines, i: nat, p: nat, u: Update, allowFrom: string) returns (r: Option<Lines>)
    ensures r.Some? <==> Exists(base, i, p)
    ensures r.Some? ==> Projects(base)[i] != [] && PlatformAt(base, i, p) != []
                        && r.value == Edit(base, i, p, SavedPlatform(base, i, p, Settings(u, allowFrom)))
  {
    var spans := BuildRawProjectSpans(base);
    SpanAt(base, i, p);
    if i >= |spans| {
      return None;
    }
    if p >= |spans[i].platforms| {
      return None;
    }
    ProjectShape(base, i);
    PlatformShape(base, i, p);
    ghost var q := WithOptions(PlatformAt(base, i, p), MoreBehind(base, i, p));
    var lines, span := EnsureOptions(base, i, p, spans[i].platforms[p]);
    lines := WriteSettings(lines, i, p, span, u, allowFrom, base, q);
    r := Some(lines);
  }

  /** What the whole operation returns. */
  function SaveResult(raw: string, parsed: seq<ParsedProject>, u: Update): Result {
    match Choose(parsed, u)
    case NotChosen(why) => Failed(why)
    case Chosen(i, p) =>
      var lines := ConfigLines(raw);
      var allowFrom := NewAllowFrom(CurrentAllowFrom(parsed, i, p), u);
      if i >= |Projects(lines)| then Failed(ProjectNotInText)
      else if !Exists(lines, i, p) then Failed(PlatformNotInText)
      else Saved(Written(SavedLines(lines, i, p, Settings(u, allowFrom)), EndsInNewline(raw)), i, p, allowFrom)
  }

  function CurrentAllowFrom(parsed: seq<ParsedProject>, i: nat, p: nat): string {
    if i < |parsed| && p < |parsed[i].platforms| then parsed[i].platforms[p].allowFrom else ""
  }

  function SavedLines(lines: Lines, i: nat, p: nat, settings: seq<Setting>): Lines
    requires Exists(lines, i, p)
  {
    ProjectShape(lines, i);
    PlatformShape(lines, i, p);
    Edit(lines, i, p, SavedPlatform(lines, i, p, settings))
  }

  method SaveWeixinPlatformCredentials(raw: string, parsed: seq<ParsedProject>, u: Update) returns (r: Result)
    ensures r == SaveResult(raw, parsed, u)
  {
    var c := ChoosePlatform(parsed, u);
    if c.NotChosen? {
      return Failed(c.why);
    }
    var allowFrom := TrimSpace(parsed[c.project].platforms[c.platform].allowFrom);
    if u.setAllowFromEmpty && TrimSpace(u.scannedUserID) != "" {
      allowFrom := AllowFrom.Merge(allowFrom, TrimSpace(u.scannedUserID));
    }
    var lines := ConfigLines(raw);
    var saved := SaveLines(lines, c.project, c.platform, u, allowFrom);
    if saved.None? {
      return Failed(if c.project >= |Projects(lines)| then ProjectNotInText else PlatformNotInText);
    }
    var text := FormatTOML(JoinConfigLines(saved.value, EndsInNewline(raw)));
    r := Saved(text, c.project, c.platform, allowFrom);
  }

  // --- What the operation does ---

  /** The file keeps its projects and platforms: their number, the lines in front of the first project,
      every line of every other project and of every other platform; and the spans that the operation
      rebuilds after each step stay in range. */
  lemma SaveFrame(lines: Lines, i: nat, p: nat, settings: seq<Setting>)
    requires Exists(lines, i, p) && ProperSettings(settings)
    ensures SameElsewhere(lines, SavedLines(lines, i, p, settings), i, p)
    ensures Exists(SavedLines(lines, i, p, settings), i, p) && PlatformAt(lines, i, p) != []
    ensures PlatformAt(SavedLines(lines, i, p, settings), i, p) == SavedPlatform(lines, i, p, settings)
  {
    ProjectShape(lines, i);
    PlatformShape(lines, i, p);
    var q := PlatformAt(lines, i, p);
    WithOptionsShape(q, MoreBehind(lines, i, p));
    SetAllShape(WithOptions(q, MoreBehind(lines, i, p)), settings);
    EditFrame(lines, i, p, SavedPlatform(lines, i, p, settings));
  }

  /** Every option that was written reads back; every other option reads as before. */
  lemma SaveReads(lines: Lines, i: nat, p: nat, settings: seq<Setting>, k: string)
    requires Exists(lines, i, p) && ProperSettings(settings) && ProperKey(k)
    ensures ReadOption(SavedLines(lines, i, p, settings), i, p, k)
         == if Wanted(settings, k).Some? then Some(Quote(Wanted(settings, k).value)) else ReadOption(lines, i, p, k)
  {
    SaveFrame(lines, i, p, settings);
    ProperHeaders();
    PlatformShape(lines, i, p);
    var q := PlatformAt(lines, i, p);
    WithOptionsReads(q, MoreBehind(lines, i, p), OPTIONS, k);
    SetAllReads(WithOptions(q, MoreBehind(lines, i, p)), settings, k);
  }

  /** The platform's own keys, and the keys of any other section among its lines, read as before. */
  lemma SaveKeepsPlatform(lines: Lines, i: nat, p: nat, settings: seq<Setting>, other: string, d: nat, k: string)
    requires Exists(lines, i, p) && ProperSettings(settings) && ProperKey(k)
    requires ProperHeader(other) && d < |other| && d < |OPTIONS| && other[d] != OPTIONS[d]
    ensures var lines' := SavedLines(lines, i, p, settings);
            && Exists(lines', i, p)
            && InSection(Body(PlatformAt(lines', i, p)), k) == InSection(Body(PlatformAt(lines, i, p)), k)
            && Lookup(Body(PlatformAt(lines', i, p)), other, k) == Lookup(Body(PlatformAt(lines, i, p)), other, k)
  {
    SaveFrame(lines, i, p, settings);
    PlatformShape(lines, i, p);
    var q := PlatformAt(lines, i, p);
    WithOptionsShape(q, MoreBehind(lines, i, p));
    WithOptionsReads(q, MoreBehind(lines, i, p), other, k);
    SetAllFrame(WithOptions(q, MoreBehind(lines, i, p)), settings, other, d, k);
  }
}
