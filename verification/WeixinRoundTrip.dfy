/** config/config.go: SaveWeixinPlatformCredentials, from the file to what its next read finds. */
module WeixinRoundTrip {
  import opened Wrappers
  import opened Text
  import opened TomlLine
  import opened TomlString
  import opened SeqFacts
  import opened ConfigSections
  import opened FormatToml
  import opened RawGroups
  import opened ProjectSpans
  import opened ConfigText
  import opened PlatformEdit
  import opened PlatformOptions
  import opened WeixinCredentials
  import opened FormatGroups

  // --- Saving creates no empty header ---

  lemma {:induction false} SectionEmptyGrows(a: Lines, b: Lines)
    requires !SectionEmpty(a)
    ensures !SectionEmpty(a + b)
  {
    assert (a + b)[1..] == a[1..] + b;
    if Blank(a[0]) && !IsHeader(a[0]) {
      SectionEmptyGrows(a[1..], b);
    }
  }

  lemma SetFull(platform: Lines, key: string, raw: string)
    requires platform != [] && HasOptions(platform) && !SectionEmpty(Body(platform))
    ensures !SectionEmpty(Body(SetRaw(platform, key, raw)))
  {
    ProperHeaders();
    HeaderLines(OPTIONS);
    var pre, hdr, section, rest := Cut(Body(platform), OPTIONS);
    SetBody(platform, key, raw);
    PatchGiven(pre, hdr, section, rest, OPTIONS, key, raw);
    Assoc(pre, [hdr], section + rest);
    Assoc(pre, [hdr], UpsertBody(section, key, raw) + rest);
    SectionEmptyStops(pre, [hdr] + (section + rest));
    SectionEmptyStops(pre, [hdr] + (UpsertBody(section, key, raw) + rest));
  }

  lemma {:induction false} SetAllFull(platform: Lines, settings: seq<Setting>)
    requires PlatformShaped(platform) && HasOptions(platform) && !SectionEmpty(Body(platform)) && ProperSettings(settings)
    ensures !SectionEmpty(Body(SetAll(platform, settings)))
  {
    if settings != [] {
      var n := |settings| - 1;
      SetAllFull(platform, settings[..n]);
      SetAllShape(platform, settings[..n]);
      SetFull(SetAll(platform, settings[..n]), settings[n].key, Quote(settings[n].value));
    }
  }

  lemma WithOptionsFull(q: Lines, more: bool)
    requires q != [] && !SectionEmpty(Body(q))
    ensures !SectionEmpty(Body(WithOptions(q, more)))
  {
    if !HasOptions(q) {
      SectionEmptyGrows(q[1..], OptionsBlock(q, more));
      assert (q + OptionsBlock(q, more))[1..] == q[1..] + OptionsBlock(q, more);
    }
  }

  lemma SavedPlatformFull(lines: Lines, i: nat, p: nat, settings: seq<Setting>)
    requires Exists(lines, i, p) && ProperSettings(settings) && PlatformShaped(PlatformAt(lines, i, p))
    requires !SectionEmpty(Body(PlatformAt(lines, i, p)))
    ensures !SectionEmpty(Body(SavedPlatform(lines, i, p, settings)))
  {
    var q, more := PlatformAt(lines, i, p), MoreBehind(lines, i, p);
    WithOptionsShape(q, more);
    WithOptionsFull(q, more);
    SetAllFull(WithOptions(q, more), settings);
  }

  /** Whether a project's header is empty is decided in front of its first platform. */
  lemma ProjectFull(project: Lines)
    ensures SectionEmpty(Body(project)) == SectionEmpty(Preamble(Body(project), PLATFORM))
  {
    ProperHeaders();
    GroupsCover(Body(project), PLATFORM);
    FlatAtHeader(Platforms(project), PLATFORM);
    SectionEmptyStops(Preamble(Body(project), PLATFORM), Flat(Platforms(project)));
  }

  lemma SaveKeepsFull(lines: Lines, i: nat, p: nat, settings: seq<Setting>)
    requires Exists(lines, i, p) && ProperSettings(settings) && NoEmptyArrays(lines)
    ensures NoEmptyArrays(SavedLines(lines, i, p, settings))
  {
    var lines' := SavedLines(lines, i, p, settings);
    SaveFrame(lines, i, p, settings);
    PlatformShape(lines, i, p);
    SavedPlatformFull(lines, i, p, settings);
    ProjectFull(Projects(lines)[i]);
    ProjectFull(Projects(lines')[i]);
    forall k | 0 <= k < |Platforms(Projects(lines')[i])|
      ensures !SectionEmpty(Body(Platforms(Projects(lines')[i])[k]))
    {
      if k == p { assert Platforms(Projects(lines')[i])[k] == PlatformAt(lines', i, p); }
    }
  }

  // --- Saved lines are lines ---

  lemma {:induction false} SetAllFree(platform: Lines, settings: seq<Setting>)
    requires platform != [] && AllFree(platform, '\n') && ProperSettings(settings)
    ensures AllFree(SetAll(platform, settings), '\n')
  {
    if settings != [] {
      var n := |settings| - 1;
      var front, key, raw := SetAll(platform, settings[..n]), settings[n].key, Quote(settings[n].value);
      SetAllFree(platform, settings[..n]);
      QuoteIsNeutral(settings[n].value);
      KeyFree(key);
      OptionsFree();
      PatchFree(Body(front), OPTIONS, key, raw);
      FreeAppend([front[0]], PatchSection(Body(front), OPTIONS, key, raw));
    }
  }

  lemma OptionsFree()
    ensures Free(OPTIONS, '\n')
  {
  }

  lemma SavedPlatformFree(lines: Lines, i: nat, p: nat, settings: seq<Setting>)
    requires Exists(lines, i, p) && PlatformAt(lines, i, p) != [] && AllFree(PlatformAt(lines, i, p), '\n')
    requires ProperSettings(settings)
    ensures AllFree(SavedPlatform(lines, i, p, settings), '\n')
  {
    var q, more := PlatformAt(lines, i, p), MoreBehind(lines, i, p);
    OptionsFree();
    FreeAppend(q, OptionsBlock(q, more));
    SetAllFree(WithOptions(q, more), settings);
  }

  lemma FreeParts(a: Lines, b: Lines)
    requires AllFree(a + b, '\n')
    ensures AllFree(a, '\n') && AllFree(b, '\n')
  {
    assert forall k :: 0 <= k < |a| ==> a[k] == (a + b)[k];
    assert forall k :: 0 <= k < |b| ==> b[k] == (a + b)[|a| + k];
  }

  lemma EditFree(lines: Lines, i: nat, p: nat, q: Lines)
    requires Exists(lines, i, p) && Projects(lines)[i] != [] && AllFree(lines, '\n')
    ensures AllFree(PlatformAt(lines, i, p), '\n')
    ensures AllFree(q, '\n') ==> AllFree(Edit(lines, i, p, q), '\n')
  {
    var a, b := EditAround(lines, i, p, q);
    FreeParts(a + PlatformAt(lines, i, p), b);
    FreeParts(a, PlatformAt(lines, i, p));
    if AllFree(q, '\n') {
      FreeAppend(a, q);
      FreeAppend(a + q, b);
    }
  }

  lemma NoProjectsInNothing()
    ensures Projects([]) == []
  {
  }

  lemma SavedFree(lines: Lines, i: nat, p: nat, settings: seq<Setting>)
    requires Exists(lines, i, p) && AllFree(lines, '\n') && ProperSettings(settings)
    ensures AllFree(SavedLines(lines, i, p, settings), '\n') && SavedLines(lines, i, p, settings) != []
  {
    ProjectShape(lines, i);
    PlatformShape(lines, i, p);
    EditFree(lines, i, p, SavedPlatform(lines, i, p, settings));
    SavedPlatformFree(lines, i, p, settings);
    SaveFrame(lines, i, p, settings);
    NoProjectsInNothing();
  }

  // --- The saved file ---

  function SavedFile(lines: Lines, hadTrailing: bool, i: nat, p: nat, settings: seq<Setting>): Lines
    requires Exists(lines, i, p)
  {
    ConfigLines(Written(SavedLines(lines, i, p, settings), hadTrailing))
  }

  /** Reading the written file back, when no project or platform header of the old file was empty: what
      was saved is there. */
  lemma SavedFileReads(lines: Lines, hadTrailing: bool, i: nat, p: nat, settings: seq<Setting>, k: string)
    requires Exists(lines, i, p) && ProperSettings(settings) && NoEmptyArrays(lines) && AllFree(lines, '\n')
    requires ProperKey(k) && Wanted(settings, k).Some?
    ensures ReadOption(SavedFile(lines, hadTrailing, i, p, settings), i, p, k) == Some(Quote(Wanted(settings, k).value))
  {
    SavedFree(lines, i, p, settings);
    SaveReads(lines, i, p, settings, k);
    SaveKeepsFull(lines, i, p, settings);
    WrittenOption(SavedLines(lines, i, p, settings), hadTrailing, i, p, k);
  }

  /** All projects and platforms are still there. */
  lemma SavedFileShape(lines: Lines, hadTrailing: bool, i: nat, p: nat, settings: seq<Setting>, j: nat)
    requires Exists(lines, i, p) && ProperSettings(settings) && NoEmptyArrays(lines) && AllFree(lines, '\n')
    ensures |Projects(SavedFile(lines, hadTrailing, i, p, settings))| == |Projects(lines)|
    ensures j < |Projects(lines)| ==>
              |Platforms(Projects(SavedFile(lines, hadTrailing, i, p, settings))[j])| == |Platforms(Projects(lines)[j])|
  {
    SaveFrame(lines, i, p, settings);
    SavedFree(lines, i, p, settings);
    SaveKeepsFull(lines, i, p, settings);
    WrittenArrays(SavedLines(lines, i, p, settings), hadTrailing, j);
  }

  lemma SaveKeepsOption(lines: Lines, i: nat, p: nat, settings: seq<Setting>, j: nat, r: nat, k: string)
    requires Exists(lines, i, p) && ProperSettings(settings) && ProperKey(k)
    requires (j, r) != (i, p) || Wanted(settings, k).None?
    ensures ReadOption(SavedLines(lines, i, p, settings), j, r, k) == ReadOption(lines, j, r, k)
  {
    SaveFrame(lines, i, p, settings);
    SaveReads(lines, i, p, settings, k);
  }

  /** Every other value that any platform's options had is still there. */
  lemma SavedFileKeeps(lines: Lines, hadTrailing: bool, i: nat, p: nat, settings: seq<Setting>, j: nat, r: nat, k: string)
    requires Exists(lines, i, p) && ProperSettings(settings) && NoEmptyArrays(lines) && AllFree(lines, '\n')
    requires ProperKey(k) && ((j, r) != (i, p) || Wanted(settings, k).None?)
    ensures ReadOption(lines, j, r, k).Some? ==>
              ReadOption(SavedFile(lines, hadTrailing, i, p, settings), j, r, k) == ReadOption(lines, j, r, k)
  {
    SavedFree(lines, i, p, settings);
    SaveKeepsFull(lines, i, p, settings);
    SaveKeepsOption(lines, i, p, settings, j, r, k);
    if ReadOption(lines, j, r, k).Some? {
      WrittenOption(SavedLines(lines, i, p, settings), hadTrailing, j, r, k);
    }
  }

  // --- The operation, from the text to the text ---

  lemma {:induction false} WantedAppend(a: seq<Setting>, b: seq<Setting>, k: string)
    ensures Wanted(a + b, k) == if Wanted(b, k).Some? then Wanted(b, k) else Wanted(a, k)
  {
    if b == [] {
      assert a + b == a;
    } else {
      assert (a + b)[..|a + b| - 1] == a + b[..|b| - 1];
      WantedAppend(a, b[..|b| - 1], k);
    }
  }

  lemma WantedOne(s: Setting, k: string)
    ensures Wanted([s], k) == if s.key == k then Some(s.value) else None
  {
    assert [s][..0] == [];
  }

  lemma WantedIfGiven(key: string, value: string, k: string)
    ensures Wanted(IfGiven(key, value), k) == if TrimSpace(value) != "" && key == k then Some(TrimSpace(value)) else None
  {
    WantedOne(Setting(key, TrimSpace(value)), k);
  }

  lemma KeysDiffer()
    ensures |{TOKEN, BASE_URL, CDN_BASE_URL, ACCOUNT_ID, ALLOW_FROM}| == 5
    ensures |TOKEN| == 5 && |BASE_URL| == 8 && |CDN_BASE_URL| == 12
    ensures |ACCOUNT_ID| == 10 && |ALLOW_FROM| == 10 && ACCOUNT_ID != ALLOW_FROM
  {
    assert ACCOUNT_ID[1] == 'c' && ALLOW_FROM[1] == 'l';
  }

  /** The value the operation gives a key. */
  function Given(u: Update, allowFrom: string, k: string): Option<string> {
    if k == TOKEN then Some(TrimSpace(u.token))
    else if k == BASE_URL && TrimSpace(u.baseURL) != "" then Some(TrimSpace(u.baseURL))
    else if k == CDN_BASE_URL && TrimSpace(u.cdnBaseURL) != "" then Some(TrimSpace(u.cdnBaseURL))
    else if k == ACCOUNT_ID && TrimSpace(u.accountID) != "" then Some(TrimSpace(u.accountID))
    else if k == ALLOW_FROM && MergesUser(u) then Some(allowFrom)
    else None
  }

  lemma SettingsGive(u: Update, allowFrom: string, k: string)
    ensures Wanted(Settings(u, allowFrom), k) == Given(u, allowFrom, k)
    ensures ProperSettings(Settings(u, allowFrom))
  {
    KeysDiffer();
    KeysProper();
    var s1 := [Setting(TOKEN, TrimSpace(u.token))];
    var s2 := s1 + IfGiven(BASE_URL, u.baseURL);
    var s3 := s2 + IfGiven(CDN_BASE_URL, u.cdnBaseURL);
    var s4 := s3 + IfGiven(ACCOUNT_ID, u.accountID);
    var last := if MergesUser(u) then [Setting(ALLOW_FROM, allowFrom)] else [];
    WantedOne(Setting(TOKEN, TrimSpace(u.token)), k);
    WantedOne(Setting(ALLOW_FROM, allowFrom), k);
    WantedIfGiven(BASE_URL, u.baseURL, k);
    WantedIfGiven(CDN_BASE_URL, u.cdnBaseURL, k);
    WantedIfGiven(ACCOUNT_ID, u.accountID, k);
    WantedAppend(s1, IfGiven(BASE_URL, u.baseURL), k);
    WantedAppend(s2, IfGiven(CDN_BASE_URL, u.cdnBaseURL), k);
    WantedAppend(s3, IfGiven(ACCOUNT_ID, u.accountID), k);
    WantedAppend(s4, last, k);
  }

  lemma SaveUnfold(raw: string, parsed: seq<ParsedProject>, u: Update)
    requires SaveResult(raw, parsed, u).Saved?
    ensures var saved, lines := SaveResult(raw, parsed, u), ConfigLines(raw);
            && Exists(lines, saved.project, saved.platform)
            && saved.text == Written(SavedLines(lines, saved.project, saved.platform, Settings(u, saved.allowFrom)), EndsInNewline(raw))
  {
    var c := Choose(parsed, u);
    assert c.Chosen?;
  }

  /** The whole operation, on a file none of whose project or platform headers is empty. Read back from
      the written text, every option that the update gives has its value. */
  lemma SaveThenRead(raw: string, parsed: seq<ParsedProject>, u: Update, k: string)
    requires SaveResult(raw, parsed, u).Saved? && NoEmptyArrays(ConfigLines(raw)) && ProperKey(k)
    requires Given(u, SaveResult(raw, parsed, u).allowFrom, k).Some?
    ensures var saved := SaveResult(raw, parsed, u);
            ReadOption(ConfigLines(saved.text), saved.project, saved.platform, k)
              == Some(Quote(Given(u, saved.allowFrom, k).value))
  {
    var saved := SaveResult(raw, parsed, u);
    SaveUnfold(raw, parsed, u);
    SettingsGive(u, saved.allowFrom, k);
    ConfigLinesFree(raw);
    SavedFileReads(ConfigLines(raw), EndsInNewline(raw), saved.project, saved.platform, Settings(u, saved.allowFrom), k);
  }

  /** And read as TOML, that text is the value itself if and only if the value has no character whose
      escape the TOML version lacks. */
  lemma SaveThenDecode(raw: string, parsed: seq<ParsedProject>, u: Update, k: string, ver: Version)
    requires SaveResult(raw, parsed, u).Saved? && NoEmptyArrays(ConfigLines(raw)) && ProperKey(k)
    requires Given(u, SaveResult(raw, parsed, u).allowFrom, k).Some?
    ensures var saved := SaveResult(raw, parsed, u);
            var v := Given(u, saved.allowFrom, k).value;
            var found := ReadOption(ConfigLines(saved.text), saved.project, saved.platform, k);
            found.Some? && (Decode(found.value, ver) == Some(v) <==> forall i :: 0 <= i < |v| ==> !Awkward(v[i], ver))
  {
    SaveThenRead(raw, parsed, u, k);
    QuoteRoundTripIff(Given(u, SaveResult(raw, parsed, u).allowFrom, k).value, ver);
  }

  /** Every other value in any platform's options reads as before. */
  lemma SaveKeepsOthers(raw: string, parsed: seq<ParsedProject>, u: Update, j: nat, r: nat, k: string)
    requires SaveResult(raw, parsed, u).Saved? && NoEmptyArrays(ConfigLines(raw)) && ProperKey(k)
    requires ReadOption(ConfigLines(raw), j, r, k).Some?
    requires var saved := SaveResult(raw, parsed, u);
             (j, r) != (saved.project, saved.platform) || Given(u, saved.allowFrom, k).None?
    ensures ReadOption(ConfigLines(SaveResult(raw, parsed, u).text), j, r, k) == ReadOption(ConfigLines(raw), j, r, k)
  {
    var saved := SaveResult(raw, parsed, u);
    SaveUnfold(raw, parsed, u);
    SettingsGive(u, saved.allowFrom, k);
    ConfigLinesFree(raw);
    SavedFileKeeps(ConfigLines(raw), EndsInNewline(raw), saved.project, saved.platform, Settings(u, saved.allowFrom), j, r, k);
  }

  /** The written text has the same projects and platforms. */
  lemma SaveKeepsCounts(raw: string, parsed: seq<ParsedProject>, u: Update, j: nat)
    requires SaveResult(raw, parsed, u).Saved? && NoEmptyArrays(ConfigLines(raw))
    ensures var file, lines := ConfigLines(SaveResult(raw, parsed, u).text), ConfigLines(raw);
            && |Projects(file)| == |Projects(lines)|
            && (j < |Projects(lines)| ==> |Platforms(Projects(file)[j])| == |Platforms(Projects(lines)[j])|)
  {
    var saved := SaveResult(raw, parsed, u);
    SaveUnfold(raw, parsed, u);
    SettingsGive(u, saved.allowFrom, "");
    ConfigLinesFree(raw);
    SavedFileShape(ConfigLines(raw), EndsInNewline(raw), saved.project, saved.platform, Settings(u, saved.allowFrom), j);
  }

  lemma SaveKeepsProjectsFull(lines: Lines, i: nat, p: nat, settings: seq<Setting>)
    requires Exists(lines, i, p) && ProperSettings(settings)
    ensures AllFull(Projects(SavedLines(lines, i, p, settings))) <==> AllFull(Projects(lines))
  {
    var lines' := SavedLines(lines, i, p, settings);
    SaveFrame(lines, i, p, settings);
    ProjectFull(Projects(lines)[i]);
    ProjectFull(Projects(lines')[i]);
    forall j | 0 <= j < |Projects(lines)|
      ensures SectionEmpty(Body(Projects(lines')[j])) == SectionEmpty(Body(Projects(lines)[j]))
    {
      if j != i { assert Projects(lines')[j] == Projects(lines)[j]; }
    }
  }

  /** Without that condition: the written text has as many projects as the old one if and only if no
      project header of the old one was empty. */
  lemma SaveKeepsProjectsIff(raw: string, parsed: seq<ParsedProject>, u: Update)
    requires SaveResult(raw, parsed, u).Saved?
    ensures |Projects(ConfigLines(SaveResult(raw, parsed, u).text))| == |Projects(ConfigLines(raw))|
       <==> AllFull(Projects(ConfigLines(raw)))
  {
    var saved, lines := SaveResult(raw, parsed, u), ConfigLines(raw);
    var settings := Settings(u, saved.allowFrom);
    SaveUnfold(raw, parsed, u);
    SettingsGive(u, saved.allowFrom, "");
    ConfigLinesFree(raw);
    SaveFrame(lines, saved.project, saved.platform, settings);
    SavedFree(lines, saved.project, saved.platform, settings);
    SaveKeepsProjectsFull(lines, saved.project, saved.platform, settings);
    ProperHeaders();
    WrittenCountIff(SavedLines(lines, saved.project, saved.platform, settings), EndsInNewline(raw), PROJECT);
  }
}
