/** config/config.go: writing into the options section of one platform, and reading the written
    options back. */
module PlatformOptions {
  import opened Wrappers
  import opened SeqFacts
  import opened Text
  import opened TomlLine
  import opened TomlString
  import opened ConfigSections
  import opened RawGroups
  import opened ProjectSpans
  import opened ConfigText
  import opened PlatformEdit

  predicate HasOptions(platform: Lines) {
    FromFirst(Body(platform), OPTIONS) != []
  }

  /** The options of platform p of project i. */
  function ReadOption(lines: Lines, i: nat, p: nat, k: string): Option<string> {
    if Exists(lines, i, p) then Lookup(Body(PlatformAt(lines, i, p)), OPTIONS, k) else None
  }

  /** The block that is appended when a platform has no options section. */
  function OptionsBlock(platform: Lines, more: bool): Lines
    requires platform != []
  {
    (if Blank(platform[|platform| - 1]) then [] else [""]) + ([OPTIONS] + if more then [""] else [])
  }

  function WithOptions(platform: Lines, more: bool): Lines
    requires platform != []
  {
    if HasOptions(platform) then platform else platform + OptionsBlock(platform, more)
  }

  function SetRaw(platform: Lines, key: string, raw: string): (r: Lines)
    requires platform != []
    ensures r != []
  {
    [platform[0]] + PatchSection(Body(platform), OPTIONS, key, raw)
  }

  datatype Setting = Setting(key: string, value: string)

  /** All settings, written one after the other. */
  function SetAll(platform: Lines, settings: seq<Setting>): (r: Lines)
    requires platform != []
    ensures r != []
  {
    if settings == [] then platform
    else
      var n := |settings| - 1;
      SetRaw(SetAll(platform, settings[..n]), settings[n].key, Quote(settings[n].value))
  }

  // --- Shapes ---

  lemma SetBody(platform: Lines, key: string, raw: string)
    requires platform != []
    ensures Body(SetRaw(platform, key, raw)) == PatchSection(Body(platform), OPTIONS, key, raw)
  {
    assert ([platform[0]] + PatchSection(Body(platform), OPTIONS, key, raw))[1..] == PatchSection(Body(platform), OPTIONS, key, raw);
  }

  lemma HeadersAreNot(lines: Lines, header: string)
    requires NoHeaders(lines) && ProperHeader(header)
    ensures NoMatch(lines, header)
  {
    HeaderLines(header);
  }

  /** A patch of an existing section brings in no header line and leaves the section where it is. */
  lemma PatchNoMatch(body: Lines, header: string, key: string, raw: string, other: string)
    requires FromFirst(body, header) != [] && NoMatch(body, other) && ProperHeader(other)
    requires ProperKey(key) && ProperValue(raw)
    ensures NoMatch(PatchSection(body, header, key, raw), other)
    ensures FromFirst(PatchSection(body, header, key, raw), header) != []
  {
    var pre, hdr, section, rest := Cut(body, header);
    PatchGiven(pre, hdr, section, rest, header, key, raw);
    UpsertKeepsNoHeaders(section, key, raw);
    HeadersAreNot(UpsertBody(section, key, raw), other);
    NoMatchParts(pre + [hdr], section + rest, other);
    NoMatchParts(section, rest, other);
    NoMatchParts(UpsertBody(section, key, raw), rest, other);
    NoMatchParts(pre + [hdr], UpsertBody(section, key, raw) + rest, other);
    DocCuts(pre, hdr, UpsertBody(section, key, raw) + rest, header);
  }

  lemma SetShape(platform: Lines, key: string, raw: string)
    requires PlatformShaped(platform) && HasOptions(platform) && ProperKey(key) && ProperValue(raw)
    ensures PlatformShaped(SetRaw(platform, key, raw)) && HasOptions(SetRaw(platform, key, raw))
  {
    ProperHeaders();
    var body := Body(platform);
    SetBody(platform, key, raw);
    assert platform == [platform[0]] + body;
    NoMatchParts([platform[0]], body, PROJECT);
    PatchNoMatch(body, OPTIONS, key, raw, PLATFORM);
    PatchNoMatch(body, OPTIONS, key, raw, PROJECT);
    NoMatchParts([platform[0]], PatchSection(body, OPTIONS, key, raw), PROJECT);
  }

  lemma BlockMatches(platform: Lines, more: bool)
    requires platform != []
    ensures NoMatch(OptionsBlock(platform, more), PROJECT) && NoMatch(OptionsBlock(platform, more), PLATFORM)
    ensures !NoMatch(OptionsBlock(platform, more), OPTIONS)
  {
    ProperHeaders();
    BlankLine(PROJECT);
    BlankLine(PLATFORM);
    HeaderLines(OPTIONS);
    HeadersExclusive(OPTIONS);
    var block := OptionsBlock(platform, more);
    assert block[if Blank(platform[|platform| - 1]) then 0 else 1] == OPTIONS;
  }

  lemma SomeMatch(lines: Lines, header: string)
    requires !NoMatch(lines, header)
    ensures FromFirst(lines, header) != []
  {
    PreambleSplits(lines, header);
    assert Preamble(lines, header) + [] == Preamble(lines, header);
  }

  lemma WithOptionsShape(platform: Lines, more: bool)
    requires PlatformShaped(platform)
    ensures PlatformShaped(WithOptions(platform, more)) && HasOptions(WithOptions(platform, more))
  {
    if !HasOptions(platform) {
      var block := OptionsBlock(platform, more);
      BlockMatches(platform, more);
      NoMatchParts(platform, block, PROJECT);
      assert (platform + block)[1..] == platform[1..] + block;
      NoMatchParts(platform[1..], block, PLATFORM);
      NoMatchParts(platform[1..], block, OPTIONS);
      SomeMatch(platform[1..] + block, OPTIONS);
    }
  }

  // --- From the line numbers of the span to the platform ---

  /** The platform cut at its options section, and the section's place. */
  lemma OptionsParts(platform: Lines, start: int, key: string, raw: string)
      returns (pre: Lines, hdr: string, section: Lines, rest: Lines)
    requires platform != [] && HasOptions(platform)
    ensures platform == [platform[0]] + Doc(pre, hdr, section + rest)
    ensures SetRaw(platform, key, raw) == [platform[0]] + Doc(pre, hdr, UpsertBody(section, key, raw) + rest)
    ensures PlatformSpanOf(platform, start).optionsStart == start + 1 + |pre|
    ensures PlatformSpanOf(platform, start).optionsEnd == start + 1 + |pre| + |section|
  {
    var body := Body(platform);
    pre, hdr, section, rest := Cut(body, OPTIONS);
    PatchGiven(pre, hdr, section, rest, OPTIONS, key, raw);
    DocCuts(pre, hdr, section + rest, OPTIONS);
    assert ([hdr] + (section + rest))[1..] == section + rest;
    TopOver(section, rest);
  }

  lemma Regroup<T>(a: seq<T>, h: T, x: seq<T>, d: T, y: seq<T>, z: seq<T>, b: seq<T>)
    ensures a + ([h] + (x + [d] + (y + z))) + b == (a + [h] + x + [d]) + (y + (z + b))
  {
  }

  /** Upserting between the options header and the end of its section is setting the option. */
  lemma UpsertIsSet(a: Lines, platform: Lines, b: Lines, from: int, end: int, key: string, raw: string)
    requires platform != [] && HasOptions(platform)
    requires from == PlatformSpanOf(platform, |a|).optionsStart + 1 && end == PlatformSpanOf(platform, |a|).optionsEnd
    ensures UpsertAt(a + platform + b, from, end, key, raw) == a + SetRaw(platform, key, raw) + b
  {
    var pre, hdr, section, rest := OptionsParts(platform, |a|, key, raw);
    Regroup(a, platform[0], pre, hdr, section, rest, b);
    Regroup(a, platform[0], pre, hdr, UpsertBody(section, key, raw), rest, b);
    UpsertInside(a + [platform[0]] + pre + [hdr], section, rest + b, from, end, key, raw);
  }

  // --- What is read afterwards ---

  lemma {:induction false} InSectionAppend(body: Lines, block: Lines, k: string)
    requires InSection(block, k) == None
    ensures InSection(body + block, k) == InSection(body, k)
  {
    if body == [] {
      assert body + block == block;
    } else {
      assert (body + block)[1..] == body[1..] + block;
      InSectionAppend(body[1..], block, k);
    }
  }

  lemma {:induction false} LookupAppend(body: Lines, block: Lines, header: string, k: string)
    requires InSection(block, k) == None && Lookup(block, header, k) == None
    ensures Lookup(body + block, header, k) == Lookup(body, header, k)
  {
    if body == [] {
      assert body + block == block;
    } else {
      assert (body + block)[1..] == body[1..] + block;
      InSectionAppend(body[1..], block, k);
      LookupAppend(body[1..], block, header, k);
    }
  }

  lemma SkipBlankLine(rest: Lines, header: string, k: string)
    requires ProperHeader(header)
    ensures InSection([""] + rest, k) == InSection(rest, k) && Lookup([""] + rest, header, k) == Lookup(rest, header, k)
  {
    BlankLine(header);
    TrimTrimmed("");
    assert ([""] + rest)[1..] == rest;
  }

  /** The appended block holds no value, under any header. */
  lemma BlockHoldsNothing(platform: Lines, more: bool, header: string, k: string)
    requires platform != [] && ProperHeader(header)
    ensures InSection(OptionsBlock(platform, more), k) == None && Lookup(OptionsBlock(platform, more), header, k) == None
  {
    ProperHeaders();
    HeaderLines(OPTIONS);
    var tail: Lines := if more then [""] else [];
    if more {
      SkipBlankLine([], header, k);
      assert [""] + [] == [""];
    }
    assert ([OPTIONS] + tail)[1..] == tail;
    SkipBlankLine([OPTIONS] + tail, header, k);
    assert [] + ([OPTIONS] + tail) == [OPTIONS] + tail;
  }

  /** An appended empty options section changes no value. */
  lemma WithOptionsReads(platform: Lines, more: bool, header: string, k: string)
    requires platform != [] && ProperHeader(header)
    ensures InSection(Body(WithOptions(platform, more)), k) == InSection(Body(platform), k)
    ensures Lookup(Body(WithOptions(platform, more)), header, k) == Lookup(Body(platform), header, k)
  {
    if !HasOptions(platform) {
      var block := OptionsBlock(platform, more);
      assert (platform + block)[1..] == platform[1..] + block;
      BlockHoldsNothing(platform, more, header, k);
      InSectionAppend(platform[1..], block, k);
      LookupAppend(platform[1..], block, header, k);
    }
  }

  /** The value the settings give a key, if any: the last one wins. */
  function Wanted(settings: seq<Setting>, k: string): Option<string> {
    if settings == [] then None
    else
      var n := |settings| - 1;
      if settings[n].key == k then Some(settings[n].value) else Wanted(settings[..n], k)
  }

  predicate ProperSettings(settings: seq<Setting>) {
    forall i :: 0 <= i < |settings| ==> ProperKey(settings[i].key)
  }

  lemma {:induction false} SetAllShape(platform: Lines, settings: seq<Setting>)
    requires PlatformShaped(platform) && HasOptions(platform) && ProperSettings(settings)
    ensures PlatformShaped(SetAll(platform, settings)) && HasOptions(SetAll(platform, settings))
  {
    if settings != [] {
      var n := |settings| - 1;
      SetAllShape(platform, settings[..n]);
      QuoteIsNeutral(settings[n].value);
      SetShape(SetAll(platform, settings[..n]), settings[n].key, Quote(settings[n].value));
    }
  }

  /** Every option reads as its setting says, or as before. */
  lemma {:induction false} SetAllReads(platform: Lines, settings: seq<Setting>, k: string)
    requires platform != [] && ProperSettings(settings) && ProperKey(k)
    ensures Lookup(Body(SetAll(platform, settings)), OPTIONS, k)
         == if Wanted(settings, k).Some? then Some(Quote(Wanted(settings, k).value)) else Lookup(Body(platform), OPTIONS, k)
  {
    if settings != [] {
      ProperHeaders();
      var n := |settings| - 1;
      var front, key, raw := SetAll(platform, settings[..n]), settings[n].key, Quote(settings[n].value);
      SetAllReads(platform, settings[..n], k);
      QuoteIsNeutral(settings[n].value);
      SetBody(front, key, raw);
      if k == key {
        PatchThenLookup(Body(front), OPTIONS, key, raw);
      } else {
        PatchOtherKey(Body(front), OPTIONS, key, raw, k);
      }
    }
  }

  lemma NotSameSection(body: Lines, header: string, other: string, d: nat)
    requires FromFirst(body, header) != [] && d < |other| && d < |header| && other[d] != header[d]
    ensures !SameSection(body, header, other)
  {
    PreambleSplits(body, header);
    Different(FromFirst(body, header)[0], header, other, d);
  }

  /** The platform's own keys and its other sections read as before. */
  lemma {:induction false} SetAllFrame(platform: Lines, settings: seq<Setting>, other: string, d: nat, k: string)
    requires PlatformShaped(platform) && HasOptions(platform) && ProperSettings(settings) && ProperKey(k)
    requires ProperHeader(other) && d < |other| && d < |OPTIONS| && other[d] != OPTIONS[d]
    ensures InSection(Body(SetAll(platform, settings)), k) == InSection(Body(platform), k)
    ensures Lookup(Body(SetAll(platform, settings)), other, k) == Lookup(Body(platform), other, k)
  {
    if settings != [] {
      ProperHeaders();
      var n := |settings| - 1;
      var front, key, raw := SetAll(platform, settings[..n]), settings[n].key, Quote(settings[n].value);
      SetAllFrame(platform, settings[..n], other, d, k);
      SetAllShape(platform, settings[..n]);
      QuoteIsNeutral(settings[n].value);
      SetBody(front, key, raw);
      PatchKeepsTop(Body(front), OPTIONS, key, raw, k);
      NotSameSection(Body(front), OPTIONS, other, d);
      PatchOtherSection(Body(front), OPTIONS, key, raw, other, k);
    }
  }
}
