/** config/config.go: what formatTOML does to the projects and platforms of a file, and exactly when
    it keeps their number. */
module FormatGroups {
  import opened Wrappers
  import opened SeqFacts
  import opened Text
  import opened TomlLine
  import opened ConfigSections
  import opened FormatToml
  import opened FormatLookup
  import opened RawGroups
  import opened ProjectSpans
  import opened ConfigText
  import opened PlatformEdit
  import opened PlatformOptions

  // --- How many headers survive ---

  function Count(lines: Lines, header: string): nat {
    if lines == [] then 0 else (if MatchHeader(lines[0], header) then 1 else 0) + Count(lines[1..], header)
  }

  /** The headers that formatting removes. */
  function EmptyCount(lines: Lines, header: string): nat {
    if lines == [] then 0
    else (if MatchHeader(lines[0], header) && SectionEmpty(lines[1..]) then 1 else 0) + EmptyCount(lines[1..], header)
  }

  lemma {:induction false} CountConcat(a: Lines, b: Lines, header: string)
    ensures Count(a + b, header) == Count(a, header) + Count(b, header)
  {
    if a == [] {
      assert a + b == b;
    } else {
      assert (a + b)[1..] == a[1..] + b;
      CountConcat(a[1..], b, header);
    }
  }

  lemma CountOne(line: string, header: string)
    ensures Count([line], header) == if MatchHeader(line, header) then 1 else 0
  {
    assert [line][1..] == [];
  }

  lemma {:induction false} CountNone(lines: Lines, header: string)
    requires NoMatch(lines, header)
    ensures Count(lines, header) == 0
  {
    if lines != [] { CountNone(lines[1..], header); }
  }

  lemma {:induction false} CountFlat(groups: seq<Lines>, header: string)
    requires AllShaped(groups, header)
    ensures Count(Flat(groups), header) == |groups|
  {
    if groups != [] {
      var g := groups[0];
      assert Shaped(g, header) && AllShaped(groups[1..], header);
      CountConcat(g, Flat(groups[1..]), header);
      CountNone(g[1..], header);
      CountFlat(groups[1..], header);
    }
  }

  /** As many groups as matching lines. */
  lemma GroupsCount(lines: Lines, header: string)
    ensures |Groups(lines, header)| == Count(lines, header)
  {
    GroupsCover(lines, header);
    CountConcat(Preamble(lines, header), Flat(Groups(lines, header)), header);
    CountNone(Preamble(lines, header), header);
    CountFlat(Groups(lines, header), header);
  }

  lemma {:induction false} NonBlankCount(lines: Lines, header: string)
    requires ProperHeader(header)
    ensures Count(NonBlank(lines), header) == Count(lines, header)
  {
    if lines != [] {
      NonBlankCons(lines);
      NonBlankCount(lines[1..], header);
      if Blank(lines[0]) {
        BlankMatchesNothing(lines[0], header, "");
        assert [] + NonBlank(lines[1..]) == NonBlank(lines[1..]);
      } else {
        CountConcat([lines[0]], NonBlank(lines[1..]), header);
        CountOne(lines[0], header);
      }
    }
  }

  lemma {:induction false} KeptCount(lines: Lines, header: string)
    requires ProperHeader(header)
    ensures Count(Kept(lines), header) + EmptyCount(lines, header) == Count(lines, header)
  {
    if lines != [] {
      KeptCount(lines[1..], header);
      TrimmedMatches(lines[0], header, "");
      HeaderLines(header);
      if !EmptyHeaderAt(lines, 0) {
        assert Kept(lines)[1..] == Kept(lines[1..]);
      }
    }
  }

  lemma {:induction false} NoneEmpty(lines: Lines, header: string)
    requires ProperHeader(header)
    ensures EmptyCount(lines, header) == 0 <==>
              forall i :: 0 <= i < |lines| && MatchHeader(lines[i], header) ==> !EmptyHeaderAt(lines, i)
  {
    HeaderLines(header);
    if lines != [] {
      NoneEmpty(lines[1..], header);
      forall i | 0 < i < |lines|
        ensures lines[i] == lines[1..][i - 1] && EmptyHeaderAt(lines, i) == EmptyHeaderAt(lines[1..], i - 1)
      {
        assert lines[1..][i - 1 + 1..] == lines[i + 1..];
      }
      assert EmptyHeaderAt(lines, 0) == (IsHeader(lines[0]) && SectionEmpty(lines[1..]));
    }
  }

  /** Formatting keeps the number of projects, and the number of platforms, if and only if none of their
      headers is empty. */
  lemma FormatKeepsCountIff(lines: Lines, header: string)
    requires ProperHeader(header)
    ensures |Groups(FormatLines(lines), header)| == |Groups(lines, header)| <==>
              forall i :: 0 <= i < |lines| && MatchHeader(lines[i], header) ==> !EmptyHeaderAt(lines, i)
    ensures |Groups(FormatLines(lines), header)| + EmptyCount(lines, header) == |Groups(lines, header)|
  {
    GroupsCount(lines, header);
    GroupsCount(FormatLines(lines), header);
    FormatKeepsContent(lines);
    NonBlankCount(FormatLines(lines), header);
    NonBlankCount(Kept(lines), header);
    KeptCount(lines, header);
    NoneEmpty(lines, header);
  }

  lemma CountsCons(line: string, rest: Lines, header: string)
    ensures Count([line] + rest, header) == (if MatchHeader(line, header) then 1 else 0) + Count(rest, header)
    ensures EmptyCount([line] + rest, header)
         == (if MatchHeader(line, header) && SectionEmpty(rest) then 1 else 0) + EmptyCount(rest, header)
  {
    assert ([line] + rest)[1..] == rest;
  }

  /** Two headers in a row, the first without content: one is left. */
  lemma EmptyArrayIsLost(header: string, line: string)
    requires ProperHeader(header) && !Blank(line) && !IsHeader(line)
    ensures |Groups([header] + ([header] + ([line] + [])), header)| == 2
    ensures |Groups(FormatLines([header] + ([header] + ([line] + []))), header)| == 1
  {
    HeaderLines(header);
    CountsCons(line, [], header);
    CountsCons(header, [line] + [], header);
    CountsCons(header, [header] + ([line] + []), header);
    GroupsCount([header] + ([header] + ([line] + [])), header);
    FormatKeepsCountIff([header] + ([header] + ([line] + [])), header);
  }

  // --- The content of a group ---

  /** The lines that formatting keeps, without the blank ones. */
  function Core(lines: Lines): Lines {
    NonBlank(Kept(lines))
  }

  lemma {:induction false} SectionEmptyStops(a: Lines, b: Lines)
    requires AtHeader(b)
    ensures SectionEmpty(a + b) == SectionEmpty(a)
  {
    if a == [] {
      assert a + b == b;
    } else {
      assert (a + b)[1..] == a[1..] + b;
      SectionEmptyStops(a[1..], b);
    }
  }

  lemma {:induction false} KeptConcat(a: Lines, b: Lines)
    requires AtHeader(b)
    ensures Kept(a + b) == Kept(a) + Kept(b)
  {
    if a == [] {
      assert a + b == b;
    } else {
      assert (a + b)[1..] == a[1..] + b;
      KeptConcat(a[1..], b);
      SectionEmptyStops(a[1..], b);
    }
  }

  lemma CoreConcat(a: Lines, b: Lines)
    requires AtHeader(b)
    ensures Core(a + b) == Core(a) + Core(b)
  {
    KeptConcat(a, b);
    NonBlankConcat(Kept(a), Kept(b));
  }

  lemma {:induction false} CoreNoMatch(lines: Lines, header: string)
    requires NoMatch(lines, header)
    ensures NoMatch(Core(lines), header)
  {
    if lines != [] {
      CoreNoMatch(lines[1..], header);
      if !EmptyHeaderAt(lines, 0) {
        TrimmedMatches(lines[0], header, "");
        NonBlankOne(TrimBlanks(lines[0]));
        NonBlankConcat([TrimBlanks(lines[0])], Kept(lines[1..]));
      }
    }
  }

  /** A header with content behind it stays in front of that content. */
  lemma CoreOfGroup(hdr: string, body: Lines)
    requires IsHeader(hdr) && !SectionEmpty(body)
    ensures Core([hdr] + body) == [TrimBlanks(hdr)] + Core(body)
  {
    var g := [hdr] + body;
    assert g[1..] == body;
    TrimBlanksKind(hdr);
    NonBlankOne(TrimBlanks(hdr));
    NonBlankConcat([TrimBlanks(hdr)], Kept(body));
  }

  lemma CoreShaped(g: Lines, header: string)
    requires ProperHeader(header) && Shaped(g, header) && !SectionEmpty(Body(g))
    ensures Shaped(Core(g), header) && Body(Core(g)) == Core(Body(g))
  {
    HeaderLines(header);
    assert g == [g[0]] + g[1..];
    CoreOfGroup(g[0], g[1..]);
    TrimmedMatches(g[0], header, "");
    CoreNoMatch(g[1..], header);
    assert ([TrimBlanks(g[0])] + Core(g[1..]))[1..] == Core(g[1..]);
  }

  function MapCore(groups: seq<Lines>): (r: seq<Lines>)
    ensures |r| == |groups|
    ensures forall i :: 0 <= i < |groups| ==> r[i] == Core(groups[i])
  {
    if groups == [] then [] else [Core(groups[0])] + MapCore(groups[1..])
  }

  /** No header of the groups is empty. */
  predicate AllFull(groups: seq<Lines>) {
    forall i :: 0 <= i < |groups| ==> !SectionEmpty(Body(groups[i]))
  }

  lemma {:induction false} CoreFlat(groups: seq<Lines>, header: string)
    requires ProperHeader(header) && AllShaped(groups, header)
    ensures Core(Flat(groups)) == Flat(MapCore(groups))
  {
    if groups != [] {
      var rest := groups[1..];
      assert AllShaped(rest, header);
      CoreFlat(rest, header);
      FlatAtHeader(rest, header);
      CoreConcat(groups[0], Flat(rest));
      assert MapCore(groups)[1..] == MapCore(rest);
    }
  }

  lemma FlatAtHeader(groups: seq<Lines>, header: string)
    requires ProperHeader(header) && AllShaped(groups, header)
    ensures AtHeader(Flat(groups))
  {
    HeaderLines(header);
    if groups != [] { FlatHead(groups, header); }
  }

  /** Cutting the content is taking the content of the cut. */
  lemma CoreGroups(lines: Lines, header: string)
    requires ProperHeader(header) && AllFull(Groups(lines, header))
    ensures Groups(Core(lines), header) == MapCore(Groups(lines, header))
  {
    var pre, groups := Preamble(lines, header), Groups(lines, header);
    GroupsCover(lines, header);
    FlatAtHeader(groups, header);
    CoreConcat(pre, Flat(groups));
    CoreFlat(groups, header);
    CoreNoMatch(pre, header);
    forall i | 0 <= i < |groups|
      ensures Shaped(MapCore(groups)[i], header)
    {
      CoreShaped(groups[i], header);
    }
    GroupsOfFlat(Core(pre), MapCore(groups), header);
  }

  /** No project header and no platform header is empty. */
  predicate NoEmptyArrays(lines: Lines) {
    && AllFull(Projects(lines))
    && forall i :: 0 <= i < |Projects(lines)| ==> AllFull(Platforms(Projects(lines)[i]))
  }

  /** The content of a file has the same projects and platforms, and the same values in their options. */
  lemma CorePlatform(lines: Lines, i: nat, p: nat)
    requires NoEmptyArrays(lines)
    ensures |Projects(Core(lines))| == |Projects(lines)|
    ensures i < |Projects(lines)| ==> |Platforms(Projects(Core(lines))[i])| == |Platforms(Projects(lines)[i])|
    ensures Exists(lines, i, p) ==> PlatformAt(Core(lines), i, p) == Core(PlatformAt(lines, i, p))
  {
    ProperHeaders();
    CoreGroups(lines, PROJECT);
    if i < |Projects(lines)| {
      var project := Projects(lines)[i];
      ProjectShape(lines, i);
      CoreShaped(project, PROJECT);
      CoreGroups(Body(project), PLATFORM);
    }
  }

  lemma CoreLookup(lines: Lines, header: string, k: string)
    requires ProperHeader(header) && Lookup(lines, header, k).Some?
    ensures Lookup(Core(lines), header, k) == Lookup(lines, header, k)
  {
    FoundHasContent(lines, header, k);
    KeptLookup(lines, header, k);
    NonBlankLookup(Kept(lines), header, k);
  }

  lemma CoreReads(lines: Lines, i: nat, p: nat, k: string)
    requires NoEmptyArrays(lines) && ReadOption(lines, i, p, k).Some?
    ensures ReadOption(Core(lines), i, p, k) == ReadOption(lines, i, p, k)
  {
    ProperHeaders();
    CorePlatform(lines, i, p);
    PlatformShape(lines, i, p);
    CoreShaped(PlatformAt(lines, i, p), PLATFORM);
    CoreLookup(Body(PlatformAt(lines, i, p)), OPTIONS, k);
  }

  // --- The formatted file ---

  lemma {:induction false} KeptFinalEmpty(lines: Lines)
    ensures SectionEmpty(lines + [""]) == SectionEmpty(lines) && Kept(lines + [""]) == Kept(lines) + [""]
  {
    EmptyIsBlank();
    EmptyIsTrimmed();
    if lines == [] {
      assert lines + [""] == [""] && [""][1..] == [];
    } else {
      assert (lines + [""])[1..] == lines[1..] + [""];
      KeptFinalEmpty(lines[1..]);
    }
  }

  lemma CoreFinalEmpty(lines: Lines)
    ensures Core(lines + [""]) == Core(lines)
  {
    EmptyIsBlank();
    KeptFinalEmpty(lines);
    NonBlankSnoc(Kept(lines), "");
  }

  /** Formatting keeps the content. */
  lemma CoreOfFormat(lines: Lines)
    ensures Core(FormatLines(lines)) == Core(lines)
    ensures NoEmptySections(NonBlank(FormatLines(lines)))
  {
    FormatIsNormal(lines);
    NoEmptyKept(FormatLines(lines));
    FormatKeepsContent(lines);
  }

  ghost predicate NoEmptyHeaders(lines: Lines) {
    forall i :: 0 <= i < |lines| && IsHeader(lines[i]) ==> !SectionEmpty(lines[i + 1..])
  }

  /** A stretch of lines that ends in front of a header, or at the end. */
  lemma SegmentFull(lines: Lines, a: Lines, seg: Lines, b: Lines)
    requires NoEmptyHeaders(lines) && lines == a + (seg + b) && AtHeader(b)
    ensures NoEmptyHeaders(seg)
  {
    forall i | 0 <= i < |seg| && IsHeader(seg[i])
      ensures !SectionEmpty(seg[i + 1..])
    {
      assert lines[|a| + i] == seg[i];
      assert lines[|a| + i + 1..] == seg[i + 1..] + b;
      SectionEmptyStops(seg[i + 1..], b);
    }
  }

  lemma GroupSegment(lines: Lines, header: string, i: nat) returns (a: Lines, b: Lines)
    requires ProperHeader(header) && i < |Groups(lines, header)|
    ensures lines == a + (Groups(lines, header)[i] + b) && AtHeader(b)
    ensures Shaped(Groups(lines, header)[i], header)
  {
    HeaderLines(header);
    var g := Groups(lines, header)[i];
    var pre, before, behind := Parts(lines, header, i, g);
    Assoc(pre, before, g + behind);
    a, b := pre + before, behind;
  }

  lemma HeadFull(g: Lines)
    requires g != [] && IsHeader(g[0]) && NoEmptyHeaders(g)
    ensures !SectionEmpty(Body(g)) && NoEmptyHeaders(Body(g))
  {
    assert g == [g[0]] + (g[1..] + []);
    SegmentFull(g, [g[0]], g[1..], []);
  }

  lemma GroupsFull(lines: Lines, header: string, i: nat)
    requires ProperHeader(header) && NoEmptyHeaders(lines) && i < |Groups(lines, header)|
    ensures !SectionEmpty(Body(Groups(lines, header)[i])) && NoEmptyHeaders(Body(Groups(lines, header)[i]))
  {
    HeaderLines(header);
    var g := Groups(lines, header)[i];
    var a, b := GroupSegment(lines, header, i);
    SegmentFull(lines, a, g, b);
    HeadFull(g);
  }

  lemma NoEmptyHeadersArrays(lines: Lines)
    requires NoEmptyHeaders(lines)
    ensures NoEmptyArrays(lines)
  {
    ProperHeaders();
    forall i | 0 <= i < |Projects(lines)|
      ensures !SectionEmpty(Body(Projects(lines)[i])) && AllFull(Platforms(Projects(lines)[i]))
    {
      GroupsFull(lines, PROJECT, i);
      var body := Body(Projects(lines)[i]);
      forall p | 0 <= p < |Groups(body, PLATFORM)|
        ensures !SectionEmpty(Body(Groups(body, PLATFORM)[p]))
      {
        GroupsFull(body, PLATFORM, p);
      }
    }
  }

  lemma FormattedHeaders(lines: Lines)
    ensures NoEmptyHeaders(FormatLines(lines))
  {
    CoreOfFormat(lines);
    var out := FormatLines(lines);
    forall i | 0 <= i < |out| && IsHeader(out[i])
      ensures !SectionEmpty(out[i + 1..])
    {
      SuffixContent(out, i);
    }
  }

  // --- Counting empty headers by group ---

  lemma {:induction false} EmptyCountOver(pre: Lines, rest: Lines, header: string)
    requires NoMatch(pre, header)
    ensures EmptyCount(pre + rest, header) == EmptyCount(rest, header)
  {
    if pre == [] {
      assert pre + rest == rest;
    } else {
      assert (pre + rest)[1..] == pre[1..] + rest;
      EmptyCountOver(pre[1..], rest, header);
    }
  }

  lemma {:induction false} EmptyCountFlat(groups: seq<Lines>, header: string)
    requires ProperHeader(header) && AllShaped(groups, header)
    ensures EmptyCount(Flat(groups), header) == 0 <==> AllFull(groups)
  {
    if groups != [] {
      var g, rest := groups[0], groups[1..];
      assert Shaped(g, header) && AllShaped(rest, header);
      assert (g + Flat(rest))[1..] == g[1..] + Flat(rest);
      FlatAtHeader(rest, header);
      SectionEmptyStops(g[1..], Flat(rest));
      EmptyCountOver(g[1..], Flat(rest), header);
      EmptyCountFlat(rest, header);
      AllFullCons(g, rest);
      assert groups == [g] + rest;
    }
  }

  lemma AllFullCons(g: Lines, rest: seq<Lines>)
    ensures AllFull([g] + rest) <==> !SectionEmpty(Body(g)) && AllFull(rest)
  {
    var all := [g] + rest;
    assert all[0] == g && forall i :: 0 <= i < |rest| ==> all[i + 1] == rest[i];
  }

  lemma EmptyCountGroups(lines: Lines, header: string)
    requires ProperHeader(header)
    ensures EmptyCount(lines, header) == 0 <==> AllFull(Groups(lines, header))
  {
    GroupsCover(lines, header);
    EmptyCountOver(Preamble(lines, header), Flat(Groups(lines, header)), header);
    EmptyCountFlat(Groups(lines, header), header);
  }

  lemma {:induction false} FinalEmptyCount(lines: Lines, header: string)
    requires ProperHeader(header)
    ensures Count(lines + [""], header) == Count(lines, header) && EmptyCount(lines + [""], header) == EmptyCount(lines, header)
  {
    BlankLine(header);
    if lines == [] {
      assert lines + [""] == [""] && [""][1..] == [];
    } else {
      assert (lines + [""])[1..] == lines[1..] + [""];
      KeptFinalEmpty(lines[1..]);
      FinalEmptyCount(lines[1..], header);
    }
  }

  /** A written file has as many groups as the lines it was written from, if and only if none of their
      headers is empty. */
  lemma WrittenCountIff(lines: Lines, hadTrailing: bool, header: string)
    requires AllFree(lines, '\n') && lines != [] && ProperHeader(header)
    ensures |Groups(ConfigLines(Written(lines, hadTrailing)), header)| == |Groups(lines, header)|
       <==> AllFull(Groups(lines, header))
  {
    WrittenLines(lines, hadTrailing);
    FormatKeepsCountIff(lines + [""], header);
    GroupsCount(lines, header);
    GroupsCount(lines + [""], header);
    FinalEmptyCount(lines, header);
    EmptyCountGroups(lines, header);
  }

  // --- Reading a written file ---

  lemma WrittenContent(lines: Lines, hadTrailing: bool)
    requires AllFree(lines, '\n') && lines != []
    ensures Core(ConfigLines(Written(lines, hadTrailing))) == Core(lines)
    ensures NoEmptyHeaders(ConfigLines(Written(lines, hadTrailing)))
  {
    WrittenLines(lines, hadTrailing);
    CoreOfFormat(lines + [""]);
    FormattedHeaders(lines + [""]);
    CoreFinalEmpty(lines);
  }

  lemma WrittenArrays(lines: Lines, hadTrailing: bool, j: nat)
    requires AllFree(lines, '\n') && lines != [] && NoEmptyArrays(lines)
    ensures var file := ConfigLines(Written(lines, hadTrailing));
            && |Projects(file)| == |Projects(lines)|
            && (j < |Projects(lines)| ==> |Platforms(Projects(file)[j])| == |Platforms(Projects(lines)[j])|)
  {
    var file := ConfigLines(Written(lines, hadTrailing));
    WrittenContent(lines, hadTrailing);
    NoEmptyHeadersArrays(file);
    CorePlatform(lines, j, 0);
    CorePlatform(file, j, 0);
  }

  lemma {:induction false} FullFirst(lines: Lines, header: string)
    requires NoEmptyHeaders(lines) && ProperHeader(header)
    ensures FirstHasContent(lines, header)
  {
    HeaderLines(header);
    if lines != [] {
      assert lines == [lines[0]] + (lines[1..] + []);
      SegmentFull(lines, [lines[0]], lines[1..], []);
      FullFirst(lines[1..], header);
    }
  }

  /** A file without empty sections is read the same as its content. */
  lemma FormattedReads(file: Lines, i: nat, p: nat, k: string)
    requires NoEmptyHeaders(file) && Exists(file, i, p)
    ensures ReadOption(file, i, p, k) == ReadOption(Core(file), i, p, k)
  {
    ProperHeaders();
    NoEmptyHeadersArrays(file);
    CorePlatform(file, i, p);
    PlatformShape(file, i, p);
    var q := PlatformAt(file, i, p);
    GroupsFull(file, PROJECT, i);
    GroupsFull(Body(Projects(file)[i]), PLATFORM, p);
    CoreShaped(q, PLATFORM);
    FullFirst(Body(q), OPTIONS);
    KeptLookup(Body(q), OPTIONS, k);
    NonBlankLookup(Kept(Body(q)), OPTIONS, k);
  }

  /** What can be read from a platform's options before the file is formatted and written can be read
      from the file. */
  lemma WrittenOption(lines: Lines, hadTrailing: bool, i: nat, p: nat, k: string)
    requires AllFree(lines, '\n') && lines != [] && NoEmptyArrays(lines) && ReadOption(lines, i, p, k).Some?
    ensures ReadOption(ConfigLines(Written(lines, hadTrailing)), i, p, k) == ReadOption(lines, i, p, k)
  {
    var file := ConfigLines(Written(lines, hadTrailing));
    WrittenContent(lines, hadTrailing);
    WrittenArrays(lines, hadTrailing, i);
    CoreReads(lines, i, p, k);
    FormattedReads(file, i, p, k);
  }
}
