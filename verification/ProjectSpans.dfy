/** config/config.go: buildRawProjectSpans, where the projects and their platforms are in the file, and
    the same file as nested groups of lines. */
module ProjectSpans {
  import opened SeqFacts
  import opened Text
  import opened TomlLine
  import opened ConfigSections
  import opened RawGroups

  const PROJECT: string := "[[projects]]"
  const PLATFORM: string := "[[projects.platforms]]"
  const OPTIONS: string := "[projects.platforms.options]"
  const TYPE: string := "type"

  datatype PlatformSpan = PlatformSpan(start: int, end: int, typeLine: int, optionsStart: int, optionsEnd: int)
  datatype ProjectSpan = ProjectSpan(start: int, end: int, platforms: seq<PlatformSpan>)

  // --- What the spans are: line numbers of the groups and of the options section inside them ---

  /** A group without its header line. */
  function Body(group: Lines): Lines {
    if group == [] then [] else group[1..]
  }

  /** One value for every group, computed from its lines and the number of its first line. */
  function MapGroups<T>(groups: seq<Lines>, at: int, f: (Lines, int) -> T): seq<T> {
    if groups == [] then [] else [f(groups[0], at)] + MapGroups(groups[1..], at + |groups[0]|, f)
  }

  /** How many lines stand in front of the first line of the key. */
  function FirstKey(lines: Lines, key: string): (i: nat)
    ensures i <= |lines|
  {
    if lines == [] || MatchKey(lines[0], key) then 0 else 1 + FirstKey(lines[1..], key)
  }

  /** The first line of the key in front of the first header, or -1. */
  function MainKeyLine(body: Lines, base: int, key: string): int {
    var k := FirstKey(Top(body), key);
    if k < |Top(body)| then base + k else -1
  }

  function PlatformSpanOf(platform: Lines, start: int): PlatformSpan {
    var body := Body(platform);
    var header := start + 1 + |Preamble(body, OPTIONS)|;
    var from := FromFirst(body, OPTIONS);
    PlatformSpan(start, start + |platform| - 1, MainKeyLine(body, start + 1, TYPE),
                 if from != [] then header else -1,
                 if from != [] then header + |Top(from[1..])| else -1)
  }

  function Platforms(project: Lines): seq<Lines> {
    Groups(Body(project), PLATFORM)
  }

  /** One span for every group in these lines, the first of which has this number. */
  function SpansIn<T>(lines: Lines, header: string, ln: int, f: (Lines, int) -> T): seq<T> {
    MapGroups(Groups(lines, header), ln + |Preamble(lines, header)|, f)
  }

  function ProjectSpanOf(project: Lines, start: int): ProjectSpan {
    ProjectSpan(start, start + |project| - 1, SpansIn(Body(project), PLATFORM, start + 1, PlatformSpanOf))
  }

  function Projects(lines: Lines): seq<Lines> {
    Groups(lines, PROJECT)
  }

  /** One span for every project, in order. */
  function SpansOf(lines: Lines): seq<ProjectSpan> {
    SpansIn(lines, PROJECT, 0, ProjectSpanOf)
  }

  // --- The lines on which groups start ---

  function StartsIn(lines: Lines, header: string, ln: int): seq<int> {
    if lines == [] then []
    else (if MatchHeader(lines[0], header) then [ln] else []) + StartsIn(lines[1..], header, ln + 1)
  }

  function GroupStarts(groups: seq<Lines>, at: int): seq<int> {
    if groups == [] then [] else [at] + GroupStarts(groups[1..], at + |groups[0]|)
  }

  lemma {:induction false} StartsOver(pre: Lines, rest: Lines, header: string, ln: int)
    requires NoMatch(pre, header)
    ensures StartsIn(pre + rest, header, ln) == StartsIn(rest, header, ln + |pre|)
  {
    if pre == [] {
      assert pre + rest == rest;
    } else {
      assert (pre + rest)[1..] == pre[1..] + rest;
      StartsOver(pre[1..], rest, header, ln + 1);
    }
  }

  lemma StartsGroup(g: Lines, rest: Lines, header: string, ln: int)
    requires Shaped(g, header)
    ensures StartsIn(g + rest, header, ln) == [ln] + StartsIn(rest, header, ln + |g|)
  {
    assert (g + rest)[1..] == g[1..] + rest;
    StartsOver(g[1..], rest, header, ln + 1);
  }

  lemma {:induction false} StartsFlat(groups: seq<Lines>, header: string, ln: int)
    requires AllShaped(groups, header)
    ensures StartsIn(Flat(groups), header, ln) == GroupStarts(groups, ln)
  {
    if groups != [] {
      assert Shaped(groups[0], header) && AllShaped(groups[1..], header);
      StartsGroup(groups[0], Flat(groups[1..]), header, ln);
      StartsFlat(groups[1..], header, ln + |groups[0]|);
    }
  }

  /** The matching lines are the first lines of the groups. */
  lemma StartsAreGroups(lines: Lines, header: string, ln: int)
    ensures StartsIn(lines, header, ln) == GroupStarts(Groups(lines, header), ln + |Preamble(lines, header)|)
  {
    GroupsCover(lines, header);
    StartsOver(Preamble(lines, header), Flat(Groups(lines, header)), header, ln);
    StartsFlat(Groups(lines, header), header, ln + |Preamble(lines, header)|);
  }

  /** The loops that collect the lines of one header between two line numbers. */
  method CollectStarts(lines: Lines, header: string, from: int, end: int) returns (starts: seq<int>)
    requires 0 <= from <= end + 1 <= |lines|
    ensures starts == StartsIn(Span(lines, from, end + 1), header, from)
  {
    starts := [];
    ghost var all := [] + StartsIn(Span(lines, from, end + 1), header, from);
    var ln := from;
    while ln <= end
      invariant from <= ln <= end + 1
      invariant starts + StartsIn(Span(lines, ln, end + 1), header, ln) == all
    {
      SpanNext(lines, ln, end + 1);
      if MatchHeader(lines[ln], header) {
        Assoc(starts, [ln], StartsIn(Span(lines, ln + 1, end + 1), header, ln + 1));
        starts := starts + [ln];
      } else {
        assert [] + StartsIn(Span(lines, ln + 1, end + 1), header, ln + 1) == StartsIn(Span(lines, ln + 1, end + 1), header, ln + 1);
      }
      ln := ln + 1;
    }
    assert starts + [] == starts;
  }

  // --- One platform ---

  /** The last line before the next header, or `end`. */
  method SectionLast(lines: Lines, header: int, end: int) returns (last: int)
    requires 0 <= header <= end < |lines|
    ensures last == header + |Top(Span(lines, header + 1, end + 1))|
  {
    var j := header + 1;
    while j <= end
      invariant header + 1 <= j <= end + 1
      invariant j + |Top(Span(lines, j, end + 1))| == header + 1 + |Top(Span(lines, header + 1, end + 1))|
    {
      SpanNext(lines, j, end + 1);
      if IsHeader(lines[j]) {
        return j - 1;
      }
      j := j + 1;
    }
    return end;
  }

  /** The scan's variables. */
  datatype ScanState = ScanState(inMain: bool, typeLine: int, optionsStart: int, optionsEnd: int)

  /** What one line does to them, when `last` is the last line of the section it would open. */
  function ScanLine(st: ScanState, line: string, ln: int, last: int): ScanState {
    var inMain := st.inMain && !IsHeader(line);
    var opens := st.optionsStart < 0 && MatchHeader(line, OPTIONS);
    ScanState(inMain, if inMain && st.typeLine < 0 && MatchKey(line, TYPE) then ln else st.typeLine,
              if opens then ln else st.optionsStart, if opens then last else st.optionsEnd)
  }

  function ScanRest(st: ScanState, rest: Lines, ln: int): ScanState
    decreases rest
  {
    if rest == [] then st
    else ScanRest(ScanLine(st, rest[0], ln, ln + |Top(rest[1..])|), rest[1..], ln + 1)
  }

  lemma {:induction false} ScannedKey(st: ScanState, rest: Lines, ln: nat)
    requires st.typeLine >= -1
    ensures ScanRest(st, rest, ln).typeLine
         == if st.typeLine >= 0 then st.typeLine else if st.inMain then MainKeyLine(rest, ln, TYPE) else -1
    decreases rest
  {
    if rest != [] {
      ScannedKey(ScanLine(st, rest[0], ln, ln + |Top(rest[1..])|), rest[1..], ln + 1);
      if !IsHeader(rest[0]) {
        assert Top(rest)[1..] == Top(rest[1..]);
      }
    }
  }

  lemma {:induction false} ScannedOptions(st: ScanState, rest: Lines, ln: nat)
    ensures var from, header := FromFirst(rest, OPTIONS), ln + |Preamble(rest, OPTIONS)|;
            if st.optionsStart >= 0 || from == []
            then ScanRest(st, rest, ln).optionsStart == st.optionsStart && ScanRest(st, rest, ln).optionsEnd == st.optionsEnd
            else ScanRest(st, rest, ln).optionsStart == header && ScanRest(st, rest, ln).optionsEnd == header + |Top(from[1..])|
    decreases rest
  {
    if rest != [] {
      ScannedOptions(ScanLine(st, rest[0], ln, ln + |Top(rest[1..])|), rest[1..], ln + 1);
    }
  }

  function SpanFrom(start: int, end: int, st: ScanState): PlatformSpan {
    PlatformSpan(start, end, st.typeLine, st.optionsStart, st.optionsEnd)
  }

  const SCAN_START: ScanState := ScanState(true, -1, -1, -1)

  lemma ScannedAll(platform: Lines, start: nat)
    ensures PlatformSpanOf(platform, start)
         == SpanFrom(start, start + |platform| - 1, ScanRest(SCAN_START, Body(platform), start + 1))
  {
    ScannedKey(SCAN_START, Body(platform), start + 1);
    ScannedOptions(SCAN_START, Body(platform), start + 1);
  }

  method ScanPlatform(lines: Lines, pstart: int, pend: int) returns (ps: PlatformSpan)
    requires 0 <= pstart <= pend < |lines|
    ensures ps == PlatformSpanOf(Span(lines, pstart, pend + 1), pstart)
  {
    var typeLine, optionsStart, optionsEnd := -1, -1, -1;
    var inMainPlatformTable := true;
    ghost var scanned := ScanRest(SCAN_START, Span(lines, pstart + 1, pend + 1), pstart + 1);
    var ln := pstart + 1;
    while ln <= pend
      invariant pstart + 1 <= ln <= pend + 1
      invariant ScanRest(ScanState(inMainPlatformTable, typeLine, optionsStart, optionsEnd), Span(lines, ln, pend + 1), ln)
             == scanned
    {
      SpanNext(lines, ln, pend + 1);
      if IsHeader(lines[ln]) {
        inMainPlatformTable := false;
      }
      if inMainPlatformTable && typeLine < 0 && MatchKey(lines[ln], TYPE) {
        typeLine := ln;
      }
      if optionsStart < 0 && MatchHeader(lines[ln], OPTIONS) {
        optionsStart := ln;
        optionsEnd := SectionLast(lines, ln, pend);
      }
      ln := ln + 1;
    }
    ScannedSpan(lines, pstart, pend);
    ps := PlatformSpan(pstart, pend, typeLine, optionsStart, optionsEnd);
  }

  lemma ScannedSpan(lines: Lines, pstart: int, pend: int)
    requires 0 <= pstart <= pend < |lines|
    ensures PlatformSpanOf(Span(lines, pstart, pend + 1), pstart)
         == SpanFrom(pstart, pend, ScanRest(SCAN_START, Span(lines, pstart + 1, pend + 1), pstart + 1))
  {
    SpanNext(lines, pstart, pend + 1);
    SpanSplit(lines, pstart, pend + 1, pend + 1);
    ScannedAll(Span(lines, pstart, pend + 1), pstart);
  }

  // --- All of it ---

  /** The last line of the group that starts at starts[i]. */
  function LastOf(starts: seq<int>, i: nat, end: int): int
    requires i < |starts|
  {
    if i + 1 < |starts| then starts[i + 1] - 1 else end
  }

  /** What is left for the loops over the collected starts: the groups from line `at` to `end`. */
  ghost predicate Remaining(lines: Lines, starts: seq<int>, i: nat, end: int, groups: seq<Lines>, at: int) {
    && i <= |starts| && Span(starts, i, |starts|) == GroupStarts(groups, at)
    && 0 <= at <= end + 1 <= |lines| && Span(lines, at, end + 1) == Flat(groups)
    && forall k :: 0 <= k < |groups| ==> groups[k] != []
  }

  lemma RemainingAtFirst(lines: Lines, header: string, from: int, end: int, region: Lines)
    requires 0 <= from <= end + 1 <= |lines| && region == Span(lines, from, end + 1)
    ensures Remaining(lines, StartsIn(region, header, from), 0, end, Groups(region, header), from + |Preamble(region, header)|)
  {
    SpanAll(StartsIn(region, header, from));
    StartsAreGroups(region, header, from);
    GroupsBehindPreamble(lines, header, from, end, region);
    GroupsCover(region, header);
    ShapedNonEmpty(Groups(region, header), header);
  }

  lemma GroupsBehindPreamble(lines: Lines, header: string, from: int, end: int, region: Lines)
    requires 0 <= from <= end + 1 <= |lines| && region == Span(lines, from, end + 1)
    ensures 0 <= from + |Preamble(region, header)| <= end + 1
    ensures Span(lines, from + |Preamble(region, header)|, end + 1) == Flat(Groups(region, header))
  {
    GroupsCover(region, header);
    SpanParts(lines, from, end + 1, Preamble(region, header), Flat(Groups(region, header)));
  }

  lemma ShapedNonEmpty(groups: seq<Lines>, header: string)
    requires AllShaped(groups, header)
    ensures forall k :: 0 <= k < |groups| ==> groups[k] != []
  {
    forall k | 0 <= k < |groups|
      ensures groups[k] != []
    {
      assert Shaped(groups[k], header);
    }
  }

  /** The first two of the remaining starts. */
  lemma NextTwo(starts: seq<int>, i: nat, groups: seq<Lines>, at: int)
    requires i < |starts| && Span(starts, i, |starts|) == GroupStarts(groups, at)
    ensures groups != [] && starts[i] == at
    ensures Span(starts, i + 1, |starts|) == GroupStarts(groups[1..], at + |groups[0]|)
    ensures i + 1 < |starts| <==> groups[1..] != []
    ensures i + 1 < |starts| ==> starts[i + 1] == at + |groups[0]|
  {
    SpanNext(starts, i, |starts|);
    assert GroupStarts(groups, at)[1..] == GroupStarts(groups[1..], at + |groups[0]|);
    if i + 1 < |starts| { SpanNext(starts, i + 1, |starts|); }
  }

  lemma RemainingNext(lines: Lines, starts: seq<int>, i: nat, end: int, groups: seq<Lines>, at: int)
    requires Remaining(lines, starts, i, end, groups, at) && i < |starts|
    ensures groups != [] && starts[i] == at && LastOf(starts, i, end) == at + |groups[0]| - 1
    ensures at <= LastOf(starts, i, end) < |lines| && Span(lines, at, LastOf(starts, i, end) + 1) == groups[0]
    ensures Remaining(lines, starts, i + 1, end, groups[1..], at + |groups[0]|)
  {
    NextTwo(starts, i, groups, at);
    SpanParts(lines, at, end + 1, groups[0], Flat(groups[1..]));
    SpanSplit(lines, at + |groups[0]|, end + 1, end + 1);
  }

  /** One value for every collected start from the i-th on, computed from the lines up to the next one. */
  function FromStarts<T>(lines: Lines, starts: seq<int>, i: nat, end: int, f: (Lines, int) -> T): seq<T>
    decreases |starts| - i
  {
    if i >= |starts| then []
    else [f(Span(lines, starts[i], LastOf(starts, i, end) + 1), starts[i])] + FromStarts(lines, starts, i + 1, end, f)
  }

  predicate InRange(lines: Lines, starts: seq<int>, i: nat, end: int)
    decreases |starts| - i
  {
    i < |starts| ==> 0 <= starts[i] <= LastOf(starts, i, end) < |lines| && InRange(lines, starts, i + 1, end)
  }

  lemma {:induction false} RemainingSpans<T>(lines: Lines, starts: seq<int>, i: nat, end: int, groups: seq<Lines>, at: int,
                                             f: (Lines, int) -> T)
    requires Remaining(lines, starts, i, end, groups, at)
    ensures FromStarts(lines, starts, i, end, f) == MapGroups(groups, at, f) && InRange(lines, starts, i, end)
    decreases groups
  {
    if i < |starts| {
      RemainingNext(lines, starts, i, end, groups, at);
      RemainingSpans(lines, starts, i + 1, end, groups[1..], at + |groups[0]|, f);
    }
  }

  /** The collected starts give one value for every group. */
  lemma StartsGiveGroups<T>(lines: Lines, header: string, from: int, end: int, region: Lines, f: (Lines, int) -> T)
    requires 0 <= from <= end + 1 <= |lines| && region == Span(lines, from, end + 1)
    ensures FromStarts(lines, StartsIn(region, header, from), 0, end, f)
         == SpansIn(region, header, from, f)
    ensures InRange(lines, StartsIn(region, header, from), 0, end)
  {
    RemainingAtFirst(lines, header, from, end, region);
    RemainingSpans(lines, StartsIn(region, header, from), 0, end, Groups(region, header),
                   from + |Preamble(region, header)|, f);
  }

  /** One round of the loop over the starts. */
  lemma NextStart<T>(lines: Lines, starts: seq<int>, i: nat, end: int, last: int, f: (Lines, int) -> T, v: T, done: seq<T>,
                     all: seq<T>)
    requires i < |starts| && last == LastOf(starts, i, end) && v == f(Span(lines, starts[i], last + 1), starts[i])
    requires done + FromStarts(lines, starts, i, end, f) == all
    ensures done + [v] + FromStarts(lines, starts, i + 1, end, f) == all
  {
    Assoc(done, [v], FromStarts(lines, starts, i + 1, end, f));
  }

  lemma LoopDone<T>(done: seq<T>, rest: seq<T>, all: seq<T>, result: seq<T>)
    requires done + rest == all && rest == [] && all == result
    ensures done == result
  {
    assert done + [] == done;
  }

  method BuildPlatformSpans(lines: Lines, from: int, end: int) returns (platforms: seq<PlatformSpan>)
    requires 0 <= from <= end + 1 <= |lines|
    ensures platforms == SpansIn(Span(lines, from, end + 1), PLATFORM, from, PlatformSpanOf)
  {
    var platformStarts := CollectStarts(lines, PLATFORM, from, end);
    StartsGiveGroups(lines, PLATFORM, from, end, Span(lines, from, end + 1), PlatformSpanOf);
    ghost var all := FromStarts(lines, platformStarts, 0, end, PlatformSpanOf);
    platforms := [];
    var p := 0;
    while p < |platformStarts|
      invariant 0 <= p <= |platformStarts| && InRange(lines, platformStarts, p, end)
      invariant platforms + FromStarts(lines, platformStarts, p, end, PlatformSpanOf) == all
    {
      var pend := end;
      if p + 1 < |platformStarts| {
        pend := platformStarts[p + 1] - 1;
      }
      var ps := ScanPlatform(lines, platformStarts[p], pend);
      NextStart(lines, platformStarts, p, end, pend, PlatformSpanOf, ps, platforms, all);
      platforms := platforms + [ps];
      p := p + 1;
    }
    LoopDone(platforms, FromStarts(lines, platformStarts, p, end, PlatformSpanOf), all,
             SpansIn(Span(lines, from, end + 1), PLATFORM, from, PlatformSpanOf));
  }

  lemma SpanBody(lines: Lines, start: int, end: int)
    requires 0 <= start <= end < |lines|
    ensures Span(lines, start, end + 1) != [] && |Span(lines, start, end + 1)| == end + 1 - start
    ensures Body(Span(lines, start, end + 1)) == Span(lines, start + 1, end + 1)
  {
    SpanNext(lines, start, end + 1);
    SpanSplit(lines, start, end + 1, end + 1);
  }

  lemma ProjectSpanIs(lines: Lines, start: int, end: int, platforms: seq<PlatformSpan>)
    requires 0 <= start <= end < |lines|
    requires platforms == SpansIn(Span(lines, start + 1, end + 1), PLATFORM, start + 1, PlatformSpanOf)
    ensures ProjectSpan(start, end, platforms) == ProjectSpanOf(Span(lines, start, end + 1), start)
  {
    SpanBody(lines, start, end);
  }

  method BuildRawProjectSpans(lines: Lines) returns (spans: seq<ProjectSpan>)
    ensures spans == SpansOf(lines)
  {
    var projectStarts := CollectStarts(lines, PROJECT, 0, |lines| - 1);
    var last := |lines| - 1;
    SpanAll(lines);
    StartsGiveGroups(lines, PROJECT, 0, last, lines, ProjectSpanOf);
    ghost var all := FromStarts(lines, projectStarts, 0, last, ProjectSpanOf);
    spans := [];
    var i := 0;
    while i < |projectStarts|
      invariant 0 <= i <= |projectStarts| && InRange(lines, projectStarts, i, last)
      invariant spans + FromStarts(lines, projectStarts, i, last, ProjectSpanOf) == all
    {
      var start, end := projectStarts[i], last;
      if i + 1 < |projectStarts| {
        end := projectStarts[i + 1] - 1;
      }
      var platforms := BuildPlatformSpans(lines, start + 1, end);
      ProjectSpanIs(lines, start, end, platforms);
      NextStart(lines, projectStarts, i, last, end, ProjectSpanOf, ProjectSpan(start, end, platforms), spans, all);
      spans := spans + [ProjectSpan(start, end, platforms)];
      i := i + 1;
    }
    LoopDone(spans, FromStarts(lines, projectStarts, i, last, ProjectSpanOf), all, SpansOf(lines));
  }
}
