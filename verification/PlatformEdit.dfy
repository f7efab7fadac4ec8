/** config/config.go: exchanging the lines of one platform of one project, and nothing else: the other
    platforms and projects keep theirs. */
module PlatformEdit {
  import opened Wrappers
  import opened SeqFacts
  import opened Text
  import opened TomlLine
  import opened ConfigSections
  import opened RawGroups
  import opened ProjectSpans
  import opened ConfigText

  predicate Exists(lines: Lines, i: nat, p: nat) {
    i < |Projects(lines)| && p < |Platforms(Projects(lines)[i])|
  }

  function PlatformAt(lines: Lines, i: nat, p: nat): Lines
    requires Exists(lines, i, p)
  {
    Platforms(Projects(lines)[i])[p]
  }

  function EditProject(project: Lines, p: nat, platform: Lines): Lines
    requires project != [] && p < |Platforms(project)|
  {
    [project[0]] + Rebuilt(Body(project), PLATFORM, p, platform)
  }

  /** The file with one platform exchanged. */
  function Edit(lines: Lines, i: nat, p: nat, platform: Lines): Lines
    requires Exists(lines, i, p) && Projects(lines)[i] != []
  {
    Rebuilt(lines, PROJECT, i, EditProject(Projects(lines)[i], p, platform))
  }

  /** What may stand in place of a platform: its header line, and no header that would cut it. */
  predicate PlatformShaped(platform: Lines) {
    Shaped(platform, PLATFORM) && NoMatch(platform, PROJECT)
  }

  // --- The two array headers ---

  lemma ProperHeaders()
    ensures ProperHeader(PROJECT) && ProperHeader(PLATFORM) && ProperHeader(OPTIONS)
  {
  }

  /** A line matches at most one of two headers that differ somewhere. */
  lemma Different(line: string, a: string, b: string, k: nat)
    requires k < |a| && k < |b| && a[k] != b[k]
    ensures !(MatchHeader(line, a) && MatchHeader(line, b))
  {
    var t := TrimSpace(line);
    if a <= t { assert t[k] == a[k]; }
    if b <= t { assert t[k] == b[k]; }
  }

  lemma HeadersExclusive(line: string)
    ensures !(MatchHeader(line, PROJECT) && MatchHeader(line, PLATFORM))
    ensures !(MatchHeader(line, PROJECT) && MatchHeader(line, OPTIONS))
    ensures !(MatchHeader(line, PLATFORM) && MatchHeader(line, OPTIONS))
  {
    assert PROJECT[10] == ']' && PLATFORM[10] == '.';
    assert PROJECT[1] == '[' && OPTIONS[1] == 'p' && PLATFORM[1] == '[';
    Different(line, PROJECT, PLATFORM, 10);
    Different(line, PROJECT, OPTIONS, 1);
    Different(line, PLATFORM, OPTIONS, 1);
  }

  // --- Nothing else changes ---

  lemma ProjectShape(lines: Lines, i: nat)
    requires i < |Projects(lines)|
    ensures Shaped(Projects(lines)[i], PROJECT)
  {
    GroupsCover(lines, PROJECT);
  }

  lemma {:induction false} NoMatchFlat(groups: seq<Lines>, header: string, i: nat)
    requires NoMatch(Flat(groups), header) && i < |groups|
    ensures NoMatch(groups[i], header)
  {
    NoMatchParts(groups[0], Flat(groups[1..]), header);
    if i > 0 {
      NoMatchFlat(groups[1..], header, i - 1);
    }
  }

  lemma NoMatchParts(a: Lines, b: Lines, header: string)
    ensures NoMatch(a + b, header) <==> NoMatch(a, header) && NoMatch(b, header)
  {
    assert forall i :: 0 <= i < |a| ==> (a + b)[i] == a[i];
    assert forall i :: 0 <= i < |b| ==> (a + b)[|a| + i] == b[i];
  }

  lemma PlatformShape(lines: Lines, i: nat, p: nat)
    requires Exists(lines, i, p)
    ensures PlatformShaped(PlatformAt(lines, i, p))
  {
    ProjectShape(lines, i);
    var body := Body(Projects(lines)[i]);
    GroupsCover(body, PLATFORM);
    NoMatchParts(Preamble(body, PLATFORM), Flat(Groups(body, PLATFORM)), PROJECT);
    NoMatchFlat(Groups(body, PLATFORM), PROJECT, p);
    assert Shaped(Groups(body, PLATFORM)[p], PLATFORM);
  }

  lemma RebuiltNoMatch(body: Lines, header: string, p: nat, group: Lines, other: string)
    requires p < |Groups(body, header)| && NoMatch(body, other) && NoMatch(group, other)
    ensures NoMatch(Rebuilt(body, header, p, group), other)
  {
    var pre, before, behind := Parts(body, header, p, group);
    var g := Groups(body, header)[p];
    NoMatchParts(pre, before + (g + behind), other);
    NoMatchParts(before, g + behind, other);
    NoMatchParts(g, behind, other);
    NoMatchParts(group, behind, other);
    NoMatchParts(before, group + behind, other);
    NoMatchParts(pre, before + (group + behind), other);
  }

  /** The edited project is still one project, with one platform exchanged. */
  lemma EditedProject(project: Lines, p: nat, platform: Lines)
    requires Shaped(project, PROJECT) && p < |Platforms(project)| && PlatformShaped(platform)
    ensures var project' := EditProject(project, p, platform);
            && Shaped(project', PROJECT) && project'[0] == project[0]
            && Platforms(project') == Platforms(project)[p := platform]
            && Preamble(Body(project'), PLATFORM) == Preamble(Body(project), PLATFORM)
  {
    var rest := Rebuilt(Body(project), PLATFORM, p, platform);
    RebuiltGroups(Body(project), PLATFORM, p, platform);
    RebuiltNoMatch(Body(project), PLATFORM, p, platform, PROJECT);
    assert ([project[0]] + rest)[1..] == rest;
  }

  /** The two files differ at most in the lines of platform p of project i. */
  ghost predicate SameElsewhere(lines: Lines, lines': Lines, i: nat, p: nat) {
    && Preamble(lines', PROJECT) == Preamble(lines, PROJECT)
    && |Projects(lines')| == |Projects(lines)|
    && (forall j :: 0 <= j < |Projects(lines)| && j != i ==> Projects(lines')[j] == Projects(lines)[j])
    && i < |Projects(lines)|
    && SameProjectElsewhere(Projects(lines)[i], Projects(lines')[i], p)
  }

  ghost predicate SameProjectElsewhere(project: Lines, project': Lines, p: nat) {
    && project != [] && project' != [] && project'[0] == project[0]
    && Preamble(Body(project'), PLATFORM) == Preamble(Body(project), PLATFORM)
    && |Platforms(project')| == |Platforms(project)|
    && (forall k :: 0 <= k < |Platforms(project)| && k != p ==> Platforms(project')[k] == Platforms(project)[k])
  }

  /** An edit changes only the chosen platform, whose lines are then the new ones. */
  lemma EditFrame(lines: Lines, i: nat, p: nat, platform: Lines)
    requires Exists(lines, i, p) && Projects(lines)[i] != [] && PlatformShaped(platform)
    ensures SameElsewhere(lines, Edit(lines, i, p, platform), i, p)
    ensures Exists(Edit(lines, i, p, platform), i, p) && PlatformAt(Edit(lines, i, p, platform), i, p) == platform
    ensures Projects(Edit(lines, i, p, platform))[i] == EditProject(Projects(lines)[i], p, platform)
  {
    ProjectShape(lines, i);
    EditedProject(Projects(lines)[i], p, platform);
    RebuiltGroups(lines, PROJECT, i, EditProject(Projects(lines)[i], p, platform));
  }

  lemma RebuiltTwice(lines: Lines, header: string, i: nat, g: Lines, h: Lines)
    requires i < |Groups(lines, header)| && Shaped(g, header)
    ensures |Groups(Rebuilt(lines, header, i, g), header)| == |Groups(lines, header)|
    ensures Rebuilt(Rebuilt(lines, header, i, g), header, i, h) == Rebuilt(lines, header, i, h)
  {
    RebuiltGroups(lines, header, i, g);
    assert Groups(lines, header)[i := g][i := h] == Groups(lines, header)[i := h];
  }

  /** The second edit of the same platform replaces the first. */
  lemma EditTwice(lines: Lines, i: nat, p: nat, q: Lines, q': Lines)
    requires Exists(lines, i, p) && Projects(lines)[i] != [] && PlatformShaped(q)
    ensures Exists(Edit(lines, i, p, q), i, p) && Projects(Edit(lines, i, p, q))[i] != []
    ensures PlatformAt(Edit(lines, i, p, q), i, p) == q
    ensures Edit(Edit(lines, i, p, q), i, p, q') == Edit(lines, i, p, q')
  {
    var project := Projects(lines)[i];
    EditFrame(lines, i, p, q);
    ProjectShape(lines, i);
    EditedProject(project, p, q);
    RebuiltTwice(lines, PROJECT, i, EditProject(project, p, q), EditProject(project, p, q'));
    RebuiltTwice(Body(project), PLATFORM, p, q, q');
    EditedBody(project, p, q);
  }

  lemma EditedBody(project: Lines, p: nat, q: Lines)
    requires project != [] && p < |Platforms(project)|
    ensures Body(EditProject(project, p, q)) == Rebuilt(Body(project), PLATFORM, p, q)
  {
    assert ([project[0]] + Rebuilt(Body(project), PLATFORM, p, q))[1..] == Rebuilt(Body(project), PLATFORM, p, q);
  }

  // --- From line numbers to the edit ---

  /** The line on which the platform starts. */
  function StartLine(lines: Lines, i: nat, p: nat): nat
    requires Exists(lines, i, p)
  {
    StartOf(lines, PROJECT, i) + 1 + StartOf(Body(Projects(lines)[i]), PLATFORM, p)
  }

  lemma {:induction false} MapLength<T>(groups: seq<Lines>, at: int, f: (Lines, int) -> T)
    ensures |MapGroups(groups, at, f)| == |groups|
  {
    if groups != [] { MapLength(groups[1..], at + |groups[0]|, f); }
  }

  lemma {:induction false} MapAt<T>(groups: seq<Lines>, at: int, f: (Lines, int) -> T, i: nat)
    requires i < |groups|
    ensures |MapGroups(groups, at, f)| == |groups|
    ensures MapGroups(groups, at, f)[i] == f(groups[i], at + LinesBefore(groups, i))
  {
    MapLength(groups, at, f);
    if i > 0 { MapAt(groups[1..], at + |groups[0]|, f, i - 1); }
  }

  lemma ProjectSpanAt(lines: Lines, i: nat)
    ensures |SpansOf(lines)| == |Projects(lines)|
    ensures i < |Projects(lines)| ==>
              SpansOf(lines)[i] == ProjectSpanOf(Projects(lines)[i], StartOf(lines, PROJECT, i))
  {
    MapLength(Projects(lines), |Preamble(lines, PROJECT)|, ProjectSpanOf);
    if i < |Projects(lines)| { MapAt(Projects(lines), |Preamble(lines, PROJECT)|, ProjectSpanOf, i); }
  }

  /** Where the first platform of a project starts. */
  function FirstPlatformLine(project: Lines, start: int): int {
    start + 1 + |Preamble(Body(project), PLATFORM)|
  }

  lemma SpanPlatforms(project: Lines, start: int)
    ensures ProjectSpanOf(project, start).platforms
         == MapGroups(Platforms(project), FirstPlatformLine(project, start), PlatformSpanOf)
  {
  }

  lemma PlatformSpanAt(project: Lines, start: int, p: nat)
    ensures |ProjectSpanOf(project, start).platforms| == |Platforms(project)|
    ensures p < |Platforms(project)| ==>
              ProjectSpanOf(project, start).platforms[p]
                == PlatformSpanOf(Platforms(project)[p], FirstPlatformLine(project, start) + LinesBefore(Platforms(project), p))
  {
    SpanPlatforms(project, start);
    MapLength(Platforms(project), FirstPlatformLine(project, start), PlatformSpanOf);
    if p < |Platforms(project)| {
      MapAt(Platforms(project), FirstPlatformLine(project, start), PlatformSpanOf, p);
    }
  }

  /** As many spans as projects, and in each as many as platforms; and each where its platform is. */
  lemma SpanAt(lines: Lines, i: nat, p: nat)
    ensures |SpansOf(lines)| == |Projects(lines)|
    ensures i < |Projects(lines)| ==> |SpansOf(lines)[i].platforms| == |Platforms(Projects(lines)[i])|
    ensures Exists(lines, i, p) ==>
              SpansOf(lines)[i].platforms[p] == PlatformSpanOf(PlatformAt(lines, i, p), StartLine(lines, i, p))
  {
    ProjectSpanAt(lines, i);
    if i < |Projects(lines)| { PlatformSpanAt(Projects(lines)[i], StartOf(lines, PROJECT, i), p); }
  }

  /** Exchanging a platform is exchanging its lines between the lines around it. */
  lemma EditAround(lines: Lines, i: nat, p: nat, q: Lines) returns (a: Lines, b: Lines)
    requires Exists(lines, i, p) && Projects(lines)[i] != []
    ensures lines == a + PlatformAt(lines, i, p) + b && Edit(lines, i, p, q) == a + q + b
    ensures |a| == StartLine(lines, i, p)
  {
    var project := Projects(lines)[i];
    var edited := EditProject(project, p, q);
    var x, y, z := Parts(lines, PROJECT, i, edited);
    var u, v, w := Parts(Body(project), PLATFORM, p, q);
    Nested(x, y, project[0], u, v, PlatformAt(lines, i, p), w, z);
    Nested(x, y, project[0], u, v, q, w, z);
    assert project == [project[0]] + Body(project);
    a, b := x + y + [project[0]] + u + v, w + z;
  }

  lemma Nested<T>(x: seq<T>, y: seq<T>, h: T, u: seq<T>, v: seq<T>, q: seq<T>, w: seq<T>, z: seq<T>)
    ensures x + (y + (([h] + (u + (v + (q + w)))) + z)) == (x + y + [h] + u + v) + q + (w + z)
  {
  }
}
