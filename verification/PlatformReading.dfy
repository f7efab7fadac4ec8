/** config/config.go: what the line editor takes for a platform and its options, on a file written out. */
module PlatformReading {
  import opened Wrappers
  import opened SeqFacts
  import opened Text
  import opened TomlLine
  import opened ConfigSections
  import opened EditShapes
  import opened RawGroups
  import opened ProjectSpans
  import opened PlatformEdit
  import opened PlatformOptions

  lemma {:induction false} PreambleFront(a: Lines, b: Lines, header: string)
    requires NoMatch(a, header)
    ensures Preamble(a + b, header) == a + Preamble(b, header) && FromFirst(a + b, header) == FromFirst(b, header)
  {
    if a == [] {
      assert a + b == b && [] + Preamble(b, header) == Preamble(b, header);
    } else {
      assert (a + b)[1..] == a[1..] + b;
      PreambleFront(a[1..], b, header);
    }
  }

  /** The first group that a header line starts: the lines up to the next one. */
  lemma FirstGroup(pre: Lines, hdr: string, tail: Lines, header: string)
    requires NoMatch(pre, header) && MatchHeader(hdr, header)
    ensures var groups := Groups(pre + ([hdr] + tail), header);
            groups != [] && groups[0] == [hdr] + Preamble(tail, header)
            && StartOf(pre + ([hdr] + tail), header, 0) == |pre|
  {
    PreambleOver(pre, [hdr] + tail, header);
    assert ([hdr] + tail)[1..] == tail;
  }

  lemma FrontStays(rest: Lines, header: string)
    requires AtHeader(rest)
    ensures AtHeader(Preamble(rest, header))
  {
  }

  /** From the options header on: the options, and what follows them. */
  function OptionsOn(opts: Lines, behind: Lines): Lines {
    ["[projects.platforms.options]"] + (opts + behind)
  }

  function PlatformOn(plat: Lines, opts: Lines, behind: Lines): Lines {
    ["[[projects.platforms]]"] + (plat + OptionsOn(opts, behind))
  }

  function ProjectOn(head: Lines, plat: Lines, opts: Lines, behind: Lines): Lines {
    ["[[projects]]"] + (head + PlatformOn(plat, opts, behind))
  }

  lemma OptionsFront(opts: Lines, behind: Lines, header: string)
    requires NoHeaders(opts) && (header == PROJECT || header == PLATFORM)
    ensures Preamble(OptionsOn(opts, behind), header) == OptionsOn(opts, Preamble(behind, header))
  {
    ProperHeaders();
    HeaderLines(OPTIONS);
    HeadersExclusive(OPTIONS);
    HeadersAreNot(opts, header);
    assert OptionsOn(opts, behind)[1..] == opts + behind;
    PreambleFront(opts, behind, header);
  }

  lemma PlatformFront(plat: Lines, opts: Lines, behind: Lines)
    requires NoHeaders(plat) && NoHeaders(opts)
    ensures Preamble(PlatformOn(plat, opts, behind), PROJECT) == PlatformOn(plat, opts, Preamble(behind, PROJECT))
  {
    ProperHeaders();
    HeaderLines(PLATFORM);
    HeadersExclusive(PLATFORM);
    HeadersAreNot(plat, PROJECT);
    assert PlatformOn(plat, opts, behind)[1..] == plat + OptionsOn(opts, behind);
    PreambleFront(plat, OptionsOn(opts, behind), PROJECT);
    OptionsFront(opts, behind, PROJECT);
  }

  /** The project's lines. */
  lemma ProjectLines(pre: Lines, head: Lines, plat: Lines, opts: Lines, behind: Lines)
    requires NoMatch(pre, PROJECT) && NoHeaders(head) && NoHeaders(plat) && NoHeaders(opts)
    ensures var lines := pre + ProjectOn(head, plat, opts, behind);
            Projects(lines) != [] && Projects(lines)[0] == ProjectOn(head, plat, opts, Preamble(behind, PROJECT))
            && StartOf(lines, PROJECT, 0) == |pre|
  {
    ProperHeaders();
    HeaderLines(PROJECT);
    HeadersAreNot(head, PROJECT);
    FirstGroup(pre, PROJECT, head + PlatformOn(plat, opts, behind), PROJECT);
    PreambleFront(head, PlatformOn(plat, opts, behind), PROJECT);
    PlatformFront(plat, opts, behind);
  }

  /** The platform's lines. */
  lemma PlatformLines(head: Lines, plat: Lines, opts: Lines, behind: Lines)
    requires NoHeaders(head) && NoHeaders(plat) && NoHeaders(opts)
    ensures var project := ProjectOn(head, plat, opts, behind);
            Platforms(project) != [] && Platforms(project)[0] == PlatformOn(plat, opts, Preamble(behind, PLATFORM))
            && StartOf(Body(project), PLATFORM, 0) == |head|
  {
    ProperHeaders();
    HeaderLines(PLATFORM);
    HeadersAreNot(head, PLATFORM);
    HeadersAreNot(plat, PLATFORM);
    assert Body(ProjectOn(head, plat, opts, behind)) == head + PlatformOn(plat, opts, behind);
    FirstGroup(head, PLATFORM, plat + OptionsOn(opts, behind), PLATFORM);
    PreambleFront(plat, OptionsOn(opts, behind), PLATFORM);
    OptionsFront(opts, behind, PLATFORM);
  }

  /** In any file: the first platform of the first project, and where it starts. */
  lemma FirstPlatform(pre: Lines, head: Lines, plat: Lines, opts: Lines, behind: Lines)
    requires NoMatch(pre, PROJECT) && NoHeaders(head) && NoHeaders(plat) && NoHeaders(opts)
    ensures var lines := pre + ProjectOn(head, plat, opts, behind);
            Exists(lines, 0, 0) && StartLine(lines, 0, 0) == |pre| + |head| + 1
            && PlatformAt(lines, 0, 0) == PlatformOn(plat, opts, Preamble(Preamble(behind, PROJECT), PLATFORM))
  {
    ProjectLines(pre, head, plat, opts, behind);
    PlatformLines(head, plat, opts, Preamble(behind, PROJECT));
  }

  lemma OptionsCut(plat: Lines, opts: Lines, behind: Lines)
    requires NoHeaders(plat) && NoHeaders(opts) && AtHeader(behind)
    ensures var body := Body(PlatformOn(plat, opts, behind));
            Preamble(body, OPTIONS) == plat && FromFirst(body, OPTIONS) == OptionsOn(opts, behind)
            && Top(body) == plat && Top(OptionsOn(opts, behind)[1..]) == opts
  {
    ProperHeaders();
    HeaderLines(OPTIONS);
    HeadersAreNot(plat, OPTIONS);
    assert Body(PlatformOn(plat, opts, behind)) == plat + OptionsOn(opts, behind);
    assert OptionsOn(opts, behind)[1..] == opts + behind;
    PreambleOver(plat, OptionsOn(opts, behind), OPTIONS);
    TopOver(plat, OptionsOn(opts, behind));
    TopOver(opts, behind);
  }

  lemma {:induction false} InSectionFront(opts: Lines, behind: Lines, k: string)
    requires NoHeaders(opts) && AtHeader(behind)
    ensures InSection(opts + behind, k) == InSection(opts, k)
  {
    if opts == [] {
      assert opts + behind == behind;
    } else {
      assert (opts + behind)[1..] == opts[1..] + behind;
      InSectionFront(opts[1..], behind, k);
    }
  }

  lemma {:induction false} LookupCut(lines: Lines, header: string, k: string)
    requires FromFirst(lines, header) != []
    ensures Lookup(lines, header, k) == InSection(FromFirst(lines, header)[1..], k)
  {
    if !MatchHeader(lines[0], header) {
      LookupCut(lines[1..], header, k);
    }
  }

  /** How a file with a project, a platform and its options is read, whatever stands in front of the
      project and behind the options: the options are the lines of their section. */
  lemma OptionIsRead(pre: Lines, head: Lines, plat: Lines, opts: Lines, behind: Lines, k: string)
    requires NoMatch(pre, "[[projects]]") && NoHeaders(head) && NoHeaders(plat) && NoHeaders(opts) && AtHeader(behind)
    ensures ReadOption(pre + ProjectOn(head, plat, opts, behind), 0, 0, k) == InSection(opts, k)
  {
    FirstPlatform(pre, head, plat, opts, behind);
    var more := Preamble(Preamble(behind, PROJECT), PLATFORM);
    FrontStays(behind, PROJECT);
    FrontStays(Preamble(behind, PROJECT), PLATFORM);
    OptionsCut(plat, opts, more);
    LookupCut(Body(PlatformOn(plat, opts, more)), OPTIONS, k);
    assert OptionsOn(opts, more)[1..] == opts + more;
    InSectionFront(opts, more, k);
  }

  lemma {:induction false} FirstKeyAt(plat: Lines, t: nat, key: string)
    requires t < |plat| && MatchKey(plat[t], key) && NoKey(plat[..t], key)
    ensures FirstKey(plat, key) == t
  {
    if t > 0 {
      assert plat[..t][0] == plat[0];
      assert plat[1..][..t - 1] == plat[..t][1..];
      FirstKeyAt(plat[1..], t - 1, key);
    }
  }

  /** And the line numbers of the span: the platform's header, its first type line, the options header
      and the last line of the options. */
  lemma SpanOfFile(pre: Lines, head: Lines, plat: Lines, opts: Lines, behind: Lines, t: nat)
    requires NoMatch(pre, "[[projects]]") && NoHeaders(head) && NoHeaders(plat) && NoHeaders(opts) && AtHeader(behind)
    requires t < |plat| && MatchKey(plat[t], "type") && NoKey(plat[..t], "type")
    ensures var spans := SpansOf(pre + ProjectOn(head, plat, opts, behind));
            && spans != [] && spans[0].platforms != []
            && var span := spans[0].platforms[0];
               && span.start == |pre| + |head| + 1 && span.typeLine == span.start + 1 + t
               && span.optionsStart == span.start + 1 + |plat| && span.optionsEnd == span.optionsStart + |opts|
  {
    var lines := pre + ProjectOn(head, plat, opts, behind);
    FirstPlatform(pre, head, plat, opts, behind);
    SpanAt(lines, 0, 0);
    var more := Preamble(Preamble(behind, PROJECT), PLATFORM);
    FrontStays(behind, PROJECT);
    FrontStays(Preamble(behind, PROJECT), PLATFORM);
    OptionsCut(plat, opts, more);
    FirstKeyAt(plat, t, TYPE);
  }
}
