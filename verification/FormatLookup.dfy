/** config/config.go: what the line editor finds in a file before and after formatTOML: its lookups
    see through the blank lines and empty sections that go. */
module FormatLookup {
  import opened Wrappers
  import opened Text
  import opened TomlLine
  import opened ConfigSections
  import opened FormatToml

  // --- A line and the same line right-trimmed ---

  lemma TrimmedMatches(line: string, header: string, key: string)
    ensures MatchHeader(TrimBlanks(line), header) == MatchHeader(line, header)
    ensures MatchKey(TrimBlanks(line), key) == MatchKey(line, key)
  {
    TrimBlanksSpace(line);
  }

  lemma {:induction false} NoEqIn(b: string)
    requires forall i :: 0 <= i < |b| ==> b[i] != '='
    ensures FirstEq(b) == |b|
  {
    if b != [] { NoEqIn(b[1..]); }
  }

  lemma {:induction false} FirstEqBefore(t: string, b: string)
    requires forall i :: 0 <= i < |b| ==> b[i] != '='
    ensures FirstEq(t + b) == if FirstEq(t) < |t| then FirstEq(t) else |t + b|
  {
    if t == [] {
      assert t + b == b;
      NoEqIn(b);
    } else {
      assert (t + b)[1..] == t[1..] + b;
      FirstEqBefore(t[1..], b);
    }
  }

  lemma {:induction false} NoCommentIn(b: string, st: Scan)
    requires forall i :: 0 <= i < |b| ==> b[i] != '#'
    ensures CommentAt(b, st) == |b|
  {
    if b != [] {
      NoCommentIn(b[1..], Next(st, b[0]));
    }
  }

  lemma TakeFront(a: string, b: string, n: nat)
    requires n <= |a|
    ensures (a + b)[..n] == a[..n]
  {
  }

  lemma TrimBehind(s: string, b: string)
    requires AllSpace(b)
    ensures TrimSpace(s + b) == TrimSpace(s)
  {
    assert [] + s + b == s + b;
    TrimAround([], s, b);
  }

  lemma TakeAll(s: string)
    ensures s[..|s|] == s
  {
  }

  /** The text in front of the comment, with blanks behind it. */
  lemma ValueThenBlanks(rest: string, b: string)
    requires AllSpace(b) && forall i :: 0 <= i < |b| ==> IsBlankChar(b[i])
    ensures TrimSpace((rest + b)[..CommentAt(rest + b, OUTSIDE)]) == TrimSpace(rest[..CommentAt(rest, OUTSIDE)])
  {
    ScanConcat(rest, b, OUTSIDE);
    NoCommentIn(b, After(rest, OUTSIDE));
    var at := CommentAt(rest, OUTSIDE);
    if at < |rest| {
      TakeFront(rest, b, at);
    } else {
      TakeAll(rest);
      TakeAll(rest + b);
      TrimBehind(rest, b);
    }
  }

  lemma ValueAfterEq(line: string, rest: string)
    requires FirstEq(line) < |line| && rest == line[FirstEq(line) + 1..]
    ensures ValueOf(line) == TrimSpace(rest[..CommentAt(rest, OUTSIDE)])
  {
  }

  lemma ValueBeforeBlanks(t: string, b: string)
    requires AllSpace(b) && forall i :: 0 <= i < |b| ==> IsBlankChar(b[i]) && b[i] != '='
    ensures ValueOf(t + b) == ValueOf(t)
  {
    FirstEqBefore(t, b);
    var e := FirstEq(t);
    if e < |t| {
      var rest := t[e + 1..];
      assert (t + b)[e + 1..] == rest + b;
      ValueAfterEq(t, rest);
      ValueAfterEq(t + b, rest + b);
      ValueThenBlanks(rest, b);
    }
  }

  lemma TrimmedValue(line: string)
    ensures ValueOf(TrimBlanks(line)) == ValueOf(line)
  {
    var b := TrimBlanksSplits(line);
    ValueBeforeBlanks(TrimBlanks(line), b);
  }

  // --- Blank lines are invisible ---

  lemma BlankMatchesNothing(line: string, header: string, key: string)
    requires Blank(line) && ProperHeader(header)
    ensures !IsHeader(line) && !MatchHeader(line, header) && !MatchKey(line, key)
  {
  }

  lemma NonBlankCons(lines: Lines)
    requires lines != []
    ensures NonBlank(lines) == (if Blank(lines[0]) then [] else [lines[0]]) + NonBlank(lines[1..])
  {
    NonBlankOne(lines[0]);
    NonBlankConcat([lines[0]], lines[1..]);
    assert lines == [lines[0]] + lines[1..];
  }

  lemma {:induction false} NonBlankInSection(lines: Lines, key: string)
    ensures InSection(NonBlank(lines), key) == InSection(lines, key)
  {
    if lines != [] {
      NonBlankCons(lines);
      NonBlankInSection(lines[1..], key);
      if Blank(lines[0]) {
        BlankMatchesNothing(lines[0], "[", key);
        assert [] + NonBlank(lines[1..]) == NonBlank(lines[1..]);
      }
    }
  }

  lemma {:induction false} NonBlankLookup(lines: Lines, header: string, key: string)
    requires ProperHeader(header)
    ensures Lookup(NonBlank(lines), header, key) == Lookup(lines, header, key)
  {
    if lines != [] {
      NonBlankCons(lines);
      NonBlankLookup(lines[1..], header, key);
      NonBlankInSection(lines[1..], key);
      if Blank(lines[0]) {
        BlankMatchesNothing(lines[0], header, key);
        assert [] + NonBlank(lines[1..]) == NonBlank(lines[1..]);
      }
    }
  }

  // --- Dropping empty sections ---

  lemma {:induction false} KeptEmptySection(rest: Lines, key: string)
    requires SectionEmpty(rest)
    ensures InSection(Kept(rest), key) == None
  {
    if rest != [] {
      TrimBlanksKind(rest[0]);
      if EmptyHeaderAt(rest, 0) || Blank(rest[0]) {
        KeptEmptySection(rest[1..], key);
      }
    }
  }

  lemma {:induction false} KeptInSection(lines: Lines, key: string)
    ensures InSection(Kept(lines), key) == InSection(lines, key)
  {
    if lines != [] {
      if EmptyHeaderAt(lines, 0) {
        KeptEmptySection(lines[1..], key);
      } else {
        TrimBlanksKind(lines[0]);
        TrimmedMatches(lines[0], "", key);
        TrimmedValue(lines[0]);
        KeptInSection(lines[1..], key);
      }
    }
  }

  /** The first section with this header, if there is one, has a content line. */
  predicate FirstHasContent(lines: Lines, header: string) {
    lines != [] ==>
      if MatchHeader(lines[0], header) then !SectionEmpty(lines[1..]) else FirstHasContent(lines[1..], header)
  }

  lemma {:induction false} EmptyFindsNothing(rest: Lines, key: string)
    requires SectionEmpty(rest)
    ensures InSection(rest, key) == None
  {
    if rest != [] && !IsHeader(rest[0]) {
      EmptyFindsNothing(rest[1..], key);
    }
  }

  /** A section in which something is found has a content line. */
  lemma {:induction false} FoundHasContent(lines: Lines, header: string, key: string)
    requires Lookup(lines, header, key).Some?
    ensures FirstHasContent(lines, header)
  {
    if MatchHeader(lines[0], header) {
      if SectionEmpty(lines[1..]) { EmptyFindsNothing(lines[1..], key); }
    } else {
      FoundHasContent(lines[1..], header, key);
    }
  }

  /** What the key reads in the first section with this header that has a content line. */
  function FirstNonEmpty(lines: Lines, header: string, key: string): Option<string> {
    if lines == [] then None
    else if MatchHeader(lines[0], header) && !SectionEmpty(lines[1..]) then InSection(lines[1..], key)
    else FirstNonEmpty(lines[1..], header, key)
  }

  lemma HeaderIsHeader(line: string, header: string)
    requires MatchHeader(line, header) && ProperHeader(header)
    ensures IsHeader(line)
  {
  }

  lemma {:induction false} KeptFirstNonEmpty(lines: Lines, header: string, key: string)
    requires ProperHeader(header)
    ensures Lookup(Kept(lines), header, key) == FirstNonEmpty(lines, header, key)
  {
    if lines != [] {
      TrimmedMatches(lines[0], header, key);
      if MatchHeader(lines[0], header) && !SectionEmpty(lines[1..]) {
        KeptInSection(lines[1..], key);
      } else {
        if MatchHeader(lines[0], header) { HeaderIsHeader(lines[0], header); }
        KeptFirstNonEmpty(lines[1..], header, key);
      }
    }
  }

  /** The lookup before: nothing if the first section is empty, otherwise the same section is found. */
  lemma {:induction false} LookupFirst(lines: Lines, header: string, key: string)
    ensures Lookup(lines, header, key)
         == if FirstHasContent(lines, header) then FirstNonEmpty(lines, header, key) else None
  {
    if lines != [] {
      if MatchHeader(lines[0], header) {
        if SectionEmpty(lines[1..]) { EmptyFindsNothing(lines[1..], key); }
      } else {
        LookupFirst(lines[1..], header, key);
      }
    }
  }

  lemma KeptLookup(lines: Lines, header: string, key: string)
    requires ProperHeader(header) && FirstHasContent(lines, header)
    ensures Lookup(Kept(lines), header, key) == Lookup(lines, header, key)
  {
    KeptFirstNonEmpty(lines, header, key);
    LookupFirst(lines, header, key);
  }

  // --- The formatter ---

  /** Formatting keeps every key in front of the first section, and turns the lookup of a section into
      the one of the first section with that header that is not empty. */
  lemma FormatLookups(lines: Lines, header: string, key: string)
    requires ProperHeader(header)
    ensures InSection(FormatLines(lines), key) == InSection(lines, key)
    ensures Lookup(FormatLines(lines), header, key) == FirstNonEmpty(lines, header, key)
  {
    FormatKeepsContent(lines);
    NonBlankInSection(FormatLines(lines), key);
    NonBlankInSection(Kept(lines), key);
    KeptInSection(lines, key);
    NonBlankLookup(FormatLines(lines), header, key);
    NonBlankLookup(Kept(lines), header, key);
    KeptFirstNonEmpty(lines, header, key);
  }

  /** For all lines: formatting keeps a section's lookup if and only if the first section with that
      header is not empty (or there is none), or no later one that is not empty has the key. */
  lemma FormatKeepsLookupIff(lines: Lines, header: string, key: string)
    requires ProperHeader(header)
    ensures Lookup(FormatLines(lines), header, key) == Lookup(lines, header, key)
       <==> FirstHasContent(lines, header) || FirstNonEmpty(lines, header, key) == None
  {
    FormatLookups(lines, header, key);
    LookupFirst(lines, header, key);
  }

  /** Formatting keeps every key in front of the first section, and every section whose first header
      is not empty. */
  lemma FormatKeepsLookup(lines: Lines, header: string, key: string)
    requires ProperHeader(header)
    ensures InSection(FormatLines(lines), key) == InSection(lines, key)
    ensures FirstHasContent(lines, header) ==> Lookup(FormatLines(lines), header, key) == Lookup(lines, header, key)
  {
    FormatLookups(lines, header, key);
    FormatKeepsLookupIff(lines, header, key);
  }

  /** Every value that could be read can still be read. */
  lemma FormatKeepsValue(lines: Lines, header: string, key: string)
    requires ProperHeader(header) && Lookup(lines, header, key).Some?
    ensures Lookup(FormatLines(lines), header, key) == Lookup(lines, header, key)
  {
    FoundHasContent(lines, header, key);
    FormatKeepsLookup(lines, header, key);
  }

  /** A header that occurs twice, first empty: the empty one goes, and the second is found instead. */
  lemma EmptyFirstChangesLookup(header: string, key: string, line: string)
    requires ProperHeader(header) && MatchKey(line, key)
    ensures Lookup([header, header, line], header, key) == None
    ensures Lookup(FormatLines([header, header, line]), header, key) == Some(ValueOf(line))
  {
    HeaderLines(header);
    var lines := [header, header, line];
    assert lines[1..] == [header, line] && [header, line][1..] == [line] && [line][1..] == [];
    FormatLookups(lines, header, key);
    LookupFirst(lines, header, key);
    assert FirstNonEmpty([header, line], header, key) == InSection([line], key);
  }

  // --- What formatting loses ---

  /** No line that starts with a bracket has nothing but blank lines behind it up to the next such line
      or the end. */
  predicate NoEmptyHeader(lines: Lines) {
    lines != [] ==> !EmptyHeaderAt(lines, 0) && NoEmptyHeader(lines[1..])
  }

  /** What formatting keeps of the first line, in terms of content. */
  lemma ContentCons(line: string, rest: Lines)
    ensures NonBlank(Kept([line] + rest))
         == (if Blank(line) || (IsHeader(line) && SectionEmpty(rest)) then [] else [TrimBlanks(line)])
            + NonBlank(Kept(rest))
    ensures IsHeader(line) ==> !Blank(line)
  {
    var lines := [line] + rest;
    assert lines[1..] == rest;
    TrimBlanksKind(line);
    if EmptyHeaderAt(lines, 0) {
      assert [] + NonBlank(Kept(rest)) == NonBlank(Kept(rest));
    } else {
      NonBlankOne(TrimBlanks(line));
      NonBlankConcat([TrimBlanks(line)], Kept(rest));
    }
  }

  lemma {:induction false} KeptCount(lines: Lines)
    ensures |NonBlank(Kept(lines))| <= |NonBlank(lines)|
    ensures |NonBlank(Kept(lines))| == |NonBlank(lines)| <==> NoEmptyHeader(lines)
  {
    if lines != [] {
      KeptCount(lines[1..]);
      NonBlankCons(lines);
      ContentCons(lines[0], lines[1..]);
      assert [lines[0]] + lines[1..] == lines;
    }
  }

  /** Formatting loses no line that is not blank if and only if there is no such line. */
  lemma FormatLosesNothingIff(lines: Lines)
    ensures |NonBlank(FormatLines(lines))| == |NonBlank(lines)| <==> NoEmptyHeader(lines)
  {
    FormatKeepsContent(lines);
    KeptCount(lines);
  }

  /** An array over several lines: a nested array that starts a line counts as a header. */
  lemma NestedArray(open: string, x: string, y: string, close: string)
    requires !IsHeader(open) && !IsHeader(close) && IsHeader(x) && IsHeader(y)
    requires !Blank(open) && !Blank(close)
    requires TrimBlanks(open) == open && TrimBlanks(y) == y && TrimBlanks(close) == close
    ensures NonBlank(FormatLines([open] + ([x] + ([y] + ([close] + []))))) == [open] + ([] + ([y] + ([close] + [])))
  {
    ContentCons(close, []);
    ContentCons(y, [close] + []);
    ContentCons(x, [y] + ([close] + []));
    ContentCons(open, [x] + ([y] + ([close] + [])));
    FormatKeepsContent([open] + ([x] + ([y] + ([close] + []))));
  }

  lemma TrimmedLine(line: string)
    requires line != "" && Trimmed(line)
    ensures TrimSpace(line) == line && TrimBlanks(line) == line && !Blank(line)
  {
    TrimTrimmed(line);
  }

  lemma FourLines(a: string, b: string, c: string, d: string)
    ensures [a] + ([b] + ([c] + ([d] + []))) == [a, b, c, d]
    ensures [a] + ([] + ([c] + ([d] + []))) == [a, c, d]
  {
  }

  /** A matrix written over several lines loses a row. */
  lemma MatrixLosesRow()
    ensures NonBlank(FormatLines(["matrix = [", "[1, 2],", "[3, 4],", "]"])) == ["matrix = [", "[3, 4],", "]"]
  {
    TrimmedLine("matrix = [");
    TrimmedLine("[1, 2],");
    TrimmedLine("[3, 4],");
    TrimmedLine("]");
    NestedArray("matrix = [", "[1, 2],", "[3, 4],", "]");
    FourLines("matrix = [", "[1, 2],", "[3, 4],", "]");
  }
}
